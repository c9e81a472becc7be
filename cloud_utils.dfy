/** `Headless/Libs/CloudUtils.cs`: turns asset URLs into URLs a client can
  * fetch directly. Web schemes pass through, the asset database scheme is
  * converted by the configured asset interface, anything else is refused. */
module CloudUtils {
  import opened Wrappers

  /** A parsed `System.Uri`: its (lower-case) scheme and its text. */
  datatype Uri = Uri(scheme: string, text: string)

  /** The part of `SkyFrost.Base.AssetInterface` used here: the database
    * scheme (`resdb`) and its conversion to an HTTP URL. */
  datatype AssetInterface = AssetInterface(dbScheme: string, dbToHttp: Uri -> Uri)

  datatype ResolveError =
    | UnsupportedScheme(scheme: string)   // `NotSupportedException`
    | MalformedUri(url: string)           // `UriFormatException` from `new Uri(url)`

  predicate IsWebScheme(scheme: string) {
    scheme == "http" || scheme == "https" || scheme == "ftp"
  }

  /** The static `_assetInterface` holder. */
  class Resolver {
    var assetInterface: AssetInterface

    /** The field starts as the production configuration's asset interface. */
    constructor (production: AssetInterface)
      ensures assetInterface == production
    {
      assetInterface := production;
    }

    /** `Setup` replaces the asset interface used from then on. */
    method Setup(assetInterface: AssetInterface)
      modifies this
      ensures this.assetInterface == assetInterface
    {
      this.assetInterface := assetInterface;
    }

    /** `ResolveURL(Uri)` */
    function ResolveURL(url: Uri): (r: Result<Uri, ResolveError>)
      reads this
      ensures r.Err? <==> !IsWebScheme(url.scheme) && url.scheme != assetInterface.dbScheme
      ensures r.Err? ==> r.error == UnsupportedScheme(url.scheme)
      ensures IsWebScheme(url.scheme) ==> r == Ok(url)
      ensures !IsWebScheme(url.scheme) && url.scheme == assetInterface.dbScheme ==> r == Ok(assetInterface.dbToHttp(url))
    {
      if IsWebScheme(url.scheme) then Ok(url)
      else if url.scheme == assetInterface.dbScheme then Ok(assetInterface.dbToHttp(url))
      else Err(UnsupportedScheme(url.scheme))
    }

    /** `ResolveURL(string?)`: null stays null; `parse` is `new Uri`. */
    function ResolveURLString(url: Option<string>, parse: string -> Option<Uri>): (r: Result<Option<string>, ResolveError>)
      reads this
      ensures url.None? ==> r == Ok(None)
      ensures url.Some? && parse(url.value).None? ==> r == Err(MalformedUri(url.value))
      ensures url.Some? && parse(url.value).Some? ==>
        match ResolveURL(parse(url.value).value)
        case Ok(u) => r == Ok(Some(u.text))
        case Err(e) => r == Err(e)
    {
      if url.None? then Ok(None)
      else match parse(url.value)
        case None => Err(MalformedUri(url.value))
        case Some(u) =>
          match ResolveURL(u)
          case Ok(resolved) => Ok(Some(resolved.text))
          case Err(e) => Err(e)
    }
  }
}
