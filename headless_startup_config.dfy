/** `Headless/Configuration/HeadlessStartupConfig.cs`: the startup
  * configuration the runner starts from, either converted from a vanilla
  * headless `Config.json` or replaced by a JSON document in the gRPC
  * format. The host-entry parser here is also the one the standalone
  * service applies inline. */
module HeadlessStartupConfig {
  import opened Wrappers
  import opened Text
  import Engine
  import RpcConversion

  /** `Rpc.AllowedAccessEntry.Types.AccessType` */
  datatype AccessType = Http | Websocket | OscSending | OscReceiving

  /** `Rpc.AllowedAccessEntry` */
  datatype AllowedAccessEntry = AllowedAccessEntry(host: string, ports: seq<int>, accessTypes: seq<AccessType>)

  /** What `Uri.TryCreate(text, UriKind.Absolute, out url)` gives when it
    * succeeds: the URI's host and port. */
  datatype AbsoluteUri = AbsoluteUri(host: string, port: int)

  /** `Rpc.StartupConfig`: optional scalars are `Option`s, repeated fields
    * sequences; the `float` tick rate is a whole number. */
  datatype StartupConfig = StartupConfig(
    universeId: Option<string>,
    tickRate: Option<int>,
    maxConcurrentAssetTransfers: Option<int>,
    usernameOverride: Option<string>,
    startWorlds: seq<RpcConversion.ProtoParameters>,
    allowedUrlHosts: seq<AllowedAccessEntry>,
    autoSpawnItems: seq<string>)

  /** `new Rpc.StartupConfig()` */
  const EmptyConfig := StartupConfig(None, None, None, None, [], [], [])

  /** The engine's `HeadlessConfig` as read from `Config.json`: absent lists
    * are `None`; the `float` tick rate is a whole number. */
  datatype HeadlessConfig = HeadlessConfig(
    universeId: Option<string>,
    tickRate: int,
    maxConcurrentAssetTransfers: int,
    usernameOverride: Option<string>,
    startWorlds: Option<seq<Engine.StartupParameters>>,
    allowedUrlHosts: Option<seq<string>>,
    autoSpawnItems: Option<seq<string>>)

  const DefaultPort := 80

  // ---- allowed hosts -------------------------------------------------------

  /** How an allowed-host entry names its host: through an absolute URI,
    * or as text with, for `host:port`, the text of the port. */
  datatype Named = ByUri(uri: AbsoluteUri) | ByText(host: string, portText: Option<string>)
  {
    function Host(): string {
      match this
      case ByUri(uri) => uri.host
      case ByText(host, _) => host
    }
  }

  /** The entry trimmed and lower-cased. */
  function Lowered(entry: string): string {
    ToLower(Trim(entry))
  }

  /** Reads an allowed-host entry, before empty hosts are dropped: an
    * absolute URI with a host gives that URI; otherwise the text is split
    * on `:`, one piece is the host, two pieces are host and port text, and
    * more pieces leave the whole text as the host. */
  function NameOf(entry: string, tryCreate: string -> Option<AbsoluteUri>): (r: Named)
    ensures var url := tryCreate(Lowered(entry));
      r.ByUri? <==> url.Some? && url.value.host != ""
  {
    var host := Lowered(entry);
    var url := tryCreate(host);
    if url.Some? && url.value.host != "" then ByUri(url.value)
    else
      var segments := Split(host, ':');
      if |segments| == 1 then ByText(segments[0], None)
      else if |segments| == 2 then ByText(segments[0], Some(segments[1]))
      else ByText(host, None)
  }

  /** The cases of `NameOf` on the lowered text itself: no colon keeps it
    * all with no port, one colon splits it at that colon, two or more keep
    * it all with no port. */
  lemma NameOfCases(entry: string, tryCreate: string -> Option<AbsoluteUri>)
    ensures var host := Lowered(entry);
      var r := NameOf(entry, tryCreate);
      r.ByText? ==>
        if multiset(host)[':'] == 1 then
          var i := IndexOf(host, ':');
          r == ByText(host[..i], Some(host[i + 1..]))
        else r == ByText(host, None)
  {
    SplitCases(Lowered(entry), ':');
  }

  /** The port: the URI's, or the port text when it parses as a 32-bit
    * integer, else 80. */
  function PortOf(n: Named): (r: int)
    ensures n.ByUri? ==> r == n.uri.port
    ensures n.ByText? ==> IsInt32(r)
    ensures n.ByText? && n.portText.Some? && TryParseInt32(n.portText.value).Some? ==> r == TryParseInt32(n.portText.value).value
    ensures n.ByText? && (n.portText.None? || TryParseInt32(n.portText.value).None?) ==> r == DefaultPort
  {
    match n
    case ByUri(uri) => uri.port
    case ByText(_, portText) =>
      if portText.Some? then TryParseInt32(portText.value).GetOr(DefaultPort) else DefaultPort
  }

  /** Port text that is a 32-bit integer's own printing gives that port;
    * text that does not parse gives 80. */
  lemma PortOfText(host: string, text: string)
    ensures TryParseInt32(text).None? ==> PortOf(ByText(host, Some(text))) == DefaultPort
    ensures forall n :: IsInt32(n) && text == IntToString(n) ==> PortOf(ByText(host, Some(text))) == n
  {
    forall n | IsInt32(n) && text == IntToString(n)
      ensures PortOf(ByText(host, Some(text))) == n
    {
      ParseIntToString(n);
    }
  }

  /** The access an entry for `host` is given: HTTP, WebSocket and OSC
    * sending always, OSC receiving for `localhost` alone. */
  function AccessTypesFor(host: string): (r: seq<AccessType>)
    ensures Http in r && Websocket in r && OscSending in r
    ensures OscReceiving in r <==> host == "localhost"
  {
    [Http, Websocket, OscSending] + (if host == "localhost" then [OscReceiving] else [])
  }

  /** The `Select` lambda over one allowed-host entry, given how the entry
    * names its host: none for an empty host, else an entry with that host,
    * its single port and its access types. */
  function EntryFor(n: Named): (r: Option<AllowedAccessEntry>)
    ensures r.None? <==> n.Host() == ""
    ensures r.Some? ==>
      && r.value.host == n.Host()
      && r.value.ports == [PortOf(n)]
      && (OscReceiving in r.value.accessTypes <==> r.value.host == "localhost")
  {
    if n.Host() == "" then None
    else Some(AllowedAccessEntry(n.Host(), [PortOf(n)], AccessTypesFor(n.Host())))
  }

  /** One configured host read as an allowed-host entry: none exactly when
    * it names no host; otherwise that host with a single port and its
    * access types. */
  function ParseHostEntry(entry: string, tryCreate: string -> Option<AbsoluteUri>): (r: Option<AllowedAccessEntry>)
    ensures r.None? <==> NameOf(entry, tryCreate).Host() == ""
    ensures r.Some? ==> r.value.host == NameOf(entry, tryCreate).Host() && r.value.host != "" && |r.value.ports| == 1
    ensures r.Some? ==> r.value.accessTypes == AccessTypesFor(r.value.host)
  {
    EntryFor(NameOf(entry, tryCreate))
  }

  /** `Where(h => h != null)`: the present values, in order. */
  function Present<T>(xs: seq<Option<T>>): (r: seq<T>)
    ensures |r| <= |xs|
  {
    if xs == [] then []
    else (if xs[0].Some? then [xs[0].value] else []) + Present(xs[1..])
  }

  /** Exactly the present values are kept. */
  lemma {:induction false} PresentMembers<T>(xs: seq<Option<T>>, x: T)
    ensures x in Present(xs) <==> Some(x) in xs
  {
    if xs != [] {
      PresentMembers(xs[1..], x);
      assert xs == [xs[0]] + xs[1..];
    }
  }

  /** Filtering is element by element: the present values of a
    * concatenation are those of each part, in order. */
  lemma {:induction false} PresentAppend<T>(a: seq<Option<T>>, b: seq<Option<T>>)
    ensures Present(a + b) == Present(a) + Present(b)
  {
    if a == [] {
      assert a + b == b;
    } else {
      assert (a + b)[0] == a[0];
      assert (a + b)[1..] == a[1..] + b;
      PresentAppend(a[1..], b);
    }
  }

  /** Nothing is dropped exactly when every value is present. */
  lemma {:induction false} PresentKeepsAll<T>(xs: seq<Option<T>>)
    ensures |Present(xs)| == |xs| <==> forall k :: 0 <= k < |xs| ==> xs[k].Some?
  {
    if xs != [] {
      PresentKeepsAll(xs[1..]);
      assert forall k :: 1 <= k < |xs| ==> xs[k] == xs[1..][k - 1];
    }
  }

  /** Each entry read through `ParseHostEntry`. */
  function ParsedEntries(entries: seq<string>, tryCreate: string -> Option<AbsoluteUri>): (r: seq<Option<AllowedAccessEntry>>)
    ensures |r| == |entries|
    ensures forall k :: 0 <= k < |entries| ==> r[k] == ParseHostEntry(entries[k], tryCreate)
  {
    seq(|entries|, k requires 0 <= k < |entries| => ParseHostEntry(entries[k], tryCreate))
  }

  /** The entries that parse, in input order. */
  function AllowedHosts(entries: seq<string>, tryCreate: string -> Option<AbsoluteUri>): (r: seq<AllowedAccessEntry>)
    ensures |r| <= |entries|
    ensures |r| == |entries| <==> forall k :: 0 <= k < |entries| ==> ParseHostEntry(entries[k], tryCreate).Some?
  {
    PresentKeepsAll(ParsedEntries(entries, tryCreate));
    Present(ParsedEntries(entries, tryCreate))
  }

  /** Every allowed host has a non-empty host and exactly one port, and it
    * is the entry of one of the inputs. */
  lemma AllowedHostsWellFormed(entries: seq<string>, tryCreate: string -> Option<AbsoluteUri>, e: AllowedAccessEntry)
    requires e in AllowedHosts(entries, tryCreate)
    ensures e.host != "" && |e.ports| == 1
    ensures exists k :: 0 <= k < |entries| && ParseHostEntry(entries[k], tryCreate) == Some(e)
  {
    PresentMembers(ParsedEntries(entries, tryCreate), e);
  }

  // ---- loading the vanilla configuration -------------------------------

  /** `StartWorlds.Where(w => w.IsEnabled)` */
  function EnabledWorlds(worlds: seq<Engine.StartupParameters>): (r: seq<Engine.StartupParameters>)
    ensures forall w :: w in r <==> w in worlds && w.isEnabled
  {
    if worlds == [] then []
    else (if worlds[0].isEnabled then [worlds[0]] else []) + EnabledWorlds(worlds[1..])
  }

  /** A conversion over each item in turn; the first failure ends the
    * enumeration with its exception. */
  function ConvertAll<A, B, E>(xs: seq<A>, f: A -> Result<B, E>): (r: Result<seq<B>, E>)
    ensures r.Ok? ==> |r.value| == |xs|
    ensures r.Err? ==> exists k :: 0 <= k < |xs| && f(xs[k]) == Err(r.error)
  {
    if xs == [] then Ok([])
    else
      match f(xs[0])
      case Err(e) => Err(e)
      case Ok(y) =>
        var rest := ConvertAll(xs[1..], f);
        if rest.Err? then Err(rest.error) else Ok([y] + rest.value)
  }

  /** The conversion succeeds exactly when every item converts, and then
    * holds each item's conversion at that item's place. */
  lemma {:induction false} ConvertAllMeaning<A, B, E>(xs: seq<A>, f: A -> Result<B, E>)
    ensures ConvertAll(xs, f).Err? <==> exists k :: 0 <= k < |xs| && f(xs[k]).Err?
    ensures ConvertAll(xs, f).Ok? ==>
      && |ConvertAll(xs, f).value| == |xs|
      && forall k :: 0 <= k < |xs| ==> f(xs[k]) == Ok(ConvertAll(xs, f).value[k])
  {
    if xs != [] {
      ConvertAllMeaning(xs[1..], f);
      assert forall k :: 1 <= k < |xs| ==> xs[k] == xs[1..][k - 1];
      if f(xs[0]).Ok? && ConvertAll(xs[1..], f).Ok? {
        var r := ConvertAll(xs, f).value;
        assert forall k :: 1 <= k < |xs| ==> r[k] == ConvertAll(xs[1..], f).value[k - 1];
      }
    }
  }

  /** Converting a concatenation converts each part in turn. */
  lemma {:induction false} ConvertAllAppend<A, B, E>(a: seq<A>, b: seq<A>, f: A -> Result<B, E>)
    requires ConvertAll(a, f).Ok?
    ensures ConvertAll(a + b, f) ==
      if ConvertAll(b, f).Ok? then Ok(ConvertAll(a, f).value + ConvertAll(b, f).value) else Err(ConvertAll(b, f).error)
  {
    if a == [] {
      assert a + b == b;
      if ConvertAll(b, f).Ok? {
        assert [] + ConvertAll(b, f).value == ConvertAll(b, f).value;
      }
    } else {
      assert (a + b)[0] == a[0];
      assert (a + b)[1..] == a[1..] + b;
      assert f(a[0]).Ok? && ConvertAll(a[1..], f).Ok?;
      ConvertAllAppend(a[1..], b, f);
      var y := f(a[0]).value;
      assert ConvertAll(a, f).value == [y] + ConvertAll(a[1..], f).value;
      var tail := ConvertAll(a[1..] + b, f);
      assert ConvertAll(a + b, f) == if tail.Err? then Err(tail.error) else Ok([y] + tail.value);
      if ConvertAll(b, f).Ok? {
        assert [y] + (ConvertAll(a[1..], f).value + ConvertAll(b, f).value)
          == ([y] + ConvertAll(a[1..], f).value) + ConvertAll(b, f).value;
      }
    }
  }

  lemma ConvertAllSingle<A, B, E>(x: A, f: A -> Result<B, E>)
    ensures ConvertAll([x], f) == if f(x).Ok? then Ok([f(x).value]) else Err(f(x).error)
  {
    assert [x][1..] == [];
    assert ConvertAll([x][1..], f) == Ok([]);
    if f(x).Ok? {
      assert [f(x).value] + [] == [f(x).value];
    }
  }

  /** The foreach that adds each converted item; a failing conversion ends
    * it with its error. */
  method ConvertEach<A, B, E>(xs: seq<A>, f: A -> Result<B, E>) returns (r: Result<seq<B>, E>)
    ensures r == ConvertAll(xs, f)
  {
    var converted: seq<B> := [];
    var i := 0;
    while i < |xs|
      invariant 0 <= i <= |xs|
      invariant ConvertAll(xs[..i], f) == Ok(converted)
    {
      assert xs[..i + 1] == xs[..i] + [xs[i]];
      ConvertAllAppend(xs[..i], [xs[i]], f);
      ConvertAllSingle(xs[i], f);
      var y := f(xs[i]);
      if y.Err? {
        assert xs == xs[..i] + xs[i..];
        ConvertAllAppend(xs[..i], xs[i..], f);
        assert xs[i..][0] == xs[i];
        return Err(y.error);
      }
      converted := converted + [y.value];
      i := i + 1;
    }
    assert xs[..i] == xs;
    return Ok(converted);
  }

  /** The foreach that adds each item in turn. */
  method AddAll<T>(target: seq<T>, items: seq<T>) returns (r: seq<T>)
    ensures r == target + items
  {
    r := target;
    var i := 0;
    while i < |items|
      invariant 0 <= i <= |items|
      invariant r == target + items[..i]
    {
      assert items[..i + 1] == items[..i] + [items[i]];
      r := r + [items[i]];
      i := i + 1;
    }
    assert items[..i] == items;
  }

  /** The scalar settings of the vanilla configuration: universe id and
    * username override when present, tick rate and transfer limit when
    * positive. */
  method CopySettings(c: HeadlessConfig) returns (converted: StartupConfig)
    ensures converted == EmptyConfig.(
      universeId := c.universeId,
      tickRate := if c.tickRate > 0 then Some(c.tickRate) else None,
      maxConcurrentAssetTransfers := if c.maxConcurrentAssetTransfers > 0 then Some(c.maxConcurrentAssetTransfers) else None,
      usernameOverride := c.usernameOverride)
  {
    converted := EmptyConfig;
    if c.universeId.Some? {
      converted := converted.(universeId := c.universeId);
    }
    if c.tickRate > 0 {
      converted := converted.(tickRate := Some(c.tickRate));
    }
    if c.maxConcurrentAssetTransfers > 0 {
      converted := converted.(maxConcurrentAssetTransfers := Some(c.maxConcurrentAssetTransfers));
    }
    if c.usernameOverride.Some? {
      converted := converted.(usernameOverride := c.usernameOverride);
    }
  }

  /** Converts the vanilla configuration (`None` when `Config.json` is
    * missing or reads as null): the scalar settings as `CopySettings`
    * says, the enabled start worlds through `ToProto`, the allowed hosts
    * through `ParseHostEntry`, and the auto-spawn items as given. A start
    * world that `ToProto` rejects ends the conversion with its error. */
  method LoadFromVanillaConfig(config: Option<HeadlessConfig>, tryCreate: string -> Option<AbsoluteUri>)
    returns (r: Result<Option<StartupConfig>, RpcConversion.ConversionError>)
    ensures config.None? ==> r == Ok(None)
    ensures config.Some? ==>
      var c := config.value;
      var worlds := ConvertAll(EnabledWorlds(c.startWorlds.GetOr([])), RpcConversion.ParametersToProto);
      && (r.Err? <==> worlds.Err?)
      && (r.Err? ==> r.error == worlds.error)
      && (r.Ok? ==> r.value == Some(StartupConfig(
            c.universeId,
            if c.tickRate > 0 then Some(c.tickRate) else None,
            if c.maxConcurrentAssetTransfers > 0 then Some(c.maxConcurrentAssetTransfers) else None,
            c.usernameOverride,
            worlds.value,
            AllowedHosts(c.allowedUrlHosts.GetOr([]), tryCreate),
            c.autoSpawnItems.GetOr([]))))
  {
    if config.None? {
      return Ok(None);
    }
    var c := config.value;
    var converted := CopySettings(c);
    assert EnabledWorlds([]) == [] && ConvertAll([], RpcConversion.ParametersToProto) == Ok([]);
    if c.startWorlds.Some? {
      var worlds := ConvertEach(EnabledWorlds(c.startWorlds.value), RpcConversion.ParametersToProto);
      if worlds.Err? {
        return Err(worlds.error);
      }
      converted := converted.(startWorlds := worlds.value);
    }
    if c.allowedUrlHosts.Some? {
      var hosts := AddAll(converted.allowedUrlHosts, AllowedHosts(c.allowedUrlHosts.value, tryCreate));
      assert hosts == AllowedHosts(c.allowedUrlHosts.value, tryCreate);
      converted := converted.(allowedUrlHosts := hosts);
    }
    if c.autoSpawnItems.Some? {
      var items := AddAll(converted.autoSpawnItems, c.autoSpawnItems.value);
      assert items == c.autoSpawnItems.value;
      converted := converted.(autoSpawnItems := items);
    }
    return Ok(Some(converted));
  }

  /** `HeadlessStartupConfig`: the configuration in force. */
  class Config {
    var value: StartupConfig

    /** `Value = LoadFromVanillaConfig() ?? new Rpc.StartupConfig()`, given
      * the conversion's result. */
    constructor (loaded: Option<StartupConfig>)
      ensures value == loaded.GetOr(EmptyConfig)
    {
      value := loaded.GetOr(EmptyConfig);
    }

    /** `Parse(json)`, given what the JSON parser returns for the text (an
      * error for malformed JSON or an unknown field). A parsed document
      * replaces `Value`; a null one and an error leave it. */
    method Parse(parsed: Result<Option<StartupConfig>, string>) returns (r: Result<(), string>)
      modifies this`value
      ensures r.Err? <==> parsed.Err?
      ensures r.Err? ==> r.error == parsed.error
      ensures value == if parsed.Ok? && parsed.value.Some? then parsed.value.value else old(value)
    {
      if parsed.Err? {
        return Err(parsed.error);
      }
      if parsed.value.Some? {
        value := parsed.value.value;
      }
      return Ok(());
    }
  }

  /** Builds the configuration from the vanilla file, as the constructor
    * does; an exception of the conversion is its error. */
  method Load(config: Option<HeadlessConfig>, tryCreate: string -> Option<AbsoluteUri>)
    returns (r: Result<Config, RpcConversion.ConversionError>)
    ensures r.Ok? ==> fresh(r.value)
    ensures config.None? ==> r.Ok? && r.value.value == EmptyConfig
    ensures config.Some? ==>
      var c := config.value;
      var worlds := ConvertAll(EnabledWorlds(c.startWorlds.GetOr([])), RpcConversion.ParametersToProto);
      && (r.Err? <==> worlds.Err?)
      && (r.Err? ==> r.error == worlds.error)
      && (r.Ok? ==> r.value.value == StartupConfig(
            c.universeId,
            if c.tickRate > 0 then Some(c.tickRate) else None,
            if c.maxConcurrentAssetTransfers > 0 then Some(c.maxConcurrentAssetTransfers) else None,
            c.usernameOverride,
            worlds.value,
            AllowedHosts(c.allowedUrlHosts.GetOr([]), tryCreate),
            c.autoSpawnItems.GetOr([])))
  {
    var loaded := LoadFromVanillaConfig(config, tryCreate);
    if loaded.Err? {
      return Err(loaded.error);
    }
    var c := new Config(loaded.value);
    return Ok(c);
  }
}
