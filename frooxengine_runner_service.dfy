/** `Headless/Services/FrooxEngineRunnerService.cs`: the hosting service
  * that runs the engine from the gRPC-shaped startup configuration. It sets
  * the tick rate, applies the non-empty settings, allows each entry's host
  * on each of its ports for the access types it lists, starts every world
  * (a failing start is logged and the next one is tried), runs the engine
  * loop and shuts the engine down once. */
module FrooxEngineRunnerService {
  import opened Wrappers
  import opened HostLoop
  import Engine
  import RpcConversion
  import HeadlessStartupConfig
  import Standalone = StandaloneFrooxEngineService

  /** `_tickRate`'s initial value. */
  const DefaultTickRate := 60

  /** The `HostAccessSettings` calls. */
  datatype HostAccess =
    | AllowHttpRequests(host: string, port: int)
    | AllowWebsocket(host: string, port: int)
    | AllowOscSending(host: string, port: int)
    | AllowOscReceiving(port: int)

  /** The calls for one port of an entry: one per access type it lists, in
    * the order HTTP, WebSocket, OSC sending, and OSC receiving only for
    * `localhost`. */
  function PortAccess(e: HeadlessStartupConfig.AllowedAccessEntry, port: int): (r: seq<HostAccess>)
    ensures forall i :: 0 <= i < |r| ==> r[i].port == port && (r[i].AllowOscReceiving? || r[i].host == e.host)
  {
    (if HeadlessStartupConfig.Http in e.accessTypes then [AllowHttpRequests(e.host, port)] else [])
    + (if HeadlessStartupConfig.Websocket in e.accessTypes then [AllowWebsocket(e.host, port)] else [])
    + (if HeadlessStartupConfig.OscSending in e.accessTypes then [AllowOscSending(e.host, port)] else [])
    + (if e.host == "localhost" && HeadlessStartupConfig.OscReceiving in e.accessTypes then [AllowOscReceiving(port)] else [])
  }

  /** A call is made for a port exactly when the entry lists its access
    * type, and OSC receiving only for `localhost`; nothing else is
    * allowed. */
  lemma PortAccessMembers(e: HeadlessStartupConfig.AllowedAccessEntry, port: int)
    ensures var r := PortAccess(e, port);
      && (AllowHttpRequests(e.host, port) in r <==> HeadlessStartupConfig.Http in e.accessTypes)
      && (AllowWebsocket(e.host, port) in r <==> HeadlessStartupConfig.Websocket in e.accessTypes)
      && (AllowOscSending(e.host, port) in r <==> HeadlessStartupConfig.OscSending in e.accessTypes)
      && (AllowOscReceiving(port) in r <==> e.host == "localhost" && HeadlessStartupConfig.OscReceiving in e.accessTypes)
      && forall a :: a in r ==> a in {AllowHttpRequests(e.host, port), AllowWebsocket(e.host, port), AllowOscSending(e.host, port), AllowOscReceiving(port)}
  {
  }

  /** The calls for the given ports of an entry, in order. */
  function EntryAccess(e: HeadlessStartupConfig.AllowedAccessEntry, ports: seq<int>): seq<HostAccess> {
    if ports == [] then [] else PortAccess(e, ports[0]) + EntryAccess(e, ports[1..])
  }

  lemma {:induction false} EntryAccessAppend(e: HeadlessStartupConfig.AllowedAccessEntry, a: seq<int>, b: seq<int>)
    ensures EntryAccess(e, a + b) == EntryAccess(e, a) + EntryAccess(e, b)
  {
    if a == [] {
      assert a + b == b;
    } else {
      assert (a + b)[0] == a[0];
      assert (a + b)[1..] == a[1..] + b;
      EntryAccessAppend(e, a[1..], b);
    }
  }

  /** The call is on one of the ports and names the entry's host unless
    * it is OSC receiving. */
  predicate CallFor(a: HostAccess, e: HeadlessStartupConfig.AllowedAccessEntry, ports: seq<int>) {
    a.port in ports && (a.AllowOscReceiving? || a.host == e.host)
  }

  /** Every call for an entry's ports is on one of those ports, and names
    * the entry's host unless it is OSC receiving. */
  lemma {:induction false} EntryAccessCalls(e: HeadlessStartupConfig.AllowedAccessEntry, ports: seq<int>)
    ensures forall i :: 0 <= i < |EntryAccess(e, ports)| ==> CallFor(EntryAccess(e, ports)[i], e, ports)
  {
    if ports != [] {
      EntryAccessCalls(e, ports[1..]);
      var head := PortAccess(e, ports[0]);
      var tail := EntryAccess(e, ports[1..]);
      var r := EntryAccess(e, ports);
      assert r == head + tail;
      forall i | 0 <= i < |r|
        ensures CallFor(r[i], e, ports)
      {
        if i >= |head| {
          assert r[i] == tail[i - |head|];
          assert CallFor(tail[i - |head|], e, ports[1..]);
        }
      }
    }
  }

  /** The calls for all entries, in order. */
  function AccessGrants(entries: seq<HeadlessStartupConfig.AllowedAccessEntry>): seq<HostAccess> {
    if entries == [] then [] else EntryAccess(entries[0], entries[0].ports) + AccessGrants(entries[1..])
  }

  /** Every call for the entries belongs to one of them: it is on one of
    * its ports and names its host unless it is OSC receiving. */
  lemma {:induction false} AccessGrantsCalls(entries: seq<HeadlessStartupConfig.AllowedAccessEntry>)
    ensures forall i :: 0 <= i < |AccessGrants(entries)| ==>
      exists k :: 0 <= k < |entries| && CallFor(AccessGrants(entries)[i], entries[k], entries[k].ports)
  {
    if entries != [] {
      AccessGrantsCalls(entries[1..]);
      EntryAccessCalls(entries[0], entries[0].ports);
      var head := EntryAccess(entries[0], entries[0].ports);
      var rest := AccessGrants(entries[1..]);
      var r := AccessGrants(entries);
      assert r == head + rest;
      forall i | 0 <= i < |AccessGrants(entries)|
        ensures exists k :: 0 <= k < |entries| && CallFor(AccessGrants(entries)[i], entries[k], entries[k].ports)
      {
        if i < |head| {
          assert r[i] == head[i] && CallFor(head[i], entries[0], entries[0].ports);
        } else {
          assert r[i] == rest[i - |head|];
          var k :| 0 <= k < |entries[1..]| && CallFor(rest[i - |head|], entries[1..][k], entries[1..][k].ports);
          assert entries[1..][k] == entries[k + 1];
          assert CallFor(r[i], entries[k + 1], entries[k + 1].ports);
        }
      }
    } else {
      assert AccessGrants(entries) == [];
    }
  }

  lemma {:induction false} AccessGrantsAppend(a: seq<HeadlessStartupConfig.AllowedAccessEntry>, b: seq<HeadlessStartupConfig.AllowedAccessEntry>)
    ensures AccessGrants(a + b) == AccessGrants(a) + AccessGrants(b)
  {
    if a == [] {
      assert a + b == b;
    } else {
      assert (a + b)[0] == a[0];
      assert (a + b)[1..] == a[1..] + b;
      AccessGrantsAppend(a[1..], b);
    }
  }

  /** The body of the inner foreach of `AllowHosts`, for one port. */
  method AllowPort(calls: seq<HostAccess>, e: HeadlessStartupConfig.AllowedAccessEntry, port: int) returns (r: seq<HostAccess>)
    ensures r == calls + PortAccess(e, port)
  {
    r := calls;
    if HeadlessStartupConfig.Http in e.accessTypes {
      r := r + [AllowHttpRequests(e.host, port)];
    }
    if HeadlessStartupConfig.Websocket in e.accessTypes {
      r := r + [AllowWebsocket(e.host, port)];
    }
    if HeadlessStartupConfig.OscSending in e.accessTypes {
      r := r + [AllowOscSending(e.host, port)];
    }
    if e.host == "localhost" && HeadlessStartupConfig.OscReceiving in e.accessTypes {
      r := r + [AllowOscReceiving(port)];
    }
  }

  /** The inner foreach of `AllowHosts`, over one entry's ports. */
  method AllowEntry(calls: seq<HostAccess>, e: HeadlessStartupConfig.AllowedAccessEntry) returns (r: seq<HostAccess>)
    ensures r == calls + EntryAccess(e, e.ports)
  {
    r := calls;
    var j := 0;
    while j < |e.ports|
      invariant 0 <= j <= |e.ports|
      invariant r == calls + EntryAccess(e, e.ports[..j])
    {
      var port := e.ports[j];
      assert e.ports[..j + 1] == e.ports[..j] + [port];
      EntryAccessAppend(e, e.ports[..j], [port]);
      assert [port][1..] == [];
      r := AllowPort(r, e, port);
      j := j + 1;
    }
    assert e.ports[..j] == e.ports;
  }

  /** `AllowHosts`: for each entry and each of its ports, the calls its
    * access types ask for. */
  method AllowHosts(hosts: seq<HeadlessStartupConfig.AllowedAccessEntry>) returns (calls: seq<HostAccess>)
    ensures calls == AccessGrants(hosts)
  {
    calls := [];
    var i := 0;
    while i < |hosts|
      invariant 0 <= i <= |hosts|
      invariant calls == AccessGrants(hosts[..i])
    {
      assert hosts[..i + 1] == hosts[..i] + [hosts[i]];
      AccessGrantsAppend(hosts[..i], [hosts[i]]);
      assert [hosts[i]][1..] == [];
      calls := AllowEntry(calls, hosts[i]);
      i := i + 1;
    }
    assert hosts[..i] == hosts;
  }

  /** What the standalone service's call for the same access does. Its
    * HTTP allowance names no port. */
  function AsStandalone(a: HostAccess): Standalone.Grant {
    match a
    case AllowHttpRequests(host, _) => Standalone.TemporarilyAllowHttp(host)
    case AllowWebsocket(host, port) => Standalone.TemporarilyAllowWebsocket(host, port)
    case AllowOscSending(host, port) => Standalone.TemporarilyAllowOscSender(host, port)
    case AllowOscReceiving(port) => Standalone.TemporarilyAllowOscReceiver(port)
  }

  function AllAsStandalone(s: seq<HostAccess>): (r: seq<Standalone.Grant>)
    ensures |r| == |s|
    ensures forall k :: 0 <= k < |s| ==> r[k] == AsStandalone(s[k])
  {
    seq(|s|, k requires 0 <= k < |s| => AsStandalone(s[k]))
  }

  /** An entry as the vanilla configuration produces it lists the access
    * types `AccessTypesFor` gives its host. */
  predicate VanillaEntry(e: HeadlessStartupConfig.AllowedAccessEntry) {
    e.accessTypes == HeadlessStartupConfig.AccessTypesFor(e.host)
  }

  lemma PortAccessMatches(e: HeadlessStartupConfig.AllowedAccessEntry, port: int)
    requires VanillaEntry(e)
    ensures AllAsStandalone(PortAccess(e, port)) == Standalone.GrantsFor(e.host, port)
  {
    var types := e.accessTypes;
    assert types[0] == HeadlessStartupConfig.Http && types[1] == HeadlessStartupConfig.Websocket && types[2] == HeadlessStartupConfig.OscSending;
  }

  lemma {:induction false} AllAsStandaloneAppend(a: seq<HostAccess>, b: seq<HostAccess>)
    ensures AllAsStandalone(a + b) == AllAsStandalone(a) + AllAsStandalone(b)
  {
  }

  lemma {:induction false} EntryAccessMatches(e: HeadlessStartupConfig.AllowedAccessEntry, ports: seq<int>)
    requires VanillaEntry(e)
    ensures AllAsStandalone(EntryAccess(e, ports)) == Standalone.PortGrants(e.host, ports)
  {
    if ports != [] {
      EntryAccessMatches(e, ports[1..]);
      PortAccessMatches(e, ports[0]);
      AllAsStandaloneAppend(PortAccess(e, ports[0]), EntryAccess(e, ports[1..]));
    }
  }

  /** For entries the vanilla configuration produces, this service makes the
    * standalone service's calls, one for one and in the same order, except
    * that its HTTP allowance is per port. */
  lemma {:induction false} AccessGrantsMatchStandalone(entries: seq<HeadlessStartupConfig.AllowedAccessEntry>)
    requires forall k :: 0 <= k < |entries| ==> VanillaEntry(entries[k])
    ensures AllAsStandalone(AccessGrants(entries)) == Standalone.ConfigGrants(entries)
  {
    if entries != [] {
      AccessGrantsMatchStandalone(entries[1..]);
      EntryAccessMatches(entries[0], entries[0].ports);
      AllAsStandaloneAppend(EntryAccess(entries[0], entries[0].ports), AccessGrants(entries[1..]));
    }
  }

  /** Every entry the vanilla configuration's host list yields is one. */
  lemma AllowedHostsAreVanilla(hosts: seq<string>, tryCreate: string -> Option<HeadlessStartupConfig.AbsoluteUri>)
    ensures var entries := HeadlessStartupConfig.AllowedHosts(hosts, tryCreate);
      forall k :: 0 <= k < |entries| ==> VanillaEntry(entries[k])
  {
    var entries := HeadlessStartupConfig.AllowedHosts(hosts, tryCreate);
    forall k | 0 <= k < |entries|
      ensures VanillaEntry(entries[k])
    {
      HeadlessStartupConfig.AllowedHostsWellFormed(hosts, tryCreate, entries[k]);
    }
  }

  /** A vanilla host list converted to the startup configuration and handed
    * to this service is allowed as the standalone service allows it, call
    * for call. */
  lemma VanillaHostsMatch(hosts: seq<string>, tryCreate: string -> Option<HeadlessStartupConfig.AbsoluteUri>)
    ensures AllAsStandalone(AccessGrants(HeadlessStartupConfig.AllowedHosts(hosts, tryCreate))) == Standalone.HostGrants(hosts, tryCreate)
  {
    AllowedHostsAreVanilla(hosts, tryCreate);
    AccessGrantsMatchStandalone(HeadlessStartupConfig.AllowedHosts(hosts, tryCreate));
    Standalone.HostGrantsMatchConfig(hosts, tryCreate);
  }

  /** `EngineLoopAsync`: as the standalone loop, but each pass runs the
    * engine update before it waits for the tick. */
  method EngineLoop(passes: seq<Pass>) returns (steps: seq<Step>, exited: bool)
    ensures steps == LoopSteps(UpdateThenTick, passes)
    ensures exited <==> PassesRun(passes) < |passes|
  {
    steps := [];
    var isShuttingDown := false;
    var i := 0;
    while i < |passes| && !MayExit(passes[i].atCondition)
      invariant 0 <= i <= PassesRun(passes)
      invariant steps == Trace(UpdateThenTick, passes, i)
      invariant isShuttingDown <==> FirstShutdown(passes, i).Some?
    {
      var pass := passes[i];
      steps := steps + [RunUpdate(pass.updateThrows)];
      steps := steps + [WaitForTick];
      var test := pass.atShutdownTest;
      if !(!test.cancelled || isShuttingDown || !test.startupComplete) {
        isShuttingDown := true;
        steps := steps + [BeginShutdown];
      }
      i := i + 1;
    }
    exited := i < |passes|;
    if exited && isShuttingDown {
      steps := steps + [AwaitShutdown];
    }
  }

  /** `ShutdownEngineAsync`: stop every world, wait for the pending
    * uploads when logged in, then request the engine's shutdown and
    * finalize the cloud session. */
  method ShutdownEngine(loggedIn: bool) returns (calls: seq<ShutdownCall>)
    ensures |calls| > 1 && calls[0] == StopAllWorlds && calls[|calls| - 1] == FinalizeSession
    ensures Before(calls, StopAllWorlds, RequestShutdown) && Before(calls, RequestShutdown, FinalizeSession)
    ensures WaitForPendingUploads in calls <==> loggedIn
    ensures loggedIn ==> Before(calls, WaitForPendingUploads, RequestShutdown)
    ensures ExitApp !in calls
    ensures forall c :: multiset(calls)[c] <= 1
  {
    calls := [StopAllWorlds];
    if loggedIn {
      calls := calls + [WaitForPendingUploads];
    }
    calls := calls + [RequestShutdown];
    calls := calls + [FinalizeSession];
    var n := |calls|;
    assert calls[n - 2] == RequestShutdown && calls[n - 1] == FinalizeSession;
    if loggedIn {
      assert calls[1] == WaitForPendingUploads;
    }
  }

  /** The tick rate a configuration asks for: its own when present and
    * positive, else the initial 60. */
  function ConfiguredTickRate(config: HeadlessStartupConfig.StartupConfig): (r: int)
    ensures r > 0
    ensures config.tickRate.Some? && config.tickRate.value > 0 ==> r == config.tickRate.value
    ensures config.tickRate.None? || config.tickRate.value <= 0 ==> r == DefaultTickRate
  {
    if config.tickRate.Some? && config.tickRate.value > 0 then config.tickRate.value else DefaultTickRate
  }

  /** The service's state: what it writes to the engine and what it has
    * started. */
  class Runner {
    var tickRate: int
    var usernameOverride: Option<string>
    var universeId: Option<string>
    var maxConcurrentTransfers: Option<int>
    var hostCalls: seq<HostAccess>
    /** The parameters each start-world call was given, in order. */
    var started: seq<Engine.StartupParameters>
    /** The positions in `started` whose start failed and was logged. */
    var failedStarts: seq<nat>
    var applicationStartupComplete: bool

    /** The constructor: the tick rate starts at 60 and takes the
      * configuration's when that is present and positive. */
    constructor (config: HeadlessStartupConfig.StartupConfig)
      ensures tickRate == ConfiguredTickRate(config)
      ensures usernameOverride.None? && universeId.None? && maxConcurrentTransfers.None?
      ensures hostCalls == [] && started == [] && failedStarts == [] && !applicationStartupComplete
    {
      tickRate := DefaultTickRate;
      usernameOverride := None;
      universeId := None;
      maxConcurrentTransfers := None;
      hostCalls := [];
      started := [];
      failedStarts := [];
      applicationStartupComplete := false;
      if config.tickRate.Some? && config.tickRate.value > 0 {
        tickRate := config.tickRate.value;
      }
    }

    /** The `TickRate` setter: any value is stored. */
    method SetTickRate(value: int)
      modifies this`tickRate
      ensures tickRate == value
    {
      tickRate := value;
    }

    /** The settings part of `ExecuteAsync`: the username override and the
      * universe id only when present and non-empty, the hosts, and the
      * transfer limit only when present and positive. */
    method Configure(config: HeadlessStartupConfig.StartupConfig)
      modifies this`usernameOverride, this`universeId, this`maxConcurrentTransfers, this`hostCalls
      ensures usernameOverride == if config.usernameOverride.Some? && |config.usernameOverride.value| > 0 then config.usernameOverride else old(usernameOverride)
      ensures universeId == if config.universeId.Some? && |config.universeId.value| > 0 then config.universeId else old(universeId)
      ensures maxConcurrentTransfers == if config.maxConcurrentAssetTransfers.Some? && config.maxConcurrentAssetTransfers.value > 0 then config.maxConcurrentAssetTransfers else old(maxConcurrentTransfers)
      ensures hostCalls == AccessGrants(config.allowedUrlHosts)
    {
      if config.usernameOverride.Some? && |config.usernameOverride.value| > 0 {
        usernameOverride := config.usernameOverride;
      }
      if config.universeId.Some? && |config.universeId.value| > 0 {
        universeId := config.universeId;
      }
      hostCalls := AllowHosts(config.allowedUrlHosts);
      if config.maxConcurrentAssetTransfers.Some? && config.maxConcurrentAssetTransfers.value > 0 {
        maxConcurrentTransfers := config.maxConcurrentAssetTransfers;
      }
    }

    /** One start-world call, numbered `i`; a failure is logged. */
    method Start(world: Engine.StartupParameters, i: nat, failed: bool)
      modifies this`started, this`failedStarts
      ensures started == old(started) + [world]
      ensures failedStarts == old(failedStarts) + if failed then [i] else []
    {
      started := started + [world];
      if failed {
        failedStarts := failedStarts + [i];
      }
    }

    /** The start-world foreach of `ExecuteAsync` over the lazily converted
      * worlds: each world is converted just before its start; a conversion
      * error leaves `ExecuteAsync` there, before startup completes; a start
      * that fails (`fails(k)`) is logged and the next world is tried. */
    method StartWorlds(worlds: seq<RpcConversion.ProtoParameters>, defaultMaxUsers: int, fails: nat -> bool)
      returns (r: Result<(), RpcConversion.ConversionError>)
      modifies this`started, this`failedStarts, this`applicationStartupComplete
      ensures r.Ok? <==> forall k :: 0 <= k < |worlds| ==> RpcConversion.ParametersToResonite(worlds[k], defaultMaxUsers).Ok?
      ensures r.Ok? ==> |started| == |worlds|
      ensures r.Err? ==> exists f :: (
        && 0 <= f < |worlds|
        && RpcConversion.ParametersToResonite(worlds[f], defaultMaxUsers) == Err(r.error)
        && (forall k :: 0 <= k < f ==> RpcConversion.ParametersToResonite(worlds[k], defaultMaxUsers).Ok?)
        && |started| == f)
      ensures |started| <= |worlds|
      ensures forall k :: 0 <= k < |started| ==> Ok(started[k]) == RpcConversion.ParametersToResonite(worlds[k], defaultMaxUsers)
      ensures forall k :: k in failedStarts <==> 0 <= k < |started| && fails(k)
      ensures applicationStartupComplete == (r.Ok? || old(applicationStartupComplete))
    {
      started := [];
      failedStarts := [];
      var i := 0;
      while i < |worlds|
        invariant 0 <= i <= |worlds| && |started| == i
        invariant forall k :: 0 <= k < i ==> Ok(started[k]) == RpcConversion.ParametersToResonite(worlds[k], defaultMaxUsers)
        invariant forall k :: k in failedStarts <==> 0 <= k < i && fails(k)
        invariant applicationStartupComplete == old(applicationStartupComplete)
      {
        var converted := RpcConversion.ParametersToResonite(worlds[i], defaultMaxUsers);
        if converted.Err? {
          return Err(converted.error);
        }
        var world := converted.value;
        if world.isEnabled {
          ghost var before := started;
          Start(world, i, fails(i));
          assert forall k :: 0 <= k < i ==> started[k] == before[k];
        } else {
          // a converted world is always enabled
          assert false;
        }
        i := i + 1;
      }
      applicationStartupComplete := true;
      return Ok(());
    }
  }
}
