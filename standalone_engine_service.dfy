/** `Headless/Services/StandaloneFrooxEngineService.cs`: the hosting
  * service that runs the engine from a vanilla headless configuration. It
  * applies the configuration, allows the listed hosts, starts the enabled
  * worlds, runs the engine loop and shuts the engine down once. */
module StandaloneFrooxEngineService {
  import opened Wrappers
  import opened Text
  import opened HostLoop
  import Engine
  import HeadlessStartupConfig

  /** The engine's `Security.TemporarilyAllow*` calls. */
  datatype Grant =
    | TemporarilyAllowHttp(host: string)
    | TemporarilyAllowWebsocket(host: string, port: int)
    | TemporarilyAllowOscSender(host: string, port: int)
    | TemporarilyAllowOscReceiver(port: int)

  /** The grants for one parsed entry: HTTP, WebSocket and OSC sending for
    * the host, and OSC receiving on the port for `localhost` alone. */
  function GrantsFor(host: string, port: int): (r: seq<Grant>)
    ensures TemporarilyAllowHttp(host) in r
    ensures TemporarilyAllowWebsocket(host, port) in r && TemporarilyAllowOscSender(host, port) in r
    ensures TemporarilyAllowOscReceiver(port) in r <==> host == "localhost"
  {
    [TemporarilyAllowHttp(host), TemporarilyAllowWebsocket(host, port), TemporarilyAllowOscSender(host, port)]
    + (if host == "localhost" then [TemporarilyAllowOscReceiver(port)] else [])
  }

  /** The grants for an entry read as the configuration's parser reads it;
    * none for an empty host. */
  function EntryGrants(n: HeadlessStartupConfig.Named): (r: seq<Grant>)
    ensures r == [] <==> n.Host() == ""
    ensures forall g :: g in r ==> g.TemporarilyAllowOscReceiver? || g.host == n.Host()
  {
    if n.Host() == "" then [] else GrantsFor(n.Host(), HeadlessStartupConfig.PortOf(n))
  }

  /** How each entry names its host, in order. */
  function Names(hosts: seq<string>, tryCreate: string -> Option<HeadlessStartupConfig.AbsoluteUri>): (r: seq<HeadlessStartupConfig.Named>)
    ensures |r| == |hosts|
  {
    if hosts == [] then [] else [HeadlessStartupConfig.NameOf(hosts[0], tryCreate)] + Names(hosts[1..], tryCreate)
  }

  lemma {:induction false} NamesAppend(a: seq<string>, b: seq<string>, tryCreate: string -> Option<HeadlessStartupConfig.AbsoluteUri>)
    ensures Names(a + b, tryCreate) == Names(a, tryCreate) + Names(b, tryCreate)
  {
    if a == [] {
      assert a + b == b;
    } else {
      assert (a + b)[0] == a[0];
      assert (a + b)[1..] == a[1..] + b;
      NamesAppend(a[1..], b, tryCreate);
    }
  }

  /** The grants for the entries read as `names`, in order. */
  function NamedGrants(names: seq<HeadlessStartupConfig.Named>): (r: seq<Grant>)
    ensures forall g :: g in r ==> g.TemporarilyAllowOscReceiver? || g.host != ""
  {
    if names == [] then [] else EntryGrants(names[0]) + NamedGrants(names[1..])
  }

  lemma {:induction false} NamedGrantsAppend(a: seq<HeadlessStartupConfig.Named>, b: seq<HeadlessStartupConfig.Named>)
    ensures NamedGrants(a + b) == NamedGrants(a) + NamedGrants(b)
  {
    if a == [] {
      assert a + b == b;
    } else {
      assert (a + b)[0] == a[0];
      assert (a + b)[1..] == a[1..] + b;
      NamedGrantsAppend(a[1..], b);
    }
  }

  /** The grants for the entries, in order. */
  function HostGrants(hosts: seq<string>, tryCreate: string -> Option<HeadlessStartupConfig.AbsoluteUri>): (r: seq<Grant>)
    ensures forall g :: g in r ==> g.TemporarilyAllowOscReceiver? || g.host != ""
  {
    NamedGrants(Names(hosts, tryCreate))
  }

  /** The grants for `host` on each of `ports`, in order. */
  function PortGrants(host: string, ports: seq<int>): seq<Grant> {
    if ports == [] then [] else GrantsFor(host, ports[0]) + PortGrants(host, ports[1..])
  }

  /** The grants the allowed-host entries of the startup configuration call
    * for: those of each entry's host on each of its ports. */
  function ConfigGrants(entries: seq<HeadlessStartupConfig.AllowedAccessEntry>): seq<Grant> {
    if entries == [] then [] else PortGrants(entries[0].host, entries[0].ports) + ConfigGrants(entries[1..])
  }

  lemma {:induction false} ConfigGrantsAppend(a: seq<HeadlessStartupConfig.AllowedAccessEntry>, b: seq<HeadlessStartupConfig.AllowedAccessEntry>)
    ensures ConfigGrants(a + b) == ConfigGrants(a) + ConfigGrants(b)
  {
    if a == [] {
      assert a + b == b;
    } else {
      assert (a + b)[0] == a[0];
      assert (a + b)[1..] == a[1..] + b;
      ConfigGrantsAppend(a[1..], b);
    }
  }

  /** The service reads its host list exactly as the startup configuration
    * does: its grants are those of the configuration's allowed hosts. */
  lemma {:induction false} HostGrantsMatchConfig(hosts: seq<string>, tryCreate: string -> Option<HeadlessStartupConfig.AbsoluteUri>)
    ensures HostGrants(hosts, tryCreate) == ConfigGrants(HeadlessStartupConfig.AllowedHosts(hosts, tryCreate))
  {
    if hosts != [] {
      HostGrantsMatchConfig(hosts[1..], tryCreate);
      var names := Names(hosts, tryCreate);
      assert HostGrants(hosts, tryCreate) == EntryGrants(names[0]) + HostGrants(hosts[1..], tryCreate);
      var parsed := HeadlessStartupConfig.ParsedEntries(hosts, tryCreate);
      assert parsed[1..] == HeadlessStartupConfig.ParsedEntries(hosts[1..], tryCreate);
      var head := parsed[0];
      assert head == HeadlessStartupConfig.EntryFor(names[0]);
      var kept := if head.Some? then [head.value] else [];
      var rest := HeadlessStartupConfig.AllowedHosts(hosts[1..], tryCreate);
      assert HeadlessStartupConfig.AllowedHosts(hosts, tryCreate) == kept + rest;
      ConfigGrantsAppend(kept, rest);
      EntryGrantsMatch(names[0]);
    }
  }

  /** One entry: the service's grants are those of the configuration's
    * entry for it, if it has one. */
  lemma EntryGrantsMatch(n: HeadlessStartupConfig.Named)
    ensures var e := HeadlessStartupConfig.EntryFor(n);
      EntryGrants(n) == ConfigGrants(if e.Some? then [e.value] else [])
  {
    var e := HeadlessStartupConfig.EntryFor(n);
    if e.Some? {
      var x := e.value;
      assert [x][1..] == [];
      assert x.ports[1..] == [];
      assert PortGrants(x.host, x.ports) == GrantsFor(x.host, x.ports[0]) + [];
    }
  }

  /** The body of the `AllowHosts` foreach for one entry, reassigning
    * `_host` and `_port`: it reads the entry exactly as the startup
    * configuration's parser does. */
  method ReadHostEntry(entry: string, tryCreate: string -> Option<HeadlessStartupConfig.AbsoluteUri>)
    returns (host: string, port: int)
    ensures var n := HeadlessStartupConfig.NameOf(entry, tryCreate);
      host == n.Host() && port == HeadlessStartupConfig.PortOf(n)
  {
    host := ToLower(Trim(entry));
    port := HeadlessStartupConfig.DefaultPort;
    var url := tryCreate(host);
    if url.Some? && url.value.host != "" {
      host := url.value.host;
      port := url.value.port;
    } else {
      var segments := Split(host, ':');
      if |segments| == 1 {
        host := segments[0];
      } else if |segments| == 2 {
        host := segments[0];
        var parsed := TryParseInt32(segments[1]);
        if |segments| > 1 && parsed.Some? {
          port := parsed.value;
        }
      }
    }
  }

  /** One pass of the `AllowHosts` foreach: an entry with an empty host is
    * skipped, any other adds its grants. */
  method AllowEntry(grants: seq<Grant>, entry: string, tryCreate: string -> Option<HeadlessStartupConfig.AbsoluteUri>)
    returns (r: seq<Grant>)
    ensures r == grants + EntryGrants(HeadlessStartupConfig.NameOf(entry, tryCreate))
  {
    var host, port := ReadHostEntry(entry, tryCreate);
    if host != "" {
      r := grants + GrantsFor(host, port);
    } else {
      r := grants;
    }
  }

  /** `AllowHosts`: every entry with a non-empty host is allowed for HTTP,
    * WebSocket and OSC sending, and `localhost` also for OSC receiving;
    * entries with an empty host are skipped. */
  method AllowHosts(hosts: seq<string>, tryCreate: string -> Option<HeadlessStartupConfig.AbsoluteUri>)
    returns (grants: seq<Grant>)
    ensures grants == HostGrants(hosts, tryCreate)
  {
    grants := [];
    var i := 0;
    while i < |hosts|
      invariant 0 <= i <= |hosts|
      invariant grants == HostGrants(hosts[..i], tryCreate)
    {
      HostGrantsStep(hosts, i, tryCreate);
      grants := AllowEntry(grants, hosts[i], tryCreate);
      i := i + 1;
    }
    assert hosts[..i] == hosts;
  }

  /** One more entry read: its grants follow those of the entries before it. */
  lemma HostGrantsStep(hosts: seq<string>, i: nat, tryCreate: string -> Option<HeadlessStartupConfig.AbsoluteUri>)
    requires i < |hosts|
    ensures HostGrants(hosts[..i + 1], tryCreate) ==
      HostGrants(hosts[..i], tryCreate) + EntryGrants(HeadlessStartupConfig.NameOf(hosts[i], tryCreate))
  {
    var n := HeadlessStartupConfig.NameOf(hosts[i], tryCreate);
    assert hosts[..i + 1] == hosts[..i] + [hosts[i]];
    NamesAppend(hosts[..i], [hosts[i]], tryCreate);
    assert Names([hosts[i]], tryCreate) == [n] by {
      assert [hosts[i]][1..] == [];
    }
    NamedGrantsAppend(Names(hosts[..i], tryCreate), [n]);
    assert NamedGrants([n]) == EntryGrants(n) + NamedGrants([]) by {
      assert [n][1..] == [];
    }
  }

  /** `EngineLoopAsync`: each pass waits for the tick, then runs the
    * engine update (an exception is logged), then begins the shutdown if
    * the service is cancelled after startup and no shutdown has begun.
    * The loop ends at the first pass whose condition finds all three
    * flags set, and then awaits the shutdown if one began. `exited` is
    * false when the given passes run out first. `HostLoop.LoopStepsWork`,
    * `HostLoop.LoopStepsShutdownCounts`, `HostLoop.LoopStepsShutdown` and
    * `HostLoop.TraceOrder` state what the run does. */
  method EngineLoop(passes: seq<Pass>) returns (steps: seq<Step>, exited: bool)
    ensures steps == LoopSteps(TickThenUpdate, passes)
    ensures exited <==> PassesRun(passes) < |passes|
  {
    steps := [];
    var isShuttingDown := false;
    var i := 0;
    while i < |passes| && !MayExit(passes[i].atCondition)
      invariant 0 <= i <= PassesRun(passes)
      invariant steps == Trace(TickThenUpdate, passes, i)
      invariant isShuttingDown <==> FirstShutdown(passes, i).Some?
    {
      var pass := passes[i];
      steps := steps + [WaitForTick];
      steps := steps + [RunUpdate(pass.updateThrows)];
      var test := pass.atShutdownTest;
      if !(!test.cancelled || isShuttingDown || !test.startupComplete) {
        isShuttingDown := true;
        steps := steps + [BeginShutdown];
      }
      i := i + 1;
    }
    exited := i < |passes|;
    if exited && isShuttingDown {
      steps := steps + [AwaitShutdown];
    }
  }

  /** `ShutdownEngineAsync`: stop every world, then `Userspace.ExitApp`,
    * then, when logged in, wait for the pending uploads. */
  method ShutdownEngine(loggedIn: bool) returns (calls: seq<ShutdownCall>)
    ensures |calls| > 0 && calls[0] == StopAllWorlds
    ensures Before(calls, StopAllWorlds, ExitApp)
    ensures WaitForPendingUploads in calls <==> loggedIn
    ensures loggedIn ==> Before(calls, ExitApp, WaitForPendingUploads)
    ensures RequestShutdown !in calls && FinalizeSession !in calls
    ensures forall c :: multiset(calls)[c] <= 1
  {
    calls := [StopAllWorlds];
    calls := calls + [ExitApp];
    assert calls[0] == StopAllWorlds && calls[1] == ExitApp;
    if loggedIn {
      calls := calls + [WaitForPendingUploads];
      assert calls[1] == ExitApp && calls[2] == WaitForPendingUploads;
    }
  }

  /** The engine settings the service writes before it runs worlds. */
  class Service {
    var usernameOverride: Option<string>
    var universeId: Option<string>
    var maxConcurrentTransfers: int
    var grants: seq<Grant>
    /** The positions of the start worlds the service has tried to start. */
    var attempted: seq<nat>
    var applicationStartupComplete: bool

    constructor ()
      ensures usernameOverride.None? && universeId.None?
      ensures grants == [] && attempted == [] && !applicationStartupComplete
    {
      usernameOverride := None;
      universeId := None;
      maxConcurrentTransfers := 0;
      grants := [];
      attempted := [];
      applicationStartupComplete := false;
    }

    /** The settings part of `ExecuteAsync`: the username override and the
      * transfer limit are written as configured, even when absent; the
      * universe id only when present; then the hosts are allowed. */
    method Configure(config: HeadlessStartupConfig.HeadlessConfig, tryCreate: string -> Option<HeadlessStartupConfig.AbsoluteUri>)
      modifies this`usernameOverride, this`universeId, this`maxConcurrentTransfers, this`grants
      ensures usernameOverride == config.usernameOverride
      ensures universeId == if config.universeId.Some? then config.universeId else old(universeId)
      ensures maxConcurrentTransfers == config.maxConcurrentAssetTransfers
      ensures grants == HostGrants(config.allowedUrlHosts.GetOr([]), tryCreate)
    {
      usernameOverride := config.usernameOverride;
      if config.universeId.Some? {
        universeId := config.universeId;
      }
      grants := AllowHosts(config.allowedUrlHosts.GetOr([]), tryCreate);
      maxConcurrentTransfers := config.maxConcurrentAssetTransfers;
    }

    /** The start-world foreach of `ExecuteAsync`: disabled worlds are
      * skipped; `throws(k)` says whether starting the world at position
      * `k` throws, which ends `ExecuteAsync` there, before startup is
      * marked complete. */
    method StartWorlds(worlds: seq<Engine.StartupParameters>, throws: nat -> bool)
      modifies this`attempted, this`applicationStartupComplete
      ensures applicationStartupComplete == (StartsCleanly(worlds, throws) || old(applicationStartupComplete))
      ensures forall k :: k in attempted ==> k < |worlds| && worlds[k].isEnabled
      ensures StartsCleanly(worlds, throws) ==> forall k :: 0 <= k < |worlds| && worlds[k].isEnabled ==> k in attempted
      ensures !StartsCleanly(worlds, throws) ==>
        exists f :: 0 <= f < |worlds| && worlds[f].isEnabled && throws(f)
          && (forall k :: 0 <= k < |worlds| && worlds[k].isEnabled ==> (k in attempted <==> k <= f))
    {
      attempted := [];
      var i := 0;
      while i < |worlds|
        invariant 0 <= i <= |worlds|
        invariant forall k :: k in attempted <==> 0 <= k < i && worlds[k].isEnabled
        invariant forall k :: 0 <= k < i && worlds[k].isEnabled ==> !throws(k)
        invariant applicationStartupComplete == old(applicationStartupComplete)
      {
        if worlds[i].isEnabled {
          attempted := attempted + [i];
          if throws(i) {
            return;
          }
        }
        i := i + 1;
      }
      applicationStartupComplete := true;
    }
  }

  /** No enabled start world throws when started. */
  predicate StartsCleanly(worlds: seq<Engine.StartupParameters>, throws: nat -> bool) {
    forall k :: 0 <= k < |worlds| && worlds[k].isEnabled ==> !throws(k)
  }
}
