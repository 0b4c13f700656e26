/** Loading a test network: configurations for boot nodes and users, then starting the nodes in dependency order. */
module BringUp {
  import opened Options
  import opened Sets
  import opened Text
  import opened StartCommand

  const CONFIG_PREFIX := "boot-node-config-"
  const SERVICE_PREFIX := "boot-node-"

  type ConfigId = string
  type ServiceId = string

  function BootConfigId(i: nat): ConfigId {
    CONFIG_PREFIX + Itoa(i)
  }

  function BootServiceId(i: nat): ServiceId {
    SERVICE_PREFIX + Itoa(i)
  }

  predicate ReservedConfig(c: ConfigId) {
    CONFIG_PREFIX <= c
  }

  predicate ReservedService(s: ServiceId) {
    SERVICE_PREFIX <= s
  }

  lemma BootConfigIdsInjective(i: nat, j: nat)
    requires BootConfigId(i) == BootConfigId(j)
    ensures i == j
  {
    assert Itoa(i) == BootConfigId(i)[|CONFIG_PREFIX|..];
    assert Itoa(j) == BootConfigId(j)[|CONFIG_PREFIX|..];
    ItoaInjective(i, j);
  }

  lemma BootServiceIdsInjective(i: nat, j: nat)
    requires BootServiceId(i) == BootServiceId(j)
    ensures i == j
  {
    assert Itoa(i) == BootServiceId(i)[|SERVICE_PREFIX|..];
    assert Itoa(j) == BootServiceId(j)[|SERVICE_PREFIX|..];
    ItoaInjective(i, j);
  }

  lemma BootIdsReserved(i: nat)
    ensures ReservedConfig(BootConfigId(i)) && ReservedService(BootServiceId(i))
  {
  }

  // ---- The loader ----

  datatype ServiceConfig = ServiceConfig(
    varyCerts: bool, logLevel: string, image: string, quorumSize: int, sampleSize: int, timeout: int, extraArgs: map<string, string>)

  datatype Loader = Loader(
    bootImage: string, bootLogLevel: string, isStaking: bool, quorumSize: int, sampleSize: int, txFee: nat, timeout: int,
    serviceConfigs: map<ConfigId, ServiceConfig>, desired: map<ServiceId, ConfigId>)

  /** No user ID starts with a reserved prefix. */
  ghost predicate Legal(loader: Loader) {
    && (forall c :: c in loader.serviceConfigs ==> !ReservedConfig(c))
    && (forall s :: s in loader.desired ==> !ReservedService(s))
  }

  /** The defensive copies fail exactly on a reserved ID and otherwise keep everything. */
  method NewLoader(bootImage: string, bootLogLevel: string, isStaking: bool, quorumSize: int, sampleSize: int, txFee: nat,
                   timeout: int, serviceConfigs: map<ConfigId, ServiceConfig>, desired: map<ServiceId, ConfigId>)
    returns (r: Option<Loader>)
    ensures var wanted := Loader(bootImage, bootLogLevel, isStaking, quorumSize, sampleSize, txFee, timeout, serviceConfigs, desired);
            r == if Legal(wanted) then Some(wanted) else None
    ensures r.None? <==>
              (exists c :: c in serviceConfigs && "boot-node-config-" <= c) || (exists s :: s in desired && "boot-node-" <= s)
  {
    var configs := CopyUnless(serviceConfigs, ReservedConfig);
    if configs.None? {
      return None;
    }
    var services := CopyUnless(desired, ReservedService);
    if services.None? {
      return None;
    }
    return Some(Loader(bootImage, bootLogLevel, isStaking, quorumSize, sampleSize, txFee, timeout, configs.value, services.value));
  }

  /** The loaders of the harness's own tests use none of the reserved IDs. */
  lemma TestLoadersLegal(loader: Loader)
    requires loader.serviceConfigs.Keys <= {"normal-config", "same-cert-config", "byzantine-config"}
    requires loader.desired.Keys <= {"vanilla-node", "validator-service", "non-validator-service", "validator-node",
                                     "delegator-node", "normal-node", "byzantine-node", "virtuous-node"}
    ensures Legal(loader)
  {
    forall c | c in loader.serviceConfigs ensures !ReservedConfig(c) {
      assert CONFIG_PREFIX[1] == 'o' && CONFIG_PREFIX[0] == 'b';
      assert c[0] != 'b' || c[1] != 'o';
    }
    forall s | s in loader.desired ensures !ReservedService(s) {
      assert SERVICE_PREFIX[1] == 'o' && SERVICE_PREFIX[0] == 'b';
      assert s[0] != 'b' || s[1] != 'o';
    }
  }

  /** The first of the reserved IDs. */
  lemma FirstBootNames()
    ensures BootConfigId(0) == "boot-node-config-0" && BootServiceId(0) == "boot-node-0"
    ensures BootConfigId(12) == "boot-node-config-12" && BootServiceId(12) == "boot-node-12"
  {
    assert Itoa(0) == "0" && Itoa(12) == "12";
  }

  /** A copy made in any order, given up at the first reserved key. */
  method CopyUnless<V>(source: map<string, V>, reserved: string -> bool) returns (r: Option<map<string, V>>)
    ensures r == if forall k :: k in source ==> !reserved(k) then Some(source) else None
  {
    var copy: map<string, V> := map[];
    var todo := source.Keys;
    while todo != {}
      invariant todo <= source.Keys && copy.Keys == source.Keys - todo
      invariant forall k :: k in copy ==> copy[k] == source[k] && !reserved(k)
      decreases todo
    {
      var k :| k in todo;
      todo := todo - {k};
      if reserved(k) {
        return None;
      }
      copy := copy[k := source[k]];
    }
    assert copy == source;
    return Some(copy);
  }

  // ---- Configurations ----

  /** The i-th boot node bootstraps from the nodes before it. */
  function BootCore(loader: Loader, nodeIds: seq<string>, i: nat): Core
    requires i <= |nodeIds|
  {
    Core(loader.sampleSize, loader.quorumSize, loader.txFee, loader.isStaking, loader.timeout, map[], nodeIds[0..i],
         loader.bootLogLevel)
  }

  /** User nodes bootstrap from all boot nodes. */
  function UserCore(loader: Loader, nodeIds: seq<string>, c: ServiceConfig): Core {
    Core(c.sampleSize, c.quorumSize, loader.txFee, loader.isStaking, c.timeout, c.extraArgs, nodeIds, c.logLevel)
  }

  /** What each configuration ID has to stand for. */
  ghost predicate Configured(configs: map<ConfigId, Core>, loader: Loader, nodeIds: seq<string>) {
    && (forall i: nat :: i < |nodeIds| ==> BootConfigId(i) in configs && configs[BootConfigId(i)] == BootCore(loader, nodeIds, i))
    && (forall c :: c in loader.serviceConfigs ==> c in configs && configs[c] == UserCore(loader, nodeIds, loader.serviceConfigs[c]))
    && (forall c :: c in configs ==> c in loader.serviceConfigs || exists i: nat :: i < |nodeIds| && c == BootConfigId(i))
  }

  class Builder {
    var configs: map<ConfigId, Core>

    constructor ()
      ensures configs == map[]
    {
      configs := map[];
    }

    /** Refuses an ID that is taken. */
    method AddConfiguration(id: ConfigId, core: Core) returns (ok: bool)
      modifies this
      ensures ok == (id !in old(configs))
      ensures configs == if ok then old(configs)[id := core] else old(configs)
    {
      ok := id !in configs;
      if ok {
        configs := configs[id := core];
      }
    }
  }

  lemma NextBootConfigFresh(configs: map<ConfigId, Core>, i: nat)
    requires forall c :: c in configs ==> exists j: nat :: j < i && c == BootConfigId(j)
    ensures BootConfigId(i) !in configs
    ensures forall j: nat :: j < i ==> BootConfigId(j) != BootConfigId(i)
  {
    forall j: nat | j < i ensures BootConfigId(j) != BootConfigId(i) {
      if BootConfigId(j) == BootConfigId(i) {
        BootConfigIdsInjective(i, j);
      }
    }
  }

  /** No two configurations of an accepted loader collide. */
  method ConfigureNetwork(loader: Loader, nodeIds: seq<string>, builder: Builder) returns (ok: bool)
    requires Legal(loader) && builder.configs == map[]
    modifies builder
    ensures ok && Configured(builder.configs, loader, nodeIds)
  {
    hide BootConfigId, ReservedConfig, ReservedService;
    var bootNodeIds: seq<string> := [];
    for i := 0 to |nodeIds|
      invariant bootNodeIds == nodeIds[..i] && builder.configs == map[]
    {
      bootNodeIds := bootNodeIds + [nodeIds[i]];
    }
    assert bootNodeIds == nodeIds;
    for i := 0 to |nodeIds|
      invariant forall j: nat :: j < i ==>
                  BootConfigId(j) in builder.configs && builder.configs[BootConfigId(j)] == BootCore(loader, nodeIds, j)
      invariant forall c :: c in builder.configs ==> exists j: nat :: j < i && c == BootConfigId(j)
    {
      NextBootConfigFresh(builder.configs, i);
      var core := Core(loader.sampleSize, loader.quorumSize, loader.txFee, loader.isStaking, loader.timeout, map[],
                       bootNodeIds[0..i], loader.bootLogLevel);
      ok := builder.AddConfiguration(BootConfigId(i), core);
      if !ok {
        return false;
      }
    }
    ghost var boots := builder.configs;
    forall c | c in boots ensures c !in loader.serviceConfigs {
      var i: nat :| i < |nodeIds| && c == BootConfigId(i);
      BootIdsReserved(i);
    }
    var todo := loader.serviceConfigs.Keys;
    while todo != {}
      invariant todo <= loader.serviceConfigs.Keys
      invariant forall c :: c in boots ==> c in builder.configs && builder.configs[c] == boots[c]
      invariant forall c :: c in loader.serviceConfigs.Keys - todo ==>
                  c in builder.configs && builder.configs[c] == UserCore(loader, nodeIds, loader.serviceConfigs[c])
      invariant forall c :: c in builder.configs ==> c in boots || c in loader.serviceConfigs.Keys - todo
      decreases todo
    {
      var c :| c in todo;
      todo := todo - {c};
      var params := loader.serviceConfigs[c];
      var core := Core(params.sampleSize, params.quorumSize, loader.txFee, loader.isStaking, params.timeout, params.extraArgs,
                       bootNodeIds, params.logLevel);
      ok := builder.AddConfiguration(c, core);
      if !ok {
        return false;
      }
    }
    return true;
  }

  // ---- Services ----

  /** The first n boot services. */
  function BootIds(n: nat): set<ServiceId> {
    if n == 0 then {} else BootIds(n - 1) + {BootServiceId(n - 1)}
  }

  lemma {:induction false} BootIdsAre(n: nat)
    ensures forall s :: s in BootIds(n) <==> exists i: nat :: i < n && s == BootServiceId(i)
    ensures |BootIds(n)| == n
  {
    hide BootServiceId;
    if n > 0 {
      BootIdsAre(n - 1);
      if BootServiceId(n - 1) in BootIds(n - 1) {
        var i: nat :| i < n - 1 && BootServiceId(n - 1) == BootServiceId(i);
        BootServiceIdsInjective(n - 1, i);
      }
      forall s ensures s in BootIds(n) <==> exists i: nat :: i < n && s == BootServiceId(i) {
        if i: nat :| i < n && s == BootServiceId(i) {
          assert i < n - 1 ==> s in BootIds(n - 1);
        }
      }
    }
  }

  method GetAllBootServiceIDs(stakers: nat) returns (ids: set<ServiceId>)
    ensures ids == BootIds(stakers)
  {
    ids := {};
    for i := 0 to stakers
      invariant ids == BootIds(i)
    {
      ids := ids + {BootServiceId(i)};
    }
  }

  datatype AddError = UnknownConfig | DuplicateService | UnknownDependency | StartFailed(reason: CommandResult)

  datatype Started = Started(config: ConfigId, deps: set<ServiceId>, socket: Socket, words: seq<string>)

  /** The mounted files depend only on what the configuration asks for. */
  function Mounted(core: Core, path: string -> string): (files: map<string, string>)
    ensures files.Keys == FilesToMount(core)
  {
    map f | f in FilesToMount(core) :: path(f)
  }

  /** Whether, and with which error, adding a service fails. */
  function AddVerdict(configs: map<ConfigId, Core>, services: set<ServiceId>, config: ConfigId, id: ServiceId,
                      deps: set<ServiceId>): Option<AddError>
  {
    if config !in configs then Some(UnknownConfig)
    else if id in services then Some(DuplicateService)
    else if !(deps <= services) then Some(UnknownDependency)
    else if |deps| > |configs[config].bootstrapperIds| then Some(StartFailed(TooManyDependencies))
    else None
  }

  /** What the network was set up with: configurations, where files are mounted, which address a service gets. */
  datatype Host = Host(configs: map<ConfigId, Core>, path: string -> string, address: ServiceId -> string)

  /** The started service's command line carries its configuration and the sockets of its dependencies. */
  ghost predicate RunsAs(host: Host, services: map<ServiceId, Started>, id: ServiceId, config: ConfigId, deps: set<ServiceId>) {
    && config in host.configs && id in services && deps <= services.Keys
    && services[id].config == config && services[id].deps == deps
    && services[id].socket == Socket(host.address(id), STAKING_PORT)
    && exists depOrder, argOrder :: StartedWith(host, services, id, depOrder, argOrder)
  }

  ghost predicate StartedWith(host: Host, services: map<ServiceId, Started>, id: ServiceId, depOrder: seq<ServiceId>,
                              argOrder: seq<string>)
    requires id in services && services[id].config in host.configs
  {
    var core := host.configs[services[id].config];
    && NoDup(depOrder) && Elems(depOrder) == services[id].deps
    && (forall d :: d in depOrder ==> d in services)
    && IsOrder(argOrder, core.extraArgs)
    && (forall k :: k in argOrder ==> k in core.extraArgs)
    && services[id].words == CommandLine(core, Mounted(core, host.path), host.address(id), SocketsOf(services, depOrder), argOrder)
  }

  /** The files that a configuration asks for are mounted, so only the dependency guard can fail a start. */
  lemma MountedSuffices(core: Core, path: string -> string, deps: seq<Socket>)
    ensures StartError(core, Mounted(core, path), deps) ==
            if |deps| > |core.bootstrapperIds| then Some(TooManyDependencies) else None
  {
  }

  lemma Recorded(host: Host, before: map<ServiceId, Started>, after: map<ServiceId, Started>, id: ServiceId,
                 depOrder: seq<ServiceId>, argOrder: seq<string>)
    requires id in after && id !in before && after == before[id := after[id]] && after[id].config in host.configs
    requires NoDup(depOrder) && Elems(depOrder) == after[id].deps && forall d :: d in depOrder ==> d in before
    requires after[id].socket == Socket(host.address(id), STAKING_PORT)
    requires var core := host.configs[after[id].config];
             && IsOrder(argOrder, core.extraArgs) && (forall k :: k in argOrder ==> k in core.extraArgs)
             && after[id].words == CommandLine(core, Mounted(core, host.path), host.address(id), SocketsOf(before, depOrder), argOrder)
    ensures RunsAs(host, after, id, after[id].config, after[id].deps) && Extends(before, after)
  {
    hide CommandLine, IsOrder, Mounted, NoDup;
    assert SocketsOf(after, depOrder) == SocketsOf(before, depOrder);
    assert StartedWith(host, after, id, depOrder, argOrder);
    forall d | d in after[id].deps ensures d in after {
      assert d in Elems(depOrder);
    }
  }

  /** Kurtosis' service network: refuses unknown and taken IDs, otherwise asks for the start command and records. */
  class ServiceNetwork {
    const host: Host
    var services: map<ServiceId, Started>

    constructor (h: Host)
      ensures host == h && services == map[]
    {
      host, services := h, map[];
    }

    method AddService(config: ConfigId, id: ServiceId, deps: set<ServiceId>) returns (err: Option<AddError>)
      modifies this
      ensures err == AddVerdict(host.configs, old(services).Keys, config, id, deps)
      ensures err.Some? ==> services == old(services)
      ensures err.None? ==> services.Keys == old(services).Keys + {id} && RunsAs(host, services, id, config, deps)
      ensures err.None? ==> Extends(old(services), services)
    {
      hide CommandLine, IsOrder, StartError, Mounted, NoDup, RunsAs, Extends;
      if config !in host.configs {
        return Some(UnknownConfig);
      }
      if id in services {
        return Some(DuplicateService);
      }
      if !(deps <= services.Keys) {
        return Some(UnknownDependency);
      }
      var core := host.configs[config];
      var order := AnyOrder(deps);
      var sockets := SocketsOf(services, order);
      MountedSuffices(core, host.path, sockets);
      var result := GetStartCommand(core, Mounted(core, host.path), host.address(id), sockets);
      if !result.Command? {
        return Some(StartFailed(result));
      }
      ghost var argOrder :| IsOrder(argOrder, core.extraArgs) && (forall k :: k in argOrder ==> k in core.extraArgs) &&
                            result.words == CommandLine(core, Mounted(core, host.path), host.address(id), sockets, argOrder);
      ghost var before := services;
      services := services[id := Started(config, deps, Socket(host.address(id), STAKING_PORT), result.words)];
      Recorded(host, before, services, id, order, argOrder);
      return None;
    }

    /** An unknown service cannot be removed, and a container may not stop in time. */
    method RemoveService(id: ServiceId, stops: bool) returns (ok: bool)
      modifies this
      ensures ok <==> id in old(services) && stops
      ensures ok ==> services == old(services) - {id}
    {
      if id !in services {
        return false;
      }
      services := services - {id};
      return stops;
    }
  }

  function SocketsOf(services: map<ServiceId, Started>, order: seq<ServiceId>): (r: seq<Socket>)
    requires forall d :: d in order ==> d in services
    ensures |r| == |order| && forall i :: 0 <= i < |order| ==> r[i] == services[order[i]].socket
  {
    seq(|order|, i requires 0 <= i < |order| => services[order[i]].socket)
  }

  /** Iterating over a set of IDs, in whatever order. */
  method AnyOrder(ids: set<ServiceId>) returns (order: seq<ServiceId>)
    ensures NoDup(order) && Elems(order) == ids && |order| == |ids|
    ensures forall d :: d in order <==> d in ids
  {
    order := [];
    var todo := ids;
    while todo != {}
      invariant todo <= ids && NoDup(order)
      invariant forall d :: d in order <==> d in ids && d !in todo
      decreases todo
    {
      var d :| d in todo;
      todo := todo - {d};
      order := order + [d];
    }
    assert Elems(order) == ids;
    NoDupSize(order);
  }

  datatype InitResult = Initialized(checkers: set<ServiceId>) | InitFailed(id: ServiceId, error: AddError)

  /** Every boot node runs on its own configuration with exactly the boot nodes before it as dependencies. */
  ghost predicate BootedInOrder(host: Host, services: map<ServiceId, Started>, n: nat) {
    forall i: nat {:trigger BootServiceId(i)} :: i < n ==> BootedAt(host, services, i)
  }

  ghost predicate BootedAt(host: Host, services: map<ServiceId, Started>, i: nat) {
    RunsAs(host, services, BootServiceId(i), BootConfigId(i), BootIds(i))
  }

  /** Each of these desired services runs on the user configuration it names, after all boot nodes. */
  ghost predicate StartedAsDesired(host: Host, services: map<ServiceId, Started>, loader: Loader, done: set<ServiceId>,
                                   deps: set<ServiceId>)
  {
    forall s :: s in done ==> StartedAs(host, services, loader, s, deps)
  }

  ghost predicate StartedAs(host: Host, services: map<ServiceId, Started>, loader: Loader, s: ServiceId, deps: set<ServiceId>) {
    s in loader.desired && loader.desired[s] in loader.serviceConfigs && RunsAs(host, services, s, loader.desired[s], deps)
  }

  ghost predicate Extends(before: map<ServiceId, Started>, after: map<ServiceId, Started>) {
    forall s :: s in before ==> s in after && after[s] == before[s]
  }

  lemma RunsAsKeeps(host: Host, before: map<ServiceId, Started>, after: map<ServiceId, Started>, id: ServiceId,
                    config: ConfigId, deps: set<ServiceId>)
    requires Extends(before, after) && RunsAs(host, before, id, config, deps)
    ensures RunsAs(host, after, id, config, deps)
  {
    var depOrder, argOrder :| StartedWith(host, before, id, depOrder, argOrder);
    assert SocketsOf(after, depOrder) == SocketsOf(before, depOrder);
    hide CommandLine, IsOrder, Mounted;
    assert StartedWith(host, after, id, depOrder, argOrder);
  }

  lemma ExtendsKeeps(host: Host, before: map<ServiceId, Started>, after: map<ServiceId, Started>, n: nat, loader: Loader,
                     done: set<ServiceId>, deps: set<ServiceId>)
    requires Extends(before, after) && BootedInOrder(host, before, n) && StartedAsDesired(host, before, loader, done, deps)
    ensures BootedInOrder(host, after, n) && StartedAsDesired(host, after, loader, done, deps)
  {
    hide BootIds, BootServiceId, BootConfigId, RunsAs, Extends;
    forall i: nat | i < n ensures BootedAt(host, after, i) {
      assert BootedAt(host, before, i);
      RunsAsKeeps(host, before, after, BootServiceId(i), BootConfigId(i), BootIds(i));
    }
    forall s | s in done ensures StartedAs(host, after, loader, s, deps) {
      assert StartedAs(host, before, loader, s, deps);
      RunsAsKeeps(host, before, after, s, loader.desired[s], deps);
    }
  }

  lemma BootedNext(host: Host, services: map<ServiceId, Started>, i: nat)
    requires BootedInOrder(host, services, i) && RunsAs(host, services, BootServiceId(i), BootConfigId(i), BootIds(i))
    ensures BootedInOrder(host, services, i + 1)
  {
    hide BootIds, BootServiceId, BootConfigId, RunsAs;
    forall j: nat | j < i + 1 ensures BootedAt(host, services, j) {
    }
  }

  lemma NoneStarted(host: Host, services: map<ServiceId, Started>, loader: Loader, deps: set<ServiceId>)
    ensures StartedAsDesired(host, services, loader, {}, deps)
  {
  }

  lemma StartedNext(host: Host, services: map<ServiceId, Started>, loader: Loader, done: set<ServiceId>, deps: set<ServiceId>,
                    s: ServiceId)
    requires StartedAsDesired(host, services, loader, done, deps)
    requires s in loader.desired && loader.desired[s] in loader.serviceConfigs
    requires RunsAs(host, services, s, loader.desired[s], deps)
    ensures StartedAsDesired(host, services, loader, done + {s}, deps)
  {
    hide RunsAs;
  }

  /** With as many dependencies as bootstrap IDs and a free ID, nothing goes wrong. */
  lemma BootStepSafe(configs: map<ConfigId, Core>, loader: Loader, nodeIds: seq<string>, i: nat)
    requires Configured(configs, loader, nodeIds) && i < |nodeIds|
    ensures AddVerdict(configs, BootIds(i), BootConfigId(i), BootServiceId(i), BootIds(i)) == None
    ensures |BootIds(i)| == |configs[BootConfigId(i)].bootstrapperIds| == i
  {
    BootIdsAre(i);
    if BootServiceId(i) in BootIds(i) {
      var j: nat :| j < i && BootServiceId(i) == BootServiceId(j);
      BootServiceIdsInjective(i, j);
    }
  }

  /**
   * After the boot nodes, a fresh service can be added exactly on a user configuration; on a boot configuration the
   * guard fires.
   */
  lemma LaterAddVerdict(configs: map<ConfigId, Core>, loader: Loader, nodeIds: seq<string>, services: set<ServiceId>,
                        config: ConfigId, id: ServiceId)
    requires Legal(loader) && Configured(configs, loader, nodeIds)
    requires BootIds(|nodeIds|) <= services && id !in services
    ensures var verdict := AddVerdict(configs, services, config, id, BootIds(|nodeIds|));
            && (verdict == None <==> config in loader.serviceConfigs)
            && (verdict == Some(StartFailed(TooManyDependencies)) <==> exists i: nat :: i < |nodeIds| && config == BootConfigId(i))
            && (verdict == Some(UnknownConfig) <==> config !in configs)
            && (verdict == None || verdict == Some(StartFailed(TooManyDependencies)) || verdict == Some(UnknownConfig))
  {
    BootIdsAre(|nodeIds|);
    hide BootConfigId, ReservedConfig, ReservedService, BootServiceId;
    if config in loader.serviceConfigs {
      forall i: nat | i < |nodeIds| ensures config != BootConfigId(i) {
        BootIdsReserved(i);
      }
    } else if config in configs {
      var i: nat :| i < |nodeIds| && config == BootConfigId(i);
      assert configs[config] == BootCore(loader, nodeIds, i);
    }
  }

  /** User services never collide with boot services. */
  lemma DesiredApart(loader: Loader, n: nat)
    requires Legal(loader)
    ensures BootIds(n) !! loader.desired.Keys
    ensures |BootIds(n) + loader.desired.Keys| == n + |loader.desired|
  {
    BootIdsAre(n);
    forall s | s in BootIds(n) ensures s !in loader.desired {
      var i: nat :| i < n && s == BootServiceId(i);
      BootIdsReserved(i);
    }
    assert |loader.desired.Keys| == |loader.desired|;
  }

  /**
   * Bringing the network up succeeds exactly when every desired service names a user configuration: the constructor
   * does not stop one from naming a boot configuration, and then the dependency guard fires.
   */
  method InitializeNetwork(loader: Loader, nodeIds: seq<string>, network: ServiceNetwork) returns (r: InitResult)
    requires Legal(loader) && Configured(network.host.configs, loader, nodeIds) && network.services == map[]
    modifies network
    ensures r.Initialized? <==> forall s :: s in loader.desired ==> loader.desired[s] in loader.serviceConfigs
    ensures r.Initialized? ==>
              && r.checkers == BootIds(|nodeIds|) + loader.desired.Keys == network.services.Keys
              && |r.checkers| == |nodeIds| + |loader.desired|
              && StartedAsDesired(network.host, network.services, loader, loader.desired.Keys, BootIds(|nodeIds|))
    ensures r.InitFailed? ==> r.id in loader.desired && (r.error == StartFailed(TooManyDependencies) || r.error == UnknownConfig)
    ensures BootedInOrder(network.host, network.services, |nodeIds|)
  {
    var bootstrapperIds := StartBootNodes(loader, nodeIds, network);
    r := StartDesired(loader, nodeIds, network, bootstrapperIds);
    DesiredApart(loader, |nodeIds|);
  }

  /** Starts the boot nodes one by one; the early return on an error is never taken. */
  method StartBootNodes(loader: Loader, nodeIds: seq<string>, network: ServiceNetwork) returns (checkers: set<ServiceId>)
    requires Configured(network.host.configs, loader, nodeIds) && network.services == map[]
    modifies network
    ensures checkers == BootIds(|nodeIds|) == network.services.Keys
    ensures BootedInOrder(network.host, network.services, |nodeIds|)
  {
    checkers := {};
    for i := 0 to |nodeIds|
      invariant checkers == BootIds(i) == network.services.Keys
      invariant BootedInOrder(network.host, network.services, i)
    {
      var err := StartBootNode(loader, nodeIds, network, i, checkers);
      if err.Some? {
        return;
      }
      checkers := checkers + {BootServiceId(i)};
    }
  }

  method StartBootNode(loader: Loader, nodeIds: seq<string>, network: ServiceNetwork, i: nat, bootstrapperIds: set<ServiceId>)
    returns (err: Option<AddError>)
    requires Configured(network.host.configs, loader, nodeIds) && i < |nodeIds|
    requires bootstrapperIds == BootIds(i) == network.services.Keys && BootedInOrder(network.host, network.services, i)
    modifies network
    ensures err == None && network.services.Keys == bootstrapperIds + {BootServiceId(i)}
    ensures BootedInOrder(network.host, network.services, i + 1)
  {
    BootIdsAre(i);
    BootStepSafe(network.host.configs, loader, nodeIds, i);
    hide *;
    ghost var before := network.services;
    err := network.AddService(BootConfigId(i), BootServiceId(i), bootstrapperIds);
    ExtendsKeeps(network.host, before, network.services, i, loader, {}, {});
    BootedNext(network.host, network.services, i);
  }

  /** The desired services, in any order, up to the first that fails. */
  method StartDesired(loader: Loader, nodeIds: seq<string>, network: ServiceNetwork, bootstrapperIds: set<ServiceId>)
    returns (r: InitResult)
    requires Legal(loader) && Configured(network.host.configs, loader, nodeIds)
    requires bootstrapperIds == BootIds(|nodeIds|) == network.services.Keys
    requires BootedInOrder(network.host, network.services, |nodeIds|)
    modifies network
    ensures r.Initialized? <==> forall s :: s in loader.desired ==> loader.desired[s] in loader.serviceConfigs
    ensures r.Initialized? ==>
              && r.checkers == bootstrapperIds + loader.desired.Keys && network.services.Keys == r.checkers
              && StartedAsDesired(network.host, network.services, loader, loader.desired.Keys, bootstrapperIds)
    ensures r.InitFailed? ==> r.id in loader.desired && (r.error == StartFailed(TooManyDependencies) || r.error == UnknownConfig)
    ensures BootedInOrder(network.host, network.services, |nodeIds|)
  {
    hide *;
    var checkers := bootstrapperIds;
    var todo := loader.desired.Keys;
    ghost var done: set<ServiceId> := {};
    NoneStarted(network.host, network.services, loader, bootstrapperIds);
    while todo != {}
      invariant forall s :: s in todo ==> s in loader.desired && s !in done
      invariant forall s :: s in loader.desired ==> s in todo || s in done
      invariant forall s :: s in done ==> s in loader.desired
      invariant network.services.Keys == checkers && checkers == bootstrapperIds + done
      invariant BootedInOrder(network.host, network.services, |nodeIds|)
      invariant StartedAsDesired(network.host, network.services, loader, done, bootstrapperIds)
      invariant forall s :: s in done ==> loader.desired[s] in loader.serviceConfigs
      decreases todo
    {
      var s :| s in todo;
      todo := todo - {s};
      var err := StartOne(loader, nodeIds, network, bootstrapperIds, s, done);
      if err.Some? {
        return InitFailed(s, err.value);
      }
      checkers := checkers + {s};
      done := done + {s};
    }
    assert done == loader.desired.Keys;
    return Initialized(checkers);
  }

  method StartOne(loader: Loader, nodeIds: seq<string>, network: ServiceNetwork, bootstrapperIds: set<ServiceId>, s: ServiceId,
                  ghost done: set<ServiceId>)
    returns (err: Option<AddError>)
    requires Legal(loader) && Configured(network.host.configs, loader, nodeIds)
    requires bootstrapperIds == BootIds(|nodeIds|) && network.services.Keys == bootstrapperIds + done
    requires s in loader.desired && s !in done
    requires BootedInOrder(network.host, network.services, |nodeIds|)
    requires StartedAsDesired(network.host, network.services, loader, done, bootstrapperIds)
    modifies network
    ensures err == None <==> loader.desired[s] in loader.serviceConfigs
    ensures err.Some? ==> err.value == StartFailed(TooManyDependencies) || err.value == UnknownConfig
    ensures BootedInOrder(network.host, network.services, |nodeIds|)
    ensures err == None ==> network.services.Keys == bootstrapperIds + done + {s}
    ensures err == None ==> StartedAsDesired(network.host, network.services, loader, done + {s}, bootstrapperIds)
  {
    DesiredApart(loader, |nodeIds|);
    LaterAddVerdict(network.host.configs, loader, nodeIds, network.services.Keys, loader.desired[s], s);
    hide *;
    ghost var before := network.services;
    err := network.AddService(loader.desired[s], s, bootstrapperIds);
    if err.None? {
      ExtendsKeeps(network.host, before, network.services, |nodeIds|, loader, done, bootstrapperIds);
      StartedNext(network.host, network.services, loader, done, bootstrapperIds, s);
    }
  }

  /** Adding a service to the running network depends on all boot nodes. */
  method AddServiceLater(network: ServiceNetwork, stakers: nat, config: ConfigId, id: ServiceId) returns (err: Option<AddError>)
    modifies network
    ensures err == AddVerdict(network.host.configs, old(network.services).Keys, config, id, BootIds(stakers))
    ensures err.Some? ==> network.services == old(network.services)
    ensures err.None? ==> network.services.Keys == old(network.services).Keys + {id}
    ensures err.None? ==> RunsAs(network.host, network.services, id, config, BootIds(stakers))
  {
    var ids := GetAllBootServiceIDs(stakers);
    err := network.AddService(config, id, ids);
  }

  /** A loader that the constructor accepts and that cannot be brought up. */
  lemma BootConfigDesired(nodeIds: seq<string>, configs: map<ConfigId, Core>)
    requires |nodeIds| > 0
    requires Configured(configs, Loader("", "", true, 1, 1, 0, 0, map[], map["mine" := BootConfigId(0)]), nodeIds)
    ensures var loader := Loader("", "", true, 1, 1, 0, 0, map[], map["mine" := BootConfigId(0)]);
            && Legal(loader)
            && AddVerdict(configs, BootIds(|nodeIds|), loader.desired["mine"], "mine", BootIds(|nodeIds|)) ==
               Some(StartFailed(TooManyDependencies))
  {
    var loader := Loader("", "", true, 1, 1, 0, 0, map[], map["mine" := BootConfigId(0)]);
    assert "mine" in loader.desired;
    DesiredApart(loader, |nodeIds|);
    LaterAddVerdict(configs, loader, nodeIds, BootIds(|nodeIds|), BootConfigId(0), "mine");
  }

  // ---- What the nodes are told ----

  /** The sockets of the first i boot nodes, in whatever order they were visited. */
  lemma BootSockets(host: Host, services: map<ServiceId, Started>, n: nat, i: nat, order: seq<ServiceId>)
    requires BootedInOrder(host, services, n) && i <= n && NoDup(order) && Elems(order) == BootIds(i)
    requires forall d :: d in order ==> d in services
    requires forall s :: s in services ==> ',' !in host.address(s)
    ensures var sockets := SocketsOf(services, order);
            && CleanSockets(sockets) && |sockets| == i
            && forall j: nat :: j < i ==> Socket(host.address(BootServiceId(j)), STAKING_PORT) in sockets
  {
    BootIdsAre(i);
    NoDupSize(order);
    hide BootIds, BootServiceId, BootConfigId;
    var sockets := SocketsOf(services, order);
    forall k | 0 <= k < |order| ensures sockets[k] == Socket(host.address(order[k]), STAKING_PORT) {
      assert order[k] in Elems(order);
      var j: nat :| j < i && order[k] == BootServiceId(j);
      assert BootedAt(host, services, j);
    }
    forall j: nat | j < i ensures Socket(host.address(BootServiceId(j)), STAKING_PORT) in sockets {
      assert BootServiceId(j) in Elems(order);
      var k :| 0 <= k < |order| && order[k] == BootServiceId(j);
      assert sockets[k] in sockets;
    }
  }

  /** The command line tells the node its address, files and configuration and names the first boot nodes' sockets. */
  ghost predicate Tells(words: seq<string>, host: Host, id: ServiceId, core: Core) {
    && Decode(words).Some?
    && var read := Decode(words).value;
       && read.ip == Some(host.address(id))
       && read.certFile == (if core.stakingEnabled then Some(host.path("staking-tls-cert")) else None)
       && read.keyFile == (if core.stakingEnabled then Some(host.path("staking-tls-key")) else None)
       && read.sampleSize == Some(core.snowSampleSize) && read.quorumSize == Some(core.snowQuorumSize)
       && read.txFee == Some(core.txFee) && read.staking == Some(core.stakingEnabled) && read.timeout == Some(core.timeout)
       && read.logLevel == Some(core.logLevel) && read.extraArgs == core.extraArgs
       && read.bootstrapIds == (if core.stakingEnabled then Some(core.bootstrapperIds) else None)
       && |read.sockets| == |core.bootstrapperIds|
       && forall j: nat {:trigger BootServiceId(j)} :: j < |core.bootstrapperIds| ==>
            Socket(host.address(BootServiceId(j)), STAKING_PORT) in read.sockets
  }

  /** Node IDs and addresses that a list can carry. */
  ghost predicate Listable(host: Host, services: map<ServiceId, Started>, nodeIds: seq<string>) {
    && (forall id :: id in nodeIds ==> ',' !in id && id != "")
    && (forall s :: s in services ==> ',' !in host.address(s))
  }

  lemma CommandReadsBack(host: Host, services: map<ServiceId, Started>, n: nat, k: nat, id: ServiceId, config: ConfigId)
    requires BootedInOrder(host, services, n) && k <= n && RunsAs(host, services, id, config, BootIds(k))
    requires forall s :: s in services ==> ',' !in host.address(s)
    requires var core := host.configs[config];
             CleanIds(core.bootstrapperIds) && |core.bootstrapperIds| == k
    ensures Tells(services[id].words, host, id, host.configs[config]) <==> CleanExtras(host.configs[config].extraArgs)
  {
    hide BootServiceId, BootConfigId, BootIds, CommandLine, IsOrder, Decode;
    var depOrder, argOrder :| StartedWith(host, services, id, depOrder, argOrder);
    var core := host.configs[config];
    var sockets := SocketsOf(services, depOrder);
    BootSockets(host, services, n, k, depOrder);
    RoundTripIff(core, Mounted(core, host.path), host.address(id), sockets, argOrder);
    DecodedExtrasClean(services[id].words);
  }

  /**
   * In a network that is up, the i-th boot node's command line reads back as the loader's settings with exactly i
   * bootstrap IDs, those of the boot nodes before it, and i sockets, theirs in some order.
   */
  lemma BootNodeCommand(host: Host, services: map<ServiceId, Started>, loader: Loader, nodeIds: seq<string>, i: nat)
    requires Configured(host.configs, loader, nodeIds) && i < |nodeIds|
    requires BootedInOrder(host, services, |nodeIds|) && Listable(host, services, nodeIds)
    ensures BootServiceId(i) in services
    ensures Tells(services[BootServiceId(i)].words, host, BootServiceId(i),
                  Core(loader.sampleSize, loader.quorumSize, loader.txFee, loader.isStaking, loader.timeout, map[], nodeIds[..i],
                       loader.bootLogLevel))
  {
    hide BootServiceId, BootConfigId, BootIds, Tells;
    assert BootedAt(host, services, i);
    assert nodeIds[0..i] == nodeIds[..i];
    PrefixClean(nodeIds, i);
    CommandReadsBack(host, services, |nodeIds|, i, BootServiceId(i), BootConfigId(i));
  }

  /**
   * A desired node's command line reads back as its own settings with all boot nodes' IDs and sockets exactly when its
   * extra arguments leave the program's own flags alone.
   */
  lemma UserNodeCommand(host: Host, services: map<ServiceId, Started>, loader: Loader, nodeIds: seq<string>, s: ServiceId)
    requires Configured(host.configs, loader, nodeIds) && StartedAs(host, services, loader, s, BootIds(|nodeIds|))
    requires BootedInOrder(host, services, |nodeIds|) && Listable(host, services, nodeIds)
    ensures s in services
    ensures var c := loader.serviceConfigs[loader.desired[s]];
            Tells(services[s].words, host, s,
                  Core(c.sampleSize, c.quorumSize, loader.txFee, loader.isStaking, c.timeout, c.extraArgs, nodeIds, c.logLevel))
            <==> CleanExtras(c.extraArgs)
  {
    hide StartedWith, BootServiceId, BootConfigId, BootIds, Tells, CleanExtras, BootedInOrder;
    var c := loader.serviceConfigs[loader.desired[s]];
    assert s in services && loader.desired[s] in host.configs;
    assert host.configs[loader.desired[s]] == UserCore(loader, nodeIds, c);
    assert nodeIds[..|nodeIds|] == nodeIds;
    PrefixClean(nodeIds, |nodeIds|);
    hide RunsAs, Configured, CleanIds;
    CommandReadsBack(host, services, |nodeIds|, |nodeIds|, s, loader.desired[s]);
  }

  lemma PrefixClean(nodeIds: seq<string>, i: nat)
    requires i <= |nodeIds| && forall id :: id in nodeIds ==> ',' !in id && id != ""
    ensures CleanIds(nodeIds[..i])
  {
    assert i > 0 ==> nodeIds[..i][0] in nodeIds;
  }
}
