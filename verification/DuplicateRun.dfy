/** The duplicate-node-ID test: two nodes that may share an ID join, and one of them leaves again. */
module DuplicateRun {
  import opened Options
  import opened Sets
  import opened PeerCheck
  import BringUp
  import StartCommand

  const SAME_CERT: string := "same-cert-config"

  const VANILLA: ServiceId := "vanilla-node"
  const BAD1: ServiceId := "bad-service-1"
  const BAD2: ServiceId := "bad-service-2"

  // ---- The weakened check on the original nodes ----

  /** The other original nodes of a boot node. */
  function OthersOf(bootIds: set<ServiceId>, s: ServiceId): set<ServiceId> {
    bootIds - {s} + {VANILLA}
  }

  function IdsOf(nodeIds: map<ServiceId, NodeId>, services: set<ServiceId>): set<NodeId> {
    set s | s in services :: IdOf(nodeIds, s)
  }

  function AcceptableFor(bootIds: set<ServiceId>, nodeIds: map<ServiceId, NodeId>, dup1: NodeId, dup2: NodeId,
                         s: ServiceId): set<NodeId>
  {
    IdsOf(nodeIds, bootIds - {s}) + (if s in bootIds then {IdOf(nodeIds, VANILLA), dup1, dup2} else {})
  }

  ghost predicate OriginalPasses(bootIds: set<ServiceId>, nodeIds: map<ServiceId, NodeId>, dup1: NodeId, dup2: NodeId,
                                 reply: Reply, s: ServiceId)
  {
    var acceptable := AcceptableFor(bootIds, nodeIds, dup1, dup2, s);
    if s in bootIds then PeersOk(reply, acceptable, |bootIds + {VANILLA}| - 1, true)
    else PeersOk(reply, acceptable, |bootIds|, false)
  }

  /** The boot nodes' IDs, collected in any order, though a boot node will not have itself. */
  method BootIdsExcept(bootIds: set<ServiceId>, nodeIds: map<ServiceId, NodeId>, s: ServiceId) returns (acceptable: set<NodeId>)
    ensures acceptable == IdsOf(nodeIds, bootIds - {s})
  {
    acceptable := {};
    var boots := bootIds;
    while boots != {}
      invariant boots <= bootIds
      invariant acceptable == IdsOf(nodeIds, bootIds - {s} - boots)
      decreases boots
    {
      var b :| b in boots;
      ghost var before := bootIds - {s} - boots;
      boots := boots - {b};
      if s != b {
        acceptable := acceptable + {IdOf(nodeIds, b)};
        assert bootIds - {s} - boots == before + {b};
      } else {
        assert bootIds - {s} - boots == before;
      }
    }
    assert bootIds - {s} - {} == bootIds - {s};
  }

  /** Visits the original nodes in any order; stops at the first failure. */
  method VerifyOriginals(originals: set<ServiceId>, bootIds: set<ServiceId>, nodeIds: map<ServiceId, NodeId>,
                         dup1: NodeId, dup2: NodeId, replies: map<ServiceId, Reply>)
    returns (ok: bool)
    requires originals == bootIds + {VANILLA} && originals <= replies.Keys
    ensures ok <==> forall s :: s in originals ==> OriginalPasses(bootIds, nodeIds, dup1, dup2, replies[s], s)
  {
    var todo := originals;
    while todo != {}
      invariant todo <= originals
      invariant forall s :: s in originals - todo ==> OriginalPasses(bootIds, nodeIds, dup1, dup2, replies[s], s)
      decreases todo
    {
      var s :| s in todo;
      todo := todo - {s};
      var acceptable := BootIdsExcept(bootIds, nodeIds, s);
      var good;
      if s in bootIds {
        acceptable := acceptable + {IdOf(nodeIds, VANILLA)};
        acceptable := acceptable + {dup1};
        acceptable := acceptable + {dup2};
        assert acceptable == AcceptableFor(bootIds, nodeIds, dup1, dup2, s);
        good := VerifyExpectedPeers(replies[s], acceptable, |originals| - 1, true);
      } else {
        assert acceptable == AcceptableFor(bootIds, nodeIds, dup1, dup2, s);
        good := VerifyExpectedPeers(replies[s], acceptable, |bootIds|, false);
      }
      if !good {
        assert !OriginalPasses(bootIds, nodeIds, dup1, dup2, replies[s], s);
        return false;
      }
    }
    return true;
  }

  /** The original nodes that a boot node does not list. */
  function Missing(bootIds: set<ServiceId>, nodeIds: map<ServiceId, NodeId>, ids: seq<NodeId>, s: ServiceId): set<NodeId> {
    IdsOf(nodeIds, OthersOf(bootIds, s)) - Elems(ids)
  }

  /** The duplicate IDs it lists in their place. */
  function ListedDuplicates(bootIds: set<ServiceId>, nodeIds: map<ServiceId, NodeId>, ids: seq<NodeId>, dup1: NodeId, dup2: NodeId,
                            s: ServiceId): set<NodeId>
  {
    (Elems(ids) * {dup1, dup2}) - IdsOf(nodeIds, OthersOf(bootIds, s))
  }

  /**
   * A boot node passes exactly when it lists no stranger and misses at most as many original nodes as it lists
   * duplicate IDs. So originals may be unconnected, which the test means to rule out.
   */
  lemma BootNodeStrength(bootIds: set<ServiceId>, nodeIds: map<ServiceId, NodeId>, dup1: NodeId, dup2: NodeId,
                         ids: seq<NodeId>, s: ServiceId)
    requires s in bootIds && VANILLA !in bootIds && InjectiveOn(nodeIds, bootIds + {VANILLA}) && NoDup(ids)
    ensures OriginalPasses(bootIds, nodeIds, dup1, dup2, Peers(ids), s) <==>
              && Elems(ids) <= IdsOf(nodeIds, OthersOf(bootIds, s)) + {dup1, dup2}
              && |Missing(bootIds, nodeIds, ids, s)| <= |ListedDuplicates(bootIds, nodeIds, ids, dup1, dup2, s)|
    ensures |ListedDuplicates(bootIds, nodeIds, ids, dup1, dup2, s)| <= |{dup1, dup2}|
  {
    var others := OthersOf(bootIds, s);
    var known := IdsOf(nodeIds, others);
    OthersSize(bootIds, nodeIds, s);
    assert AcceptableFor(bootIds, nodeIds, dup1, dup2, s) == known + {dup1, dup2};
    NoDupSize(ids);
    SubsetSize(ListedDuplicates(bootIds, nodeIds, ids, dup1, dup2, s), {dup1, dup2});
    if Elems(ids) <= known + {dup1, dup2} {
      Balance(Elems(ids), known, {dup1, dup2});
    } else {
      var p :| p in Elems(ids) && p !in known + {dup1, dup2};
      assert p in ids;
    }
  }

  lemma OthersSize(bootIds: set<ServiceId>, nodeIds: map<ServiceId, NodeId>, s: ServiceId)
    requires s in bootIds && VANILLA !in bootIds && InjectiveOn(nodeIds, bootIds + {VANILLA})
    ensures |IdsOf(nodeIds, OthersOf(bootIds, s))| == |bootIds + {VANILLA}| - 1 == |bootIds|
  {
    var others := OthersOf(bootIds, s);
    assert IdsOf(nodeIds, others) == Image(nodeIds, others);
    ImageSize(nodeIds, others);
    assert others == bootIds + {VANILLA} - {s};
  }

  /** Listed = expected - missing + extra. */
  lemma Balance<T>(listed: set<T>, expected: set<T>, extra: set<T>)
    requires listed <= expected + extra
    ensures |listed| == |expected| - |expected - listed| + |(listed * extra) - expected|
  {
    assert listed == (listed * expected) + ((listed * extra) - expected);
    assert expected == (listed * expected) + (expected - listed);
  }

  /** The bound is tight: any set of original nodes no larger than the set of fresh duplicates can be missing. */
  lemma BoundTight(bootIds: set<ServiceId>, nodeIds: map<ServiceId, NodeId>, dup1: NodeId, dup2: NodeId,
                   gone: set<NodeId>, ids: seq<NodeId>, s: ServiceId)
    requires s in bootIds && VANILLA !in bootIds && InjectiveOn(nodeIds, bootIds + {VANILLA}) && NoDup(ids)
    requires gone <= IdsOf(nodeIds, OthersOf(bootIds, s))
    requires {dup1, dup2} !! IdsOf(nodeIds, OthersOf(bootIds, s))
    requires Elems(ids) == IdsOf(nodeIds, OthersOf(bootIds, s)) - gone + {dup1, dup2}
    ensures OriginalPasses(bootIds, nodeIds, dup1, dup2, Peers(ids), s) <==> |gone| <= |{dup1, dup2}|
  {
    var known := IdsOf(nodeIds, OthersOf(bootIds, s));
    BootNodeStrength(bootIds, nodeIds, dup1, dup2, ids, s);
    hide OriginalPasses, InjectiveOn, NoDup, IdsOf, OthersOf;
    assert known - (known - gone + {dup1, dup2}) == gone;
    assert ((known - gone + {dup1, dup2}) * {dup1, dup2}) - known == {dup1, dup2};
  }

  /** A passing boot node that does not see the vanilla node at all. */
  lemma PassesWithoutVanilla()
    ensures var bootIds := {"boot-node-0", "boot-node-1"};
            var nodeIds := map["boot-node-0" := "A", "boot-node-1" := "B", VANILLA := "V"];
            && OriginalPasses(bootIds, nodeIds, "D", "D", Peers(["B", "D"]), "boot-node-0")
            && "V" in IdsOf(nodeIds, OthersOf(bootIds, "boot-node-0"))
  {
    var bootIds := {"boot-node-0", "boot-node-1"};
    var nodeIds := map["boot-node-0" := "A", "boot-node-1" := "B", VANILLA := "V"];
    assert "boot-node-0"[10] != "boot-node-1"[10];
    assert |VANILLA| == 12;
    assert |bootIds + {VANILLA}| == 3;
    assert "boot-node-1" in bootIds - {"boot-node-0"};
    assert IdOf(nodeIds, "boot-node-1") == "B";
    assert IdOf(nodeIds, VANILLA) == "V";
    assert "B" in IdsOf(nodeIds, bootIds - {"boot-node-0"});
    assert VANILLA in OthersOf(bootIds, "boot-node-0");
  }

  /** The exact check on the vanilla node leaves no slack. */
  lemma VanillaExact(bootIds: set<ServiceId>, nodeIds: map<ServiceId, NodeId>, dup1: NodeId, dup2: NodeId, ids: seq<NodeId>)
    requires VANILLA !in bootIds && InjectiveOn(nodeIds, bootIds + {VANILLA}) && NoDup(ids)
    ensures OriginalPasses(bootIds, nodeIds, dup1, dup2, Peers(ids), VANILLA) <==> Elems(ids) == IdsOf(nodeIds, bootIds)
  {
    assert bootIds - {VANILLA} == bootIds;
    assert IdsOf(nodeIds, bootIds) == Image(nodeIds, bootIds);
    ImageSize(nodeIds, bootIds);
    ExactListIff(ids, IdsOf(nodeIds, bootIds));
  }

  // ---- The whole run ----

  datatype Verdict = Passed | Fatal(phase: nat)

  /**
   * What the nodes report at the four checks, the node IDs that can be queried, the added nodes that come up, and
   * whether the container of the removed one stops in time.
   */
  datatype Observed = Observed(
    start: map<ServiceId, Reply>, oneBad: map<ServiceId, Reply>, twoBad: map<ServiceId, Reply>, end: map<ServiceId, Reply>,
    ids: map<ServiceId, NodeId>, up: set<ServiceId>, stopped: bool)

  /** Every node that takes part has a reply, if only an error, at each check. */
  ghost predicate Complete(bootIds: set<ServiceId>, o: Observed) {
    var all := bootIds + {VANILLA, BAD1, BAD2};
    all <= o.start.Keys && all <= o.oneBad.Keys && all <= o.twoBad.Keys && all <= o.end.Keys
  }

  type Configs = map<string, StartCommand.Core>

  /** The service can be added to those that run, comes up and tells its node ID. */
  ghost predicate Joins(configs: Configs, running: set<ServiceId>, stakers: nat, s: ServiceId, o: Observed) {
    BringUp.AddVerdict(configs, running, SAME_CERT, s, BringUp.BootIds(stakers)).None? && s in o.up && s in o.ids
  }

  /** Everything up to the check on the original nodes. */
  ghost predicate TwoJoin(configs: Configs, running: set<ServiceId>, stakers: nat, o: Observed)
    requires Complete(BringUp.BootIds(stakers), o)
  {
    var bootIds := BringUp.BootIds(stakers);
    var originals := bootIds + {VANILLA};
    && originals <= running * o.ids.Keys
    && Passes(originals, bootIds, o.ids, o.start)
    && Joins(configs, running, stakers, BAD1, o)
    && Passes(originals + {BAD1}, bootIds, o.ids, o.oneBad)
    && Joins(configs, running + {BAD1}, stakers, BAD2, o)
    && forall s :: s in originals ==> OriginalPasses(bootIds, o.ids, o.ids[BAD1], o.ids[BAD2], o.twoBad[s], s)
  }

  ghost predicate AllPhases(configs: Configs, running: set<ServiceId>, stakers: nat, o: Observed)
    requires Complete(BringUp.BootIds(stakers), o)
  {
    var bootIds := BringUp.BootIds(stakers);
    TwoJoin(configs, running, stakers, o) && o.stopped && Passes(bootIds + {VANILLA} + {BAD2}, bootIds, o.ids, o.end)
  }

  /** The tables that the run keeps in step with the network. */
  class DuplicateTest {
    var allServiceIds: set<ServiceId>
    var allNodeIds: map<ServiceId, NodeId>

    constructor ()
      ensures allServiceIds == {} && allNodeIds == map[]
    {
      allServiceIds, allNodeIds := {}, map[];
    }

    /** Adds a node with the shared certificate and enters it into the tables once it is up. */
    method Join(network: BringUp.ServiceNetwork, stakers: nat, s: ServiceId, o: Observed, ghost services: set<ServiceId>)
      returns (ok: bool)
      requires Mirrors(services, o.ids)
      modifies this, network
      ensures ok <==> Joins(network.host.configs, old(network.services).Keys, stakers, s, o)
      ensures ok ==> network.services.Keys == old(network.services).Keys + {s} && s !in old(network.services)
      ensures ok ==> Mirrors(services + {s}, o.ids)
    {
      hide BringUp.RunsAs, BringUp.BootIds;
      var err := BringUp.AddServiceLater(network, stakers, SAME_CERT, s);
      if err.Some? || s !in o.up {
        return false;
      }
      allServiceIds := allServiceIds + {s};
      if s !in o.ids {
        return false;
      }
      allNodeIds := allNodeIds[s := o.ids[s]];
      return true;
    }

    /**
     * Passes exactly when all phases do; afterwards the tables and the network have gained the second bad node and
     * nothing else.
     */
    method Run(network: BringUp.ServiceNetwork, stakers: nat, o: Observed) returns (v: Verdict)
      requires Complete(BringUp.BootIds(stakers), o)
      modifies this, network
      ensures v.Passed? <==> AllPhases(network.host.configs, old(network.services).Keys, stakers, o)
      ensures v.Passed? ==> Mirrors(BringUp.BootIds(stakers) + {VANILLA} + {BAD2}, o.ids)
      ensures v.Passed? ==> network.services.Keys == old(network.services).Keys + {BAD2}
    {
      hide BringUp.BootIds, Passes, TwoJoin, Complete, Mirrors;
      NamesDiffer(stakers);
      var bootIds := BringUp.GetAllBootServiceIDs(stakers);
      v := AddBoth(network, stakers, bootIds, o);
      if v.Passed? {
        var ok := SettleOnSecond(network, bootIds, o);
        v := if ok then Passed else Fatal(3);
      }
    }

    /** From the first check to the one on the original nodes. */
    method AddBoth(network: BringUp.ServiceNetwork, stakers: nat, bootIds: set<ServiceId>, o: Observed) returns (v: Verdict)
      requires bootIds == BringUp.BootIds(stakers) && Complete(bootIds, o)
      modifies this, network
      ensures v.Passed? <==> TwoJoin(network.host.configs, old(network.services).Keys, stakers, o)
      ensures v.Passed? ==> Mirrors(bootIds + {VANILLA} + {BAD1} + {BAD2}, o.ids)
      ensures v.Passed? ==>
                && BAD1 !in old(network.services)
                && network.services.Keys == old(network.services).Keys + {BAD1} + {BAD2}
    {
      hide BringUp.BootIds, Passes, OriginalPasses, Joins;
      var originals := bootIds + {VANILLA};
      var known := GetNodeIds(originals, network.services.Keys, o.ids);
      if known.None? { return Fatal(0); }
      allServiceIds, allNodeIds := originals, known.value;
      assert Mirrors(originals, o.ids);
      hide Mirrors;
      var ok := Check(bootIds, o.start, originals, o.ids);
      if !ok { return Fatal(0); }
      ok := Join(network, stakers, BAD1, o, originals);
      if !ok { return Fatal(1); }
      ok := Check(bootIds, o.oneBad, originals + {BAD1}, o.ids);
      if !ok { return Fatal(1); }
      ok := Join(network, stakers, BAD2, o, originals + {BAD1});
      if !ok { return Fatal(2); }
      ok := CheckOriginals(bootIds, o);
      return if ok then Passed else Fatal(2);
    }

    /** Removes the first bad node and checks once more. */
    method SettleOnSecond(network: BringUp.ServiceNetwork, bootIds: set<ServiceId>, o: Observed) returns (ok: bool)
      requires Complete(bootIds, o) && Mirrors(bootIds + {VANILLA} + {BAD1} + {BAD2}, o.ids)
      requires BAD1 !in bootIds + {VANILLA, BAD2} && BAD1 in network.services
      modifies this, network
      ensures ok <==> o.stopped && Passes(bootIds + {VANILLA} + {BAD2}, bootIds, o.ids, o.end)
      ensures ok ==> Mirrors(bootIds + {VANILLA} + {BAD2}, o.ids)
      ensures ok ==> network.services.Keys == old(network.services).Keys - {BAD1}
    {
      hide Passes;
      ok := network.RemoveService(BAD1, o.stopped);
      if !ok {
        return;
      }
      allServiceIds := allServiceIds - {BAD1};
      allNodeIds := allNodeIds - {BAD1};
      assert bootIds + {VANILLA} + {BAD1} + {BAD2} - {BAD1} == bootIds + {VANILLA} + {BAD2};
      ok := Check(bootIds, o.end, bootIds + {VANILLA} + {BAD2}, o.ids);
    }

    /** The full check on the tables as they stand. */
    method Check(bootIds: set<ServiceId>, replies: map<ServiceId, Reply>, ghost services: set<ServiceId>,
                 ghost ids: map<ServiceId, NodeId>)
      returns (ok: bool)
      requires services <= replies.Keys && Mirrors(services, ids)
      ensures ok <==> Passes(services, bootIds, ids, replies)
    {
      SameVerdict(services, bootIds, allNodeIds, ids, replies);
      ok := VerifyNetworkFullyConnected(allServiceIds, bootIds, allNodeIds, replies);
    }

    /** The weakened check, once both bad nodes are in the tables. */
    method CheckOriginals(bootIds: set<ServiceId>, o: Observed) returns (ok: bool)
      requires Complete(bootIds, o) && Mirrors(bootIds + {VANILLA} + {BAD1} + {BAD2}, o.ids)
      ensures ok <==> forall s :: s in bootIds + {VANILLA} ==>
                OriginalPasses(bootIds, o.ids, o.ids[BAD1], o.ids[BAD2], o.twoBad[s], s)
    {
      SameOriginals(bootIds + {VANILLA}, bootIds, allNodeIds, o);
      ok := VerifyOriginals(bootIds + {VANILLA}, bootIds, allNodeIds, allNodeIds[BAD1], allNodeIds[BAD2], o.twoBad);
    }

    ghost predicate Mirrors(services: set<ServiceId>, ids: map<ServiceId, NodeId>)
      reads this
    {
      && allServiceIds == services
      && (forall s :: s in services <==> s in allNodeIds)
      && forall s :: s in allNodeIds ==> s in ids && allNodeIds[s] == ids[s]
    }
  }

  lemma NamesDiffer(stakers: nat)
    ensures VANILLA != BAD1 && VANILLA != BAD2 && BAD1 != BAD2
    ensures VANILLA !in BringUp.BootIds(stakers) && BAD1 !in BringUp.BootIds(stakers) && BAD2 !in BringUp.BootIds(stakers)
  {
    assert |VANILLA| != |BAD1|;
    assert |VANILLA| != |BAD2|;
    assert BAD1[12] != BAD2[12];
    BringUp.BootIdsAre(stakers);
    forall s | s in BringUp.BootIds(stakers) ensures s != VANILLA && s != BAD1 && s != BAD2 {
      var i: nat :| i < stakers && s == BringUp.BootServiceId(i);
      assert s[0] == BringUp.SERVICE_PREFIX[0] && s[1] == BringUp.SERVICE_PREFIX[1];
      assert VANILLA[0] == 'v' && BAD1[1] == 'a' && BAD2[1] == 'a';
    }
  }

  // ---- What a passing run means ----

  /** IDs are unique among the originals and either bad node; the two bad nodes may share one. */
  ghost predicate IdsFit(bootIds: set<ServiceId>, ids: map<ServiceId, NodeId>) {
    UniqueIds(ids, bootIds + {VANILLA} + {BAD1}) && UniqueIds(ids, bootIds + {VANILLA} + {BAD2})
  }

  ghost predicate RepliesFit(bootIds: set<ServiceId>, o: Observed) {
    var originals := bootIds + {VANILLA};
    Tidy(originals, o.start) && Tidy(originals + {BAD1}, o.oneBad) && Tidy(originals, o.twoBad) && Tidy(originals + {BAD2}, o.end)
  }

  /**
   * Next to the two bad nodes, boot nodes list no stranger and miss at most as many originals as they list duplicate
   * IDs, and the vanilla node lists the boot nodes.
   */
  ghost predicate OriginalsHold(bootIds: set<ServiceId>, ids: map<ServiceId, NodeId>, dup1: NodeId, dup2: NodeId,
                                replies: map<ServiceId, Reply>)
  {
    && Answered(bootIds + {VANILLA}, replies)
    && (forall s :: s in bootIds ==> BootNodeHolds(bootIds, ids, dup1, dup2, Elems(replies[s].ids), s))
    && Elems(replies[VANILLA].ids) == IdsOf(ids, bootIds)
  }

  ghost predicate BootNodeHolds(bootIds: set<ServiceId>, ids: map<ServiceId, NodeId>, dup1: NodeId, dup2: NodeId,
                                listed: set<NodeId>, s: ServiceId)
  {
    var expected := IdsOf(ids, bootIds + {VANILLA} - {s});
    listed <= expected + {dup1, dup2} && |expected - listed| <= |listed * {dup1, dup2} - expected|
  }

  lemma BootNodeIff(bootIds: set<ServiceId>, ids: map<ServiceId, NodeId>, dup1: NodeId, dup2: NodeId, reply: Reply, s: ServiceId)
    requires VANILLA !in bootIds && InjectiveOn(ids, bootIds + {VANILLA}) && s in bootIds
    requires reply.Peers? && NoDup(reply.ids)
    ensures OriginalPasses(bootIds, ids, dup1, dup2, reply, s) <==> BootNodeHolds(bootIds, ids, dup1, dup2, Elems(reply.ids), s)
  {
    assert OthersOf(bootIds, s) == bootIds + {VANILLA} - {s};
    hide OriginalPasses, IdsOf, OthersOf, NoDup, InjectiveOn;
    BootNodeStrength(bootIds, ids, dup1, dup2, reply.ids, s);
  }

  lemma OriginalsIff(bootIds: set<ServiceId>, ids: map<ServiceId, NodeId>, dup1: NodeId, dup2: NodeId,
                     replies: map<ServiceId, Reply>)
    requires VANILLA !in bootIds && bootIds + {VANILLA} <= ids.Keys && UniqueIds(ids, bootIds + {VANILLA})
    requires Tidy(bootIds + {VANILLA}, replies)
    ensures (forall s :: s in bootIds + {VANILLA} ==> OriginalPasses(bootIds, ids, dup1, dup2, replies[s], s)) <==>
              OriginalsHold(bootIds, ids, dup1, dup2, replies)
  {
    var originals := bootIds + {VANILLA};
    if Answered(originals, replies) {
      hide OriginalPasses, IdsOf, BootNodeHolds;
      forall s | s in bootIds
        ensures OriginalPasses(bootIds, ids, dup1, dup2, replies[s], s) <==>
                BootNodeHolds(bootIds, ids, dup1, dup2, Elems(replies[s].ids), s)
      {
        BootNodeIff(bootIds, ids, dup1, dup2, replies[s], s);
      }
      assert replies[VANILLA] == Peers(replies[VANILLA].ids);
      VanillaExact(bootIds, ids, dup1, dup2, replies[VANILLA].ids);
    } else {
      var s :| s in originals && !replies[s].Peers?;
      assert !OriginalPasses(bootIds, ids, dup1, dup2, replies[s], s);
    }
  }

  /**
   * With unique IDs and tidy replies the test passes exactly when: the originals run and are fully connected at first;
   * both bad nodes can be added, come up and have IDs; with the first one the network is fully connected, with both the
   * originals hold; the first one stops; and with the second alone the network is fully connected again.
   */
  lemma PassesIff(configs: Configs, running: set<ServiceId>, stakers: nat, o: Observed)
    requires Complete(BringUp.BootIds(stakers), o)
    requires IdsFit(BringUp.BootIds(stakers), o.ids) && RepliesFit(BringUp.BootIds(stakers), o)
    ensures var bootIds := BringUp.BootIds(stakers);
            var originals := bootIds + {"vanilla-node"};
            AllPhases(configs, running, stakers, o) <==>
              && originals <= running && Connected(originals, bootIds, o.ids, o.start)
              && "same-cert-config" in configs && stakers <= |configs["same-cert-config"].bootstrapperIds|
              && "bad-service-1" !in running && "bad-service-1" in o.up && "bad-service-1" in o.ids
              && Connected(originals + {"bad-service-1"}, bootIds, o.ids, o.oneBad)
              && "bad-service-2" !in running && "bad-service-2" in o.up && "bad-service-2" in o.ids
              && OriginalsHold(bootIds, o.ids, o.ids["bad-service-1"], o.ids["bad-service-2"], o.twoBad)
              && o.stopped
              && Connected(originals + {"bad-service-2"}, bootIds, o.ids, o.end)
  {
    var bootIds := BringUp.BootIds(stakers);
    var originals := bootIds + {VANILLA};
    NamesDiffer(stakers);
    JoinsIff(configs, running, stakers, BAD1, o);
    JoinsIff(configs, running + {BAD1}, stakers, BAD2, o);
    hide BringUp.BootIds, Passes, Connected, OriginalPasses, OriginalsHold, Joins;
    if originals <= running * o.ids.Keys {
      CheckShape(originals, bootIds, o.ids, o.start);
      OriginalsAnd(bootIds, o);
    } else {
      NotConnected(originals, bootIds, o.ids, o.start);
    }
  }

  lemma NotConnected(all: set<ServiceId>, stakers: set<ServiceId>, ids: map<ServiceId, NodeId>, replies: map<ServiceId, Reply>)
    ensures Connected(all, stakers, ids, replies) ==> all <= ids.Keys
  {
  }

  /** The later checks, once the bad nodes have IDs. */
  lemma OriginalsAnd(bootIds: set<ServiceId>, o: Observed)
    requires VANILLA !in bootIds && bootIds + {VANILLA} <= o.ids.Keys && IdsFit(bootIds, o.ids) && RepliesFit(bootIds, o)
    ensures var originals := bootIds + {VANILLA};
            && (BAD1 in o.ids ==>
                  (Passes(originals + {BAD1}, bootIds, o.ids, o.oneBad) <==> Connected(originals + {BAD1}, bootIds, o.ids, o.oneBad)))
            && (BAD2 in o.ids ==>
                  (Passes(originals + {BAD2}, bootIds, o.ids, o.end) <==> Connected(originals + {BAD2}, bootIds, o.ids, o.end)))
            && (BAD1 in o.ids && BAD2 in o.ids ==>
                  ((forall s :: s in originals ==> OriginalPasses(bootIds, o.ids, o.ids[BAD1], o.ids[BAD2], o.twoBad[s], s)) <==>
                   OriginalsHold(bootIds, o.ids, o.ids[BAD1], o.ids[BAD2], o.twoBad)))
  {
    hide Passes, Connected, OriginalPasses, OriginalsHold;
    if BAD1 in o.ids {
      CheckShape(bootIds + {VANILLA} + {BAD1}, bootIds, o.ids, o.oneBad);
    }
    if BAD2 in o.ids {
      CheckShape(bootIds + {VANILLA} + {BAD2}, bootIds, o.ids, o.end);
    }
    if BAD1 in o.ids && BAD2 in o.ids {
      OriginalsIff(bootIds, o.ids, o.ids[BAD1], o.ids[BAD2], o.twoBad);
    }
  }

  lemma JoinsIff(configs: Configs, running: set<ServiceId>, stakers: nat, s: ServiceId, o: Observed)
    ensures Joins(configs, running, stakers, s, o) <==>
              && SAME_CERT in configs && stakers <= |configs[SAME_CERT].bootstrapperIds|
              && BringUp.BootIds(stakers) <= running && s !in running && s in o.up && s in o.ids
  {
    BringUp.BootIdsAre(stakers);
    hide BringUp.BootIds;
  }

  /** On a network brought up for this test both bad nodes can be added. */
  lemma BothCanBeAdded(configs: Configs, loader: BringUp.Loader, nodeIds: seq<NodeId>)
    requires BringUp.Legal(loader) && BringUp.Configured(configs, loader, nodeIds)
    requires "same-cert-config" in loader.serviceConfigs && loader.desired.Keys == {"vanilla-node"}
    ensures var bootIds := BringUp.BootIds(|nodeIds|);
            var running := bootIds + loader.desired.Keys;
            && BringUp.AddVerdict(configs, running, "same-cert-config", "bad-service-1", bootIds) == None
            && BringUp.AddVerdict(configs, running + {"bad-service-1"}, "same-cert-config", "bad-service-2", bootIds) == None
  {
    NamesDiffer(|nodeIds|);
    hide BringUp.BootIds, BringUp.AddVerdict, BringUp.Configured, BringUp.Legal;
    var running := BringUp.BootIds(|nodeIds|) + loader.desired.Keys;
    BringUp.LaterAddVerdict(configs, loader, nodeIds, running, SAME_CERT, BAD1);
    BringUp.LaterAddVerdict(configs, loader, nodeIds, running + {BAD1}, SAME_CERT, BAD2);
  }

  lemma SameOriginals(originals: set<ServiceId>, bootIds: set<ServiceId>, a: map<ServiceId, NodeId>, o: Observed)
    requires originals == bootIds + {VANILLA} && BAD1 in o.ids && BAD2 in o.ids
    requires originals <= a.Keys * o.ids.Keys * o.twoBad.Keys && forall s :: s in originals ==> a[s] == o.ids[s]
    ensures forall s :: s in originals ==>
              (OriginalPasses(bootIds, a, o.ids[BAD1], o.ids[BAD2], o.twoBad[s], s) <==>
               OriginalPasses(bootIds, o.ids, o.ids[BAD1], o.ids[BAD2], o.twoBad[s], s))
  {
    forall s | s in originals
      ensures OriginalPasses(bootIds, a, o.ids[BAD1], o.ids[BAD2], o.twoBad[s], s) <==>
              OriginalPasses(bootIds, o.ids, o.ids[BAD1], o.ids[BAD2], o.twoBad[s], s)
    {
      assert IdsOf(a, bootIds - {s}) == IdsOf(o.ids, bootIds - {s});
    }
  }
}
