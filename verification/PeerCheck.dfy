/** The network state verifier: a per-node count and membership check meant to decide the shape of the peer graph. */
module PeerCheck {
  import opened Options
  import opened Sets

  type ServiceId = string
  type NodeId = string

  /** What a node answers when asked for its peers. */
  datatype Reply = Peers(ids: seq<NodeId>) | RpcError

  predicate CountOk(actual: int, expected: int, atLeast: bool) {
    if atLeast then actual >= expected else actual == expected
  }

  predicate PeersOk(reply: Reply, acceptable: set<NodeId>, expected: int, atLeast: bool) {
    reply.Peers? && CountOk(|reply.ids|, expected, atLeast) && forall p :: p in reply.ids ==> p in acceptable
  }

  method VerifyExpectedPeers(reply: Reply, acceptable: set<NodeId>, expected: int, atLeast: bool) returns (ok: bool)
    ensures ok <==> PeersOk(reply, acceptable, expected, atLeast)
  {
    if reply.RpcError? {
      return false;
    }
    var condition: bool;
    if atLeast {
      condition := |reply.ids| >= expected;
    } else {
      condition := |reply.ids| == expected;
    }
    if !condition {
      return false;
    }
    for i := 0 to |reply.ids|
      invariant forall j :: 0 <= j < i ==> reply.ids[j] in acceptable
    {
      if reply.ids[i] !in acceptable {
        return false;
      }
    }
    return true;
  }

  /** Asks every service, in any order, for its node ID; `ids` holds those that answer. */
  method GetNodeIds(services: set<ServiceId>, running: set<ServiceId>, ids: map<ServiceId, NodeId>)
    returns (nodeIds: Option<map<ServiceId, NodeId>>)
    ensures nodeIds.Some? <==> services <= running * ids.Keys
    ensures nodeIds.Some? ==> nodeIds.value == map s | s in services :: ids[s]
  {
    var known: map<ServiceId, NodeId> := map[];
    var todo := services;
    while todo != {}
      invariant todo <= services && forall s :: s in services && s !in todo ==> s in running && s in ids
      invariant known == map s | s in services && s !in todo :: ids[s]
      decreases todo
    {
      var s :| s in todo;
      if s !in running || s !in ids {
        return None;
      }
      todo := todo - {s};
      known := known[s := ids[s]];
    }
    return Some(known);
  }

  /** A missing key reads as the empty string. */
  function IdOf(nodeIds: map<ServiceId, NodeId>, s: ServiceId): NodeId {
    if s in nodeIds then nodeIds[s] else ""
  }

  /** The nodes that s is meant to have as peers. */
  function ExpectedServices(all: set<ServiceId>, stakers: set<ServiceId>, s: ServiceId): set<ServiceId> {
    set t | t in all && t != s && (s in stakers || t in stakers)
  }

  function Acceptable(all: set<ServiceId>, stakers: set<ServiceId>, nodeIds: map<ServiceId, NodeId>, s: ServiceId): set<NodeId> {
    set t | t in ExpectedServices(all, stakers, s) :: IdOf(nodeIds, t)
  }

  ghost predicate NodePasses(all: set<ServiceId>, stakers: set<ServiceId>, nodeIds: map<ServiceId, NodeId>,
                             replies: map<ServiceId, Reply>, s: ServiceId)
    requires s in replies
  {
    var acceptable := Acceptable(all, stakers, nodeIds, s);
    PeersOk(replies[s], acceptable, |acceptable|, false)
  }

  ghost predicate Passes(all: set<ServiceId>, stakers: set<ServiceId>, nodeIds: map<ServiceId, NodeId>,
                         replies: map<ServiceId, Reply>)
    requires all <= replies.Keys
  {
    forall s :: s in all ==> NodePasses(all, stakers, nodeIds, replies, s)
  }

  /** Both loops may visit the services in any order. */
  method VerifyNetworkFullyConnected(all: set<ServiceId>, stakers: set<ServiceId>, nodeIds: map<ServiceId, NodeId>,
                                     replies: map<ServiceId, Reply>)
    returns (ok: bool)
    requires all <= replies.Keys
    ensures ok <==> Passes(all, stakers, nodeIds, replies)
  {
    var todo := all;
    while todo != {}
      invariant todo <= all
      invariant forall s :: s in all - todo ==> NodePasses(all, stakers, nodeIds, replies, s)
      decreases todo
    {
      var s :| s in todo;
      todo := todo - {s};
      var acceptable: set<NodeId> := {};
      var others := all;
      while others != {}
        invariant others <= all
        invariant acceptable == set t | t in ExpectedServices(all, stakers, s) - others :: IdOf(nodeIds, t)
        decreases others
      {
        var t :| t in others;
        var before := ExpectedServices(all, stakers, s) - others;
        others := others - {t};
        if s != t && (s in stakers || (s !in stakers && t in stakers)) {
          acceptable := acceptable + {IdOf(nodeIds, t)};
          assert ExpectedServices(all, stakers, s) - others == before + {t};
        } else {
          assert ExpectedServices(all, stakers, s) - others == before;
        }
      }
      assert ExpectedServices(all, stakers, s) - {} == ExpectedServices(all, stakers, s);
      var good := VerifyExpectedPeers(replies[s], acceptable, |acceptable|, false);
      if !good {
        assert !NodePasses(all, stakers, nodeIds, replies, s);
        return false;
      }
    }
    return true;
  }

  /** The check reads only the IDs of the services it is given. */
  lemma SameVerdict(all: set<ServiceId>, stakers: set<ServiceId>, a: map<ServiceId, NodeId>, b: map<ServiceId, NodeId>,
                    replies: map<ServiceId, Reply>)
    requires all <= a.Keys * b.Keys * replies.Keys && forall s :: s in all ==> a[s] == b[s]
    ensures Passes(all, stakers, a, replies) <==> Passes(all, stakers, b, replies)
  {
    forall s | s in all ensures NodePasses(all, stakers, a, replies, s) <==> NodePasses(all, stakers, b, replies, s) {
      assert Acceptable(all, stakers, a, s) == Acceptable(all, stakers, b, s);
    }
  }

  // ---- What a passing check means ----

  ghost predicate Answered(all: set<ServiceId>, replies: map<ServiceId, Reply>) {
    all <= replies.Keys && forall s :: s in all ==> replies[s].Peers?
  }

  ghost predicate CleanLists(all: set<ServiceId>, replies: map<ServiceId, Reply>) {
    Answered(all, replies) && forall s :: s in all ==> NoDup(replies[s].ids)
  }

  /** t is a peer of s. */
  ghost predicate Edge(nodeIds: map<ServiceId, NodeId>, replies: map<ServiceId, Reply>, s: ServiceId, t: ServiceId)
    requires s in replies && replies[s].Peers? && t in nodeIds
  {
    nodeIds[t] in replies[s].ids
  }

  /** Exactly the pairs with a staker are connected, and every listed peer is another known node. */
  ghost predicate FullyConnected(all: set<ServiceId>, stakers: set<ServiceId>, nodeIds: map<ServiceId, NodeId>,
                                 replies: map<ServiceId, Reply>)
    requires all <= nodeIds.Keys && Answered(all, replies)
  {
    && (forall s, t :: s in all && t in all && s != t ==> (Edge(nodeIds, replies, s, t) <==> s in stakers || t in stakers))
    && (forall s, p :: s in all && p in replies[s].ids ==> exists t :: t in all && t != s && nodeIds[t] == p)
  }

  lemma AcceptableIsImage(all: set<ServiceId>, stakers: set<ServiceId>, nodeIds: map<ServiceId, NodeId>, s: ServiceId)
    requires InjectiveOn(nodeIds, all)
    ensures Acceptable(all, stakers, nodeIds, s) == Image(nodeIds, ExpectedServices(all, stakers, s))
    ensures |Acceptable(all, stakers, nodeIds, s)| == |ExpectedServices(all, stakers, s)|
    ensures s in all ==> forall t :: t in all && t != s ==>
              (nodeIds[t] in Acceptable(all, stakers, nodeIds, s) <==> s in stakers || t in stakers)
  {
    assert Acceptable(all, stakers, nodeIds, s) == Image(nodeIds, ExpectedServices(all, stakers, s));
    ImageSize(nodeIds, ExpectedServices(all, stakers, s));
  }

  /** On a list without duplicates the count and the membership test together pin the list down. */
  lemma ExactListIff(ids: seq<NodeId>, acceptable: set<NodeId>)
    requires NoDup(ids)
    ensures PeersOk(Peers(ids), acceptable, |acceptable|, false) <==> Elems(ids) == acceptable
  {
    NoDupSize(ids);
    if PeersOk(Peers(ids), acceptable, |acceptable|, false) {
      SubsetSize(Elems(ids), acceptable);
    }
  }

  /** With duplicates an accepted list misses someone: it is complete exactly when it is duplicate-free. */
  lemma AcceptedCompleteIffNoDup(ids: seq<NodeId>, acceptable: set<NodeId>)
    requires PeersOk(Peers(ids), acceptable, |acceptable|, false)
    ensures Elems(ids) == acceptable <==> NoDup(ids)
  {
    NoDupSize(ids);
    SubsetSize(Elems(ids), acceptable);
  }

  /** The check decides the shape of the whole graph. */
  lemma CheckIff(all: set<ServiceId>, stakers: set<ServiceId>, nodeIds: map<ServiceId, NodeId>, replies: map<ServiceId, Reply>)
    requires InjectiveOn(nodeIds, all) && CleanLists(all, replies)
    ensures Passes(all, stakers, nodeIds, replies) <==> FullyConnected(all, stakers, nodeIds, replies)
  {
    forall s | s in all
      ensures NodePasses(all, stakers, nodeIds, replies, s) <==>
              Elems(replies[s].ids) == Image(nodeIds, ExpectedServices(all, stakers, s))
    {
      AcceptableIsImage(all, stakers, nodeIds, s);
      ExactListIff(replies[s].ids, Acceptable(all, stakers, nodeIds, s));
    }
    if Passes(all, stakers, nodeIds, replies) {
      PassMeansConnected(all, stakers, nodeIds, replies);
    }
    if FullyConnected(all, stakers, nodeIds, replies) {
      forall s | s in all ensures Elems(replies[s].ids) == Image(nodeIds, ExpectedServices(all, stakers, s)) {
        forall p | p in replies[s].ids ensures p in Image(nodeIds, ExpectedServices(all, stakers, s)) {
          var t :| t in all && t != s && nodeIds[t] == p;
          assert Edge(nodeIds, replies, s, t);
        }
        forall p | p in Image(nodeIds, ExpectedServices(all, stakers, s)) ensures p in replies[s].ids {
          var t :| t in ExpectedServices(all, stakers, s) && nodeIds[t] == p;
          assert Edge(nodeIds, replies, s, t);
        }
      }
    }
  }

  /** No two of these services have the same node ID, as far as they have one. */
  ghost predicate UniqueIds(ids: map<ServiceId, NodeId>, services: set<ServiceId>) {
    forall a, b :: a in services && b in services && a in ids && b in ids && ids[a] == ids[b] ==> a == b
  }

  /** Whoever answers lists nobody twice. */
  ghost predicate Tidy(services: set<ServiceId>, replies: map<ServiceId, Reply>) {
    services <= replies.Keys && forall s :: s in services && replies[s].Peers? ==> NoDup(replies[s].ids)
  }

  /** All have IDs and answer, and exactly the pairs with a staker are connected. */
  ghost predicate Connected(all: set<ServiceId>, stakers: set<ServiceId>, ids: map<ServiceId, NodeId>,
                            replies: map<ServiceId, Reply>)
  {
    all <= ids.Keys && Answered(all, replies) && FullyConnected(all, stakers, ids, replies)
  }

  /** On known unique IDs and tidy replies the check decides the shape, unanswered queries included. */
  lemma CheckShape(all: set<ServiceId>, stakers: set<ServiceId>, ids: map<ServiceId, NodeId>, replies: map<ServiceId, Reply>)
    requires all <= ids.Keys && UniqueIds(ids, all) && Tidy(all, replies)
    ensures Passes(all, stakers, ids, replies) <==> Connected(all, stakers, ids, replies)
  {
    if Answered(all, replies) {
      CheckIff(all, stakers, ids, replies);
    } else {
      var s :| s in all && !replies[s].Peers?;
      assert !NodePasses(all, stakers, ids, replies, s);
    }
  }

  lemma PassMeansConnected(all: set<ServiceId>, stakers: set<ServiceId>, nodeIds: map<ServiceId, NodeId>,
                           replies: map<ServiceId, Reply>)
    requires InjectiveOn(nodeIds, all) && Answered(all, replies)
    requires forall s :: s in all ==> Elems(replies[s].ids) == Image(nodeIds, ExpectedServices(all, stakers, s))
    ensures FullyConnected(all, stakers, nodeIds, replies)
  {
    forall s, t | s in all && t in all && s != t
      ensures Edge(nodeIds, replies, s, t) <==> s in stakers || t in stakers
    {
      assert Edge(nodeIds, replies, s, t) <==> nodeIds[t] in Elems(replies[s].ids);
    }
    forall s, p | s in all && p in replies[s].ids ensures exists t :: t in all && t != s && nodeIds[t] == p {
      assert p in Elems(replies[s].ids);
    }
  }
}
