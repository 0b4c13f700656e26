/** What follows for the peer graph from a passing check. */
module PeerGraph {
  import opened Sets
  import opened PeerCheck

  /** A passing check on injective node IDs and duplicate-free lists. */
  ghost predicate Verified(all: set<ServiceId>, stakers: set<ServiceId>, nodeIds: map<ServiceId, NodeId>,
                           replies: map<ServiceId, Reply>)
  {
    InjectiveOn(nodeIds, all) && CleanLists(all, replies) && Passes(all, stakers, nodeIds, replies)
  }

  /** Symmetric, a clique on the stakers, and of diameter two once there is a staker. */
  lemma GraphShape(all: set<ServiceId>, stakers: set<ServiceId>, nodeIds: map<ServiceId, NodeId>,
                   replies: map<ServiceId, Reply>, s: ServiceId, t: ServiceId)
    requires Verified(all, stakers, nodeIds, replies) && s in all && t in all && s != t
    ensures Edge(nodeIds, replies, s, t) <==> Edge(nodeIds, replies, t, s)
    ensures s in stakers && t in stakers ==> Edge(nodeIds, replies, s, t)
    ensures all * stakers != {} ==>
              || Edge(nodeIds, replies, s, t)
              || exists via :: via in all && via != s && via != t && Edge(nodeIds, replies, s, via) && Edge(nodeIds, replies, via, t)
    ensures all * stakers == {} ==> !Edge(nodeIds, replies, s, t)
  {
    CheckIff(all, stakers, nodeIds, replies);
    if all * stakers != {} && !Edge(nodeIds, replies, s, t) {
      var via :| via in all * stakers;
      assert Edge(nodeIds, replies, s, via) && Edge(nodeIds, replies, via, t);
    }
    assert s in stakers ==> s in all * stakers;
    assert t in stakers ==> t in all * stakers;
  }

  /** The number of listed peers over a set of nodes. */
  ghost function DirectedEdges(nodes: set<ServiceId>, replies: map<ServiceId, Reply>): nat
    requires Answered(nodes, replies)
  {
    if nodes == {} then 0
    else
      var s :| s in nodes;
      |replies[s].ids| + DirectedEdges(nodes - {s}, replies)
  }

  /** A staker lists all others; a non-staker lists the stakers. */
  lemma ListLength(all: set<ServiceId>, stakers: set<ServiceId>, nodeIds: map<ServiceId, NodeId>,
                   replies: map<ServiceId, Reply>, s: ServiceId)
    requires Verified(all, stakers, nodeIds, replies) && s in all
    ensures |replies[s].ids| == if s in stakers then |all| - 1 else |all * stakers|
  {
    AcceptableIsImage(all, stakers, nodeIds, s);
    assert NodePasses(all, stakers, nodeIds, replies, s);
    if s in stakers {
      assert ExpectedServices(all, stakers, s) == all - {s};
    } else {
      assert ExpectedServices(all, stakers, s) == all * stakers;
    }
  }

  lemma {:induction false} EdgesOver(all: set<ServiceId>, stakers: set<ServiceId>, nodeIds: map<ServiceId, NodeId>,
                                     replies: map<ServiceId, Reply>, nodes: set<ServiceId>)
    requires Verified(all, stakers, nodeIds, replies) && nodes <= all
    ensures DirectedEdges(nodes, replies) == |nodes * stakers| * (|all| - 1) + |nodes - stakers| * |all * stakers|
    decreases |nodes|
  {
    assert Answered(nodes, replies);
    if nodes == {} {
      assert nodes * stakers == {} && nodes - stakers == {};
    } else {
      var s :| s in nodes && DirectedEdges(nodes, replies) == |replies[s].ids| + DirectedEdges(nodes - {s}, replies);
      hide *;
      EdgesOver(all, stakers, nodeIds, replies, nodes - {s});
      ListLength(all, stakers, nodeIds, replies, s);
      SplitOff(nodes, stakers, s);
      Distribute(|(nodes - {s}) * stakers|, |all| - 1);
      Distribute(|(nodes - {s}) - stakers|, |all * stakers|);
    }
  }

  lemma SplitOff(nodes: set<ServiceId>, stakers: set<ServiceId>, s: ServiceId)
    requires s in nodes
    ensures |nodes * stakers| == |(nodes - {s}) * stakers| + (if s in stakers then 1 else 0)
    ensures |nodes - stakers| == |(nodes - {s}) - stakers| + (if s in stakers then 0 else 1)
  {
    if s in stakers {
      assert nodes * stakers == ((nodes - {s}) * stakers) + {s};
      assert nodes - stakers == (nodes - {s}) - stakers;
    } else {
      assert nodes * stakers == (nodes - {s}) * stakers;
      assert nodes - stakers == ((nodes - {s}) - stakers) + {s};
    }
  }

  lemma Distribute(x: int, k: int)
    ensures (x + 1) * k == x * k + k
  {
  }

  /** With n nodes of which m do not stake, the lists name n(n-1) - m(m-1) peers in all. */
  lemma EdgeCount(all: set<ServiceId>, stakers: set<ServiceId>, nodeIds: map<ServiceId, NodeId>, replies: map<ServiceId, Reply>)
    requires Verified(all, stakers, nodeIds, replies)
    ensures var n, m := |all|, |all - stakers|;
            DirectedEdges(all, replies) == n * (n - 1) - m * (m - 1)
  {
    EdgesOver(all, stakers, nodeIds, replies, all);
    hide *;
    Parts(all, stakers);
    CountPairs(|all|, |all - stakers|, |all * stakers|);
  }

  lemma Parts<T>(all: set<T>, some: set<T>)
    ensures |all| == |all * some| + |all - some|
  {
    assert all == (all * some) + (all - some);
  }

  lemma CountPairs(n: int, m: int, k: int)
    requires n == k + m
    ensures k * (n - 1) + m * k == n * (n - 1) - m * (m - 1)
  {
    assert k * (n - 1) == n * (n - 1) - m * (n - 1);
    assert m * (n - 1) - m * k == m * (m - 1);
  }

  // ---- Promoting a node to staker ----

  /** Between the two checks the graph gains exactly the edges, both ways, between v and the other non-stakers. */
  lemma PromotionDelta(all: set<ServiceId>, stakers: set<ServiceId>, v: ServiceId, nodeIds: map<ServiceId, NodeId>,
                       before: map<ServiceId, Reply>, after: map<ServiceId, Reply>, s: ServiceId, t: ServiceId)
    requires v in all && v !in stakers
    requires Verified(all, stakers, nodeIds, before) && Verified(all, stakers + {v}, nodeIds, after)
    requires s in all && t in all && s != t
    ensures Edge(nodeIds, before, s, t) ==> Edge(nodeIds, after, s, t)
    ensures Edge(nodeIds, after, s, t) && !Edge(nodeIds, before, s, t) <==>
              (s == v && t !in stakers) || (t == v && s !in stakers)
  {
    CheckIff(all, stakers, nodeIds, before);
    CheckIff(all, stakers + {v}, nodeIds, after);
  }

  /** An unchanged graph passes the second check too exactly when v was the only non-staker. */
  lemma UnchangedPassesIff(all: set<ServiceId>, stakers: set<ServiceId>, v: ServiceId, nodeIds: map<ServiceId, NodeId>,
                           replies: map<ServiceId, Reply>)
    requires v in all && v !in stakers && Verified(all, stakers, nodeIds, replies)
    ensures Passes(all, stakers + {v}, nodeIds, replies) <==> all - stakers == {v}
  {
    CheckIff(all, stakers, nodeIds, replies);
    CheckIff(all, stakers + {v}, nodeIds, replies);
    if all - stakers != {v} {
      var w :| w in all - stakers && w != v;
      assert !Edge(nodeIds, replies, v, w);
    } else {
      forall s, t | s in all && t in all && s != t
        ensures Edge(nodeIds, replies, s, t) <==> s in stakers + {v} || t in stakers + {v}
      {
        assert s in stakers || s == v;
        assert t in stakers || t == v;
      }
    }
  }
}
