/** Awaiting list after list when the error of one list is dropped: what has been confirmed in the end, and when. */
module Confirmation {
  import opened Polling
  import opened Confluence

  /** Each list is awaited where the one before it ended, well or not. */
  function AwaitEach(env: Env, chain: Chain, lists: seq<seq<TxId>>, w: World): World {
    if lists == [] then w else AwaitEach(env, chain, lists[1..], AwaitAll(env, chain, lists[0], w).w)
  }

  function Since(w: World, later: World): seq<Event>
    requires w.log <= later.log
  {
    later.log[|w.log|..]
  }

  /** The transactions that were seen accepted. */
  function Confirmed(events: seq<Event>): set<TxId> {
    set e | e in events && e.Seen? && e.verdict == Success :: e.tx
  }

  function Elements<T>(xs: seq<T>): set<T> {
    set x | x in xs
  }

  ghost predicate Distinct<T>(xs: seq<T>) {
    forall i, j :: 0 <= i < j < |xs| ==> xs[i] != xs[j]
  }

  lemma ConfirmedInTwo(a: World, b: World, c: World)
    requires a.log <= b.log <= c.log
    ensures Confirmed(Since(a, c)) == Confirmed(Since(a, b)) + Confirmed(Since(b, c))
  {
    assert Since(a, c) == Since(a, b) + Since(b, c);
  }

  lemma {:induction false} WaitConfirms(env: Env, chain: Chain, tx: TxId, start: int, w: World)
    ensures var r := Wait(env, chain, tx, start, w);
            w.log <= r.w.log && Confirmed(Since(w, r.w)) == if r.Ok? then {tx} else {}
    decreases if w.now - start < env.timeout then start + env.timeout - w.now else 0
  {
    if w.now - start < env.timeout {
      var q := Queried(env, chain, tx, w);
      assert q.log == w.log + [Seen(chain, tx, env.Judge(chain, tx, w.calls))];
      assert Since(w, q) == [Seen(chain, tx, env.Judge(chain, tx, w.calls))];
      if env.Judge(chain, tx, w.calls) == Pending {
        WaitConfirms(env, chain, tx, start, Slept(env, q));
        ConfirmedInTwo(w, Slept(env, q), Wait(env, chain, tx, start, w).w);
      }
    }
  }

  /** One list: nothing outside it is confirmed, and all of it exactly when awaiting it succeeds. */
  lemma {:induction false} AwaitConfirms(env: Env, chain: Chain, txs: seq<TxId>, w: World)
    requires Distinct(txs)
    ensures var r := AwaitAll(env, chain, txs, w);
            && w.log <= r.w.log && Confirmed(Since(w, r.w)) <= Elements(txs)
            && (r.Ok? <==> Confirmed(Since(w, r.w)) == Elements(txs))
    decreases |txs|
  {
    if txs != [] {
      WaitConfirms(env, chain, txs[0], w.now, w);
      var first := WaitTx(env, chain, txs[0], w);
      assert Elements(txs) == {txs[0]} + Elements(txs[1..]);
      if first.Ok? {
        AwaitConfirms(env, chain, txs[1..], first.w);
        ConfirmedInTwo(w, first.w, AwaitAll(env, chain, txs, w).w);
        assert txs[0] !in Elements(txs[1..]);
      } else {
        assert txs[0] in Elements(txs);
      }
    }
  }

  /** A list that fails does not keep the ones after it from being awaited: each is asked about, in the end. */
  lemma {:induction false} EachIsAsked(env: Env, chain: Chain, lists: seq<seq<TxId>>, w: World, i: nat)
    requires env.timeout > 0 && i < |lists| && lists[i] != []
    ensures exists v :: Seen(chain, lists[i][0], v) in AwaitEach(env, chain, lists, w).log
    decreases |lists|
  {
    var mid := AwaitAll(env, chain, lists[0], w).w;
    if i == 0 {
      FirstIsAsked(env, chain, lists[0], w);
      EachKeepsLog(env, chain, lists[1..], mid);
    } else {
      EachIsAsked(env, chain, lists[1..], mid, i - 1);
    }
  }

  lemma FirstIsAsked(env: Env, chain: Chain, txs: seq<TxId>, w: World)
    requires env.timeout > 0 && txs != []
    ensures exists v :: Seen(chain, txs[0], v) in AwaitAll(env, chain, txs, w).w.log
  {
    var q := Queried(env, chain, txs[0], w);
    assert Seen(chain, txs[0], env.Judge(chain, txs[0], w.calls)) in q.log;
    WaitKeepsLog(env, chain, txs[0], w.now, Slept(env, q));
    var first := WaitTx(env, chain, txs[0], w);
    AwaitKeepsLog(env, chain, txs[1..], first.w);
  }

  lemma WaitKeepsLog(env: Env, chain: Chain, tx: TxId, start: int, w: World)
    ensures w.log <= Wait(env, chain, tx, start, w).w.log
  {
    WaitConfirms(env, chain, tx, start, w);
  }

  lemma {:induction false} AwaitKeepsLog(env: Env, chain: Chain, txs: seq<TxId>, w: World)
    ensures w.log <= AwaitAll(env, chain, txs, w).w.log
    decreases |txs|
  {
    if txs != [] {
      WaitKeepsLog(env, chain, txs[0], w.now, w);
      AwaitKeepsLog(env, chain, txs[1..], WaitTx(env, chain, txs[0], w).w);
    }
  }

  lemma {:induction false} EachKeepsLog(env: Env, chain: Chain, lists: seq<seq<TxId>>, w: World)
    ensures w.log <= AwaitEach(env, chain, lists, w).log
    decreases |lists|
  {
    if lists != [] {
      AwaitKeepsLog(env, chain, lists[0], w);
      EachKeepsLog(env, chain, lists[1..], AwaitAll(env, chain, lists[0], w).w);
    }
  }

  ghost predicate EachSucceeds(env: Env, chain: Chain, lists: seq<seq<TxId>>, w: World) {
    forall i :: 0 <= i < |lists| ==> AwaitAll(env, chain, lists[i], AwaitEach(env, chain, lists[..i], w)).Ok?
  }

  /** Everything is confirmed exactly when no error was dropped. */
  lemma {:induction false} EachConfirms(env: Env, chain: Chain, lists: seq<seq<TxId>>, w: World)
    requires Distinct(Flatten(lists))
    ensures var last := AwaitEach(env, chain, lists, w);
            && w.log <= last.log && Confirmed(Since(w, last)) <= Elements(Flatten(lists))
            && (EachSucceeds(env, chain, lists, w) <==> Confirmed(Since(w, last)) == Elements(Flatten(lists)))
    decreases |lists|
  {
    if lists != [] {
      var head, tail := lists[0], Flatten(lists[1..]);
      assert Flatten(lists) == head + tail;
      DistinctParts(head, tail);
      AwaitConfirms(env, chain, head, w);
      var mid := AwaitAll(env, chain, head, w).w;
      EachConfirms(env, chain, lists[1..], mid);
      ConfirmedInTwo(w, mid, AwaitEach(env, chain, lists, w));
      EachSucceedsHead(env, chain, lists, w);
      assert Elements(Flatten(lists)) == Elements(head) + Elements(tail);
      UnionIff(Confirmed(Since(w, mid)), Confirmed(Since(mid, AwaitEach(env, chain, lists, w))), Elements(head), Elements(tail));
    }
  }

  lemma DistinctParts<T>(a: seq<T>, b: seq<T>)
    requires Distinct(a + b)
    ensures Distinct(a) && Distinct(b) && Elements(a) !! Elements(b)
  {
    forall i, j | 0 <= i < j < |b| ensures b[i] != b[j] {
      assert b[i] == (a + b)[|a| + i] && b[j] == (a + b)[|a| + j];
    }
    forall i, j | 0 <= i < j < |a| ensures a[i] != a[j] {
      assert a[i] == (a + b)[i] && a[j] == (a + b)[j];
    }
    forall x | x in a ensures x !in b {
      var i :| 0 <= i < |a| && a[i] == x;
      forall j | 0 <= j < |b| ensures b[j] != x {
        assert (a + b)[i] != (a + b)[|a| + j];
      }
    }
  }

  lemma {:induction false} FlattenElement<T>(lists: seq<seq<T>>, x: T)
    requires x in Flatten(lists)
    ensures exists c, i :: 0 <= c < |lists| && 0 <= i < |lists[c]| && lists[c][i] == x
  {
    if x in lists[0] {
      var i :| 0 <= i < |lists[0]| && lists[0][i] == x;
    } else {
      FlattenElement(lists[1..], x);
      var c, i :| 0 <= c < |lists| - 1 && 0 <= i < |lists[1..][c]| && lists[1..][c][i] == x;
      assert lists[c + 1][i] == x;
    }
  }

  /** No entry occurs twice, in one list or in two. */
  ghost predicate AllDifferent<T>(lists: seq<seq<T>>) {
    forall c, i, d, j | 0 <= c < |lists| && 0 <= i < |lists[c]| && 0 <= d < |lists| && 0 <= j < |lists[d]| ::
      lists[c][i] == lists[d][j] ==> c == d && i == j
  }

  lemma {:induction false} FlattenDistinct<T>(lists: seq<seq<T>>)
    requires AllDifferent(lists)
    ensures Distinct(Flatten(lists))
  {
    if lists != [] {
      var head, tail := lists[0], Flatten(lists[1..]);
      forall c, i, d, j | 0 <= c < |lists| - 1 && 0 <= i < |lists[1..][c]| && 0 <= d < |lists| - 1 && 0 <= j < |lists[1..][d]|
        ensures lists[1..][c][i] == lists[1..][d][j] ==> c == d && i == j
      {
        assert lists[1..][c][i] == lists[c + 1][i] && lists[1..][d][j] == lists[d + 1][j];
      }
      FlattenDistinct(lists[1..]);
      forall i, x | 0 <= i < |head| && x in tail ensures head[i] != x {
        FlattenElement(lists[1..], x);
        var d, j :| 0 <= d < |lists| - 1 && 0 <= j < |lists[1..][d]| && lists[1..][d][j] == x;
        assert lists[d + 1][j] == x;
      }
      forall i, j | 0 <= i < j < |head| ensures head[i] != head[j] {
        assert lists[0][i] != lists[0][j];
      }
      forall i, j | 0 <= i < j < |head + tail| ensures (head + tail)[i] != (head + tail)[j] {
        assert j >= |head| ==> (head + tail)[j] in tail;
      }
    }
  }

  lemma UnionIff<T>(a: set<T>, b: set<T>, A: set<T>, B: set<T>)
    requires a <= A && b <= B && A !! B
    ensures a + b <= A + B && (a + b == A + B <==> a == A && b == B)
  {
    if a + b == A + B {
      forall x | x in A ensures x in a {
        assert x in a + b;
      }
      forall x | x in B ensures x in b {
        assert x in a + b;
      }
    }
  }

  lemma EachSucceedsHead(env: Env, chain: Chain, lists: seq<seq<TxId>>, w: World)
    requires lists != []
    ensures EachSucceeds(env, chain, lists, w) <==>
              && AwaitAll(env, chain, lists[0], w).Ok?
              && EachSucceeds(env, chain, lists[1..], AwaitAll(env, chain, lists[0], w).w)
  {
    var mid := AwaitAll(env, chain, lists[0], w).w;
    assert AwaitEach(env, chain, lists[..0], w) == w;
    forall i | 0 <= i < |lists| - 1
      ensures lists[1..][i] == lists[i + 1]
      ensures AwaitEach(env, chain, lists[1..][..i], mid) == AwaitEach(env, chain, lists[..i + 1], w)
    {
      assert lists[1..][..i] == lists[..i + 1][1..];
    }
  }

  // ---- In terms of the network's answers ----

  /** Where the wait for the j-th transaction of the i-th list begins. */
  function WaitFrom(env: Env, chain: Chain, lists: seq<seq<TxId>>, w: World, i: nat, j: nat): World
    requires i < |lists| && j < |lists[i]|
  {
    AwaitAll(env, chain, lists[i][..j], AwaitEach(env, chain, lists[..i], w)).w
  }

  /** The first decisive answer to its wait says accepted, or committed on the P-chain. */
  ghost predicate AnsweredInTime(env: Env, chain: Chain, tx: TxId, w: World) {
    match chain
    case X => AcceptedInTime(env, tx, w)
    case P => CommittedInTime(env, tx, w)
  }

  lemma {:induction false} AwaitAnswers(env: Env, chain: Chain, txs: seq<TxId>, w: World, n: nat)
    requires n <= |txs|
    ensures AwaitAll(env, chain, txs[..n], w).Ok? <==>
              forall j :: 0 <= j < n ==> AnsweredInTime(env, chain, txs[j], AwaitAll(env, chain, txs[..j], w).w)
  {
    if n > 0 {
      AwaitAnswers(env, chain, txs, w, n - 1);
      AwaitAppend(env, chain, txs[..n - 1], txs[n - 1], w);
      assert txs[..n - 1] + [txs[n - 1]] == txs[..n];
      var before := AwaitAll(env, chain, txs[..n - 1], w).w;
      XWaitIff(env, txs[n - 1], before);
      PWaitIff(env, txs[n - 1], before);
    }
  }

  /** Everything is confirmed exactly when every wait, begun where the last one ended, is answered in time. */
  lemma ConfirmedIff(env: Env, chain: Chain, lists: seq<seq<TxId>>, w: World)
    requires Distinct(Flatten(lists))
    ensures w.log <= AwaitEach(env, chain, lists, w).log
    ensures Confirmed(Since(w, AwaitEach(env, chain, lists, w))) == Elements(Flatten(lists)) <==>
              forall i, j :: 0 <= i < |lists| && 0 <= j < |lists[i]| ==>
                AnsweredInTime(env, chain, lists[i][j], WaitFrom(env, chain, lists, w, i, j))
  {
    EachConfirms(env, chain, lists, w);
    hide AwaitAll, AnsweredInTime, Confirmed, Elements;
    forall i | 0 <= i < |lists|
      ensures AwaitAll(env, chain, lists[i], AwaitEach(env, chain, lists[..i], w)).Ok? <==>
                forall j :: 0 <= j < |lists[i]| ==>
                  AnsweredInTime(env, chain, lists[i][j], WaitFrom(env, chain, lists, w, i, j))
    {
      AwaitAnswers(env, chain, lists[i], AwaitEach(env, chain, lists[..i], w), |lists[i]|);
      assert lists[i][..|lists[i]|] == lists[i];
    }
  }

  // ---- A network that turns against the test ----

  /** From the k0-th call on every X-chain transaction is reported rejected. */
  function RejectingFrom(env: Env, k0: nat): Env {
    env.(xStatus := (tx: TxId, k: nat) => if k < k0 then env.xStatus(tx, k) else Status(Rejected))
  }

  lemma {:induction false} NothingConfirmed(env: Env, k0: nat, lists: seq<seq<TxId>>, w: World)
    requires w.calls >= k0
    ensures var last := AwaitEach(RejectingFrom(env, k0), X, lists, w);
            w.log <= last.log && last.calls >= w.calls && Confirmed(Since(w, last)) == {}
    decreases |lists|
  {
    if lists != [] {
      var r := RejectingFrom(env, k0);
      var mid := AwaitAll(r, X, lists[0], w).w;
      if lists[0] != [] {
        WaitConfirms(r, X, lists[0][0], w.now, w);
        assert mid == WaitTx(r, X, lists[0][0], w).w && WaitTx(r, X, lists[0][0], w).Err?;
      }
      NothingConfirmed(env, k0, lists[1..], mid);
      ConfirmedInTwo(w, mid, AwaitEach(r, X, lists, w));
    }
  }
}
