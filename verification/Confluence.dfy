/** Several clients' chains issued to one ledger in any order. */
module Confluence {
  import opened MachineInt
  import opened Options
  import opened TxChain
  import opened UtxoLedger

  datatype Client = Client(plan: Plan, n: nat)

  /**
   * `txs` merges the lists: each list is used up, front to back, and nothing else is added.
   */
  ghost predicate IsInterleaving<T>(txs: seq<T>, lists: seq<seq<T>>)
    decreases |txs|
  {
    if txs == [] then
      forall c :: 0 <= c < |lists| ==> lists[c] == []
    else
      exists c :: 0 <= c < |lists| && lists[c] != [] && lists[c][0] == txs[0] &&
                  IsInterleaving(txs[1..], lists[c := lists[c][1..]])
  }

  /** What each client still has to issue after its first pos[c] transactions. */
  function Rest(cl: seq<Client>, pos: seq<nat>): (lists: seq<seq<Tx>>)
    requires |pos| == |cl| && forall c :: 0 <= c < |cl| ==> pos[c] <= cl[c].n
    ensures |lists| == |cl|
    ensures forall c :: 0 <= c < |cl| ==> lists[c] == cl[c].plan.Chain(cl[c].n)[pos[c]..]
  {
    seq(|cl|, c requires 0 <= c < |cl| => cl[c].plan.Chain(cl[c].n)[pos[c]..])
  }

  function Lists(cl: seq<Client>): seq<seq<Tx>> {
    Rest(cl, NoneIssued(cl))
  }

  function NoneIssued(cl: seq<Client>): (pos: seq<nat>)
    ensures |pos| == |cl| && forall c :: 0 <= c < |cl| ==> pos[c] == 0
  {
    seq(|cl|, c => 0)
  }

  function AllIssued(cl: seq<Client>): (pos: seq<nat>)
    ensures |pos| == |cl| && forall c :: 0 <= c < |cl| ==> pos[c] == cl[c].n
  {
    seq(|cl|, c requires 0 <= c < |cl| => cl[c].n)
  }

  ghost predicate ClientReady(base: Ledger, fee: nat, client: Client) {
    Ready(base, client.plan, client.n) && client.plan.fee == fee && client.plan.Covers(client.n)
  }

  /** Every client's starting output is on the ledger, all are different, and no chain has begun. */
  ghost predicate Funded(base: Ledger, fee: nat, cl: seq<Client>) {
    && (forall c :: 0 <= c < |cl| ==> ClientReady(base, fee, cl[c]))
    && (forall c, d :: 0 <= c < d < |cl| ==> cl[c].plan.start != cl[d].plan.start)
  }

  ghost predicate Within(cl: seq<Client>, pos: seq<nat>) {
    |pos| == |cl| && forall c :: 0 <= c < |cl| ==> pos[c] <= cl[c].n
  }

  ghost predicate IsHead(cl: seq<Client>, pos: seq<nat>, id: UtxoId)
    requires |pos| == |cl|
  {
    exists c :: 0 <= c < |cl| && id == cl[c].plan.Head(pos[c])
  }

  ghost predicate HoldsHead(coins: map<UtxoId, Coin>, cl: seq<Client>, pos: seq<nat>, c: nat)
    requires |pos| == |cl| && c < |cl|
  {
    cl[c].plan.Head(pos[c]) in coins && coins[cl[c].plan.Head(pos[c])] == HeadCoin(cl[c].plan, pos[c])
  }

  /** A coin of the base ledger that no client spends. */
  ghost predicate Bystander(base: Ledger, cl: seq<Client>, id: UtxoId) {
    id in base.coins && forall c :: 0 <= c < |cl| ==> id != cl[c].plan.start
  }

  function HeadCoin(p: Plan, k: nat): Coin {
    Coin(p.Amount(k), p.owner)
  }

  /**
   * The coins once client c has issued pos[c] transactions: each starting output is replaced by the client's
   * latest output and the rest is untouched. The issue order does not appear.
   */
  ghost predicate At(coins: map<UtxoId, Coin>, base: Ledger, cl: seq<Client>, pos: seq<nat>)
    requires |pos| == |cl|
  {
    && (forall c :: 0 <= c < |cl| ==> HoldsHead(coins, cl, pos, c))
    && (forall id :: Bystander(base, cl, id) ==> id in coins && coins[id] == base.coins[id])
    && (forall id :: id in coins ==> IsHead(cl, pos, id) || Bystander(base, cl, id))
  }

  lemma AtUnique(a: map<UtxoId, Coin>, b: map<UtxoId, Coin>, base: Ledger, cl: seq<Client>, pos: seq<nat>)
    requires |pos| == |cl| && At(a, base, cl, pos) && At(b, base, cl, pos)
    ensures a == b
  {
    AtIncluded(a, b, base, cl, pos);
    AtIncluded(b, a, base, cl, pos);
  }

  lemma AtIncluded(a: map<UtxoId, Coin>, b: map<UtxoId, Coin>, base: Ledger, cl: seq<Client>, pos: seq<nat>)
    requires |pos| == |cl| && At(a, base, cl, pos) && At(b, base, cl, pos)
    ensures forall id :: id in a ==> id in b && a[id] == b[id]
  {
    forall id | id in a ensures id in b && a[id] == b[id] {
      if IsHead(cl, pos, id) {
        var c :| 0 <= c < |cl| && id == cl[c].plan.Head(pos[c]);
        assert HoldsHead(a, cl, pos, c) && HoldsHead(b, cl, pos, c);
      }
    }
  }

  /** Different clients never own the same output, and no client's output is a bystander. */
  lemma HeadsApart(base: Ledger, fee: nat, cl: seq<Client>, c: nat, d: nat, i: nat, j: nat)
    requires Funded(base, fee, cl)
    requires c < |cl| && d < |cl| && i <= cl[c].n && j <= cl[d].n
    requires cl[c].plan.Head(i) == cl[d].plan.Head(j)
    ensures c == d && i == j
  {
    HeadsMeet(cl[c].plan, cl[d].plan, i, j);
  }

  lemma HeadNotBystander(base: Ledger, fee: nat, cl: seq<Client>, c: nat, i: nat)
    requires Funded(base, fee, cl) && c < |cl| && i <= cl[c].n
    ensures !Bystander(base, cl, cl[c].plan.Head(i))
  {
    if i > 0 {
      assert cl[c].plan.Head(i) !in base.coins;
    }
  }

  function Spend(coins: map<UtxoId, Coin>, p: Plan, k: nat): map<UtxoId, Coin> {
    (coins - {p.Head(k)})[p.Head(k + 1) := HeadCoin(p, k + 1)]
  }

  /** The next transaction of a client is accepted and burns one fee. */
  lemma NextAccepted(l: Ledger, p: Plan, n: nat, k: nat)
    requires p.Covers(n) && k < n
    requires p.Head(k) in l.coins && l.coins[p.Head(k)] == HeadCoin(p, k)
    ensures Accepts(l, p.fee, p.Link(k)) && Apply(l, p.fee, p.Link(k)).burned == l.burned + p.fee
    ensures Apply(l, p.fee, p.Link(k)).coins == Spend(l.coins, p, k)
  {
    NoWrapBelow(p, n, k);
    NoWrapBelow(p, n, k + 1);
    assert (k + 1) * p.fee == k * p.fee + p.fee;
  }

  /** Spending one client's latest output for its next one leaves everything else where it was. */
  lemma AtStep(coins: map<UtxoId, Coin>, base: Ledger, fee: nat, cl: seq<Client>, pos: seq<nat>, c: nat)
    requires Funded(base, fee, cl) && Within(cl, pos) && At(coins, base, cl, pos)
    requires c < |cl| && pos[c] < cl[c].n
    ensures At(Spend(coins, cl[c].plan, pos[c]), base, cl, pos[c := pos[c] + 1])
  {
    var p, k := cl[c].plan, pos[c];
    var next := pos[c := k + 1];
    var after := Spend(coins, p, k);
    forall d | 0 <= d < |cl| && d != c
      ensures cl[d].plan.Head(pos[d]) != p.Head(k) && cl[d].plan.Head(pos[d]) != p.Head(k + 1)
    {
      if cl[d].plan.Head(pos[d]) == p.Head(k) { HeadsApart(base, fee, cl, d, c, pos[d], k); }
      if cl[d].plan.Head(pos[d]) == p.Head(k + 1) { HeadsApart(base, fee, cl, d, c, pos[d], k + 1); }
    }
    HeadNotBystander(base, fee, cl, c, k);
    HeadNotBystander(base, fee, cl, c, k + 1);
    AtAdvance(coins, after, base, cl, pos, c);
  }

  lemma AtAdvance(coins: map<UtxoId, Coin>, after: map<UtxoId, Coin>, base: Ledger, cl: seq<Client>, pos: seq<nat>, c: nat)
    requires |pos| == |cl| && At(coins, base, cl, pos) && c < |cl|
    requires var p, k := cl[c].plan, pos[c];
             && after == Spend(coins, p, k)
             && !Bystander(base, cl, p.Head(k)) && !Bystander(base, cl, p.Head(k + 1))
             && forall d :: 0 <= d < |cl| && d != c ==>
                  cl[d].plan.Head(pos[d]) != p.Head(k) && cl[d].plan.Head(pos[d]) != p.Head(k + 1)
    ensures At(after, base, cl, pos[c := pos[c] + 1])
  {
    var next := pos[c := pos[c] + 1];
    forall id | id in after ensures IsHead(cl, next, id) || Bystander(base, cl, id) {
      if id == cl[c].plan.Head(next[c]) {
      } else if IsHead(cl, pos, id) {
        var d :| 0 <= d < |cl| && id == cl[d].plan.Head(pos[d]);
        assert id == cl[d].plan.Head(next[d]);
      }
    }
    forall d | 0 <= d < |cl| ensures HoldsHead(after, cl, next, d) {
      assert HoldsHead(coins, cl, pos, d);
    }
  }

  lemma OneClient(coins: map<UtxoId, Coin>, base: Ledger, fee: nat, cl: seq<Client>, pos: seq<nat>, c: nat)
    requires Funded(base, fee, cl) && |pos| == |cl| && At(coins, base, cl, pos) && c < |cl|
    ensures var p := cl[c].plan;
            && p.Head(pos[c]) in coins && coins[p.Head(pos[c])] == HeadCoin(p, pos[c])
            && p.fee == fee && p.Covers(cl[c].n) && p.Link(pos[c]).input == p.Head(pos[c])
  {
    assert HoldsHead(coins, cl, pos, c) && ClientReady(base, fee, cl[c]);
  }

  /** One client issues its next transaction: accepted, one fee burned, and the shape of the ledger is kept. */
  lemma StepKeepsAt(l: Ledger, base: Ledger, fee: nat, cl: seq<Client>, pos: seq<nat>, c: nat)
    requires Funded(base, fee, cl) && Within(cl, pos) && At(l.coins, base, cl, pos)
    requires c < |cl| && pos[c] < cl[c].n
    ensures var tx := cl[c].plan.Link(pos[c]);
            && Accepts(l, fee, tx)
            && At(Apply(l, fee, tx).coins, base, cl, pos[c := pos[c] + 1])
            && Apply(l, fee, tx).burned == l.burned + fee
  {
    assert |pos| == |cl|;
    hide *;
    OneClient(l.coins, base, fee, cl, pos, c);
    NextAccepted(l, cl[c].plan, cl[c].n, pos[c]);
    AtStep(l.coins, base, fee, cl, pos, c);
  }

  /** From any common progress on, every merge of what is left is accepted and leads to the same coins. */
  lemma {:induction false} MergeRuns(txs: seq<Tx>, l: Ledger, base: Ledger, fee: nat, cl: seq<Client>, pos: seq<nat>)
    requires Funded(base, fee, cl) && Within(cl, pos) && At(l.coins, base, cl, pos)
    requires IsInterleaving(txs, Rest(cl, pos))
    ensures Run(l, fee, txs).Some?
    ensures At(Run(l, fee, txs).value.coins, base, cl, AllIssued(cl))
    ensures Run(l, fee, txs).value.burned == l.burned + |txs| * fee
    decreases |txs|
  {
    hide At, Funded, Plan.Amount;
    var lists := Rest(cl, pos);
    if txs == [] {
      forall c | 0 <= c < |cl| ensures pos[c] == cl[c].n {
        assert lists[c] == [];
      }
      assert pos == AllIssued(cl);
    } else {
      var c := NextClient(txs, cl, pos);
      StepKeepsAt(l, base, fee, cl, pos, c);
      MergeRuns(txs[1..], Apply(l, fee, txs[0]), base, fee, cl, pos[c := pos[c] + 1]);
      assert |txs| * fee == fee + (|txs| - 1) * fee;
    }
  }

  /** The client whose transaction comes first in a merge. */
  lemma NextClient(txs: seq<Tx>, cl: seq<Client>, pos: seq<nat>) returns (c: nat)
    requires Within(cl, pos) && txs != [] && IsInterleaving(txs, Rest(cl, pos))
    ensures c < |cl| && pos[c] < cl[c].n && txs[0] == cl[c].plan.Link(pos[c])
    ensures IsInterleaving(txs[1..], Rest(cl, pos[c := pos[c] + 1]))
  {
    var lists := Rest(cl, pos);
    c :| 0 <= c < |lists| && lists[c] != [] && lists[c][0] == txs[0] &&
         IsInterleaving(txs[1..], lists[c := lists[c][1..]]);
    assert lists[c := lists[c][1..]] == Rest(cl, pos[c := pos[c] + 1]);
  }

  /**
   * Confluence: every interleaving that keeps each client's order is accepted in full, and all of them end in the
   * same ledger, in which each starting output is replaced by its chain's last output.
   */
  lemma Confluent(base: Ledger, fee: nat, cl: seq<Client>, txs: seq<Tx>, other: seq<Tx>)
    requires Funded(base, fee, cl)
    requires IsInterleaving(txs, Lists(cl)) && IsInterleaving(other, Lists(cl))
    ensures Run(base, fee, txs).Some?
    ensures At(Run(base, fee, txs).value.coins, base, cl, AllIssued(cl))
    ensures Run(base, fee, txs).value.burned == base.burned + SumLengths(Lists(cl)) * fee
    ensures Run(base, fee, txs) == Run(base, fee, other)
  {
    hide At, Funded, IsInterleaving, Rest, Run, SumLengths;
    StartsAt(base, fee, cl);
    MergeRuns(txs, base, base, fee, cl, NoneIssued(cl));
    MergeRuns(other, base, base, fee, cl, NoneIssued(cl));
    AtUnique(Run(base, fee, txs).value.coins, Run(base, fee, other).value.coins, base, cl, AllIssued(cl));
    InterleavingLength(txs, Lists(cl));
    InterleavingLength(other, Lists(cl));
  }

  lemma StartsAt(base: Ledger, fee: nat, cl: seq<Client>)
    requires Funded(base, fee, cl)
    ensures At(base.coins, base, cl, NoneIssued(cl))
  {
    var pos := NoneIssued(cl);
    forall c | 0 <= c < |cl| ensures HoldsHead(base.coins, cl, pos, c) {
      NoWrapBelow(cl[c].plan, cl[c].n, 0);
    }
    forall id | id in base.coins ensures IsHead(cl, pos, id) || Bystander(base, cl, id) {
      if !Bystander(base, cl, id) {
        var c :| 0 <= c < |cl| && id == cl[c].plan.start;
        assert id == cl[c].plan.Head(pos[c]);
      }
    }
  }

  // ---- Interleavings in general ----

  function SumLengths<T>(lists: seq<seq<T>>): nat {
    if lists == [] then 0 else |lists[0]| + SumLengths(lists[1..])
  }

  lemma {:induction false} SumLengthsDrop<T>(lists: seq<seq<T>>, c: nat)
    requires c < |lists| && lists[c] != []
    ensures SumLengths(lists) == 1 + SumLengths(lists[c := lists[c][1..]])
  {
    var after := lists[c := lists[c][1..]];
    if c == 0 {
      assert after[1..] == lists[1..];
    } else {
      assert after[1..] == lists[1..][c - 1 := lists[c][1..]];
      SumLengthsDrop(lists[1..], c - 1);
    }
  }

  lemma {:induction false} SumLengthsEmpty<T>(lists: seq<seq<T>>)
    requires forall c :: 0 <= c < |lists| ==> lists[c] == []
    ensures SumLengths(lists) == 0
  {
    if lists != [] {
      SumLengthsEmpty(lists[1..]);
    }
  }

  lemma {:induction false} InterleavingLength<T>(txs: seq<T>, lists: seq<seq<T>>)
    requires IsInterleaving(txs, lists)
    ensures |txs| == SumLengths(lists)
    decreases |txs|
  {
    if txs == [] {
      SumLengthsEmpty(lists);
    } else {
      var c :| 0 <= c < |lists| && lists[c] != [] && lists[c][0] == txs[0] &&
               IsInterleaving(txs[1..], lists[c := lists[c][1..]]);
      SumLengthsDrop(lists, c);
      InterleavingLength(txs[1..], lists[c := lists[c][1..]]);
    }
  }

  /** The lists one after the other, as the executor issues them. */
  function Flatten<T>(lists: seq<seq<T>>): seq<T> {
    if lists == [] then [] else lists[0] + Flatten(lists[1..])
  }

  lemma {:induction false} FlattenIsInterleaving<T>(lists: seq<seq<T>>, done: nat)
    requires done <= |lists| && forall c :: 0 <= c < done ==> lists[c] == []
    ensures IsInterleaving(Flatten(lists[done..]), lists)
    decreases |lists| - done, if done < |lists| then |lists[done]| else 0
  {
    if done < |lists| {
      var rest := lists[done..];
      if lists[done] == [] {
        assert rest[1..] == lists[done + 1..];
        assert rest[0] + Flatten(rest[1..]) == Flatten(rest[1..]);
        FlattenIsInterleaving(lists, done + 1);
      } else {
        var after := lists[done := lists[done][1..]];
        FlattenIsInterleaving(after, done);
        assert after[done..][1..] == rest[1..];
        assert Flatten(rest) == [lists[done][0]] + Flatten(after[done..]);
        assert Flatten(rest)[1..] == Flatten(after[done..]);
      }
    }
  }
}
