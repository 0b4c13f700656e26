/** The X-chain of a node, reduced to a ledger of unspent outputs. */
module UtxoLedger {
  import opened MachineInt
  import opened Options
  import opened Sets
  import opened TxChain

  datatype Coin = Coin(amt: nat, owner: Address)

  datatype Ledger = Ledger(coins: map<UtxoId, Coin>, burned: nat)

  /** The input exists, holds what the transaction says, belongs to the signer, and pays output and fee. */
  predicate Accepts(l: Ledger, fee: nat, tx: Tx) {
    && tx.input in l.coins
    && l.coins[tx.input] == Coin(tx.inAmt, tx.signer)
    && tx.outAmt + fee <= tx.inAmt
  }

  function Apply(l: Ledger, fee: nat, tx: Tx): Ledger
    requires Accepts(l, fee, tx)
  {
    Ledger((l.coins - {tx.input})[OutputOf(tx, 0) := Coin(tx.outAmt, tx.to)], l.burned + tx.inAmt - tx.outAmt)
  }

  /** All transactions in order, or None if one is refused. */
  function Run(l: Ledger, fee: nat, txs: seq<Tx>): Option<Ledger>
    decreases |txs|
  {
    if txs == [] then Some(l)
    else if Accepts(l, fee, txs[0]) then Run(Apply(l, fee, txs[0]), fee, txs[1..])
    else None
  }

  lemma {:induction false} RunAppend(l: Ledger, fee: nat, a: seq<Tx>, b: seq<Tx>)
    ensures Run(l, fee, a + b) == (match Run(l, fee, a) case None => None case Some(m) => Run(m, fee, b))
    decreases |a|
  {
    if a == [] {
      assert a + b == b;
    } else {
      assert (a + b)[1..] == a[1..] + b;
      if Accepts(l, fee, a[0]) {
        RunAppend(Apply(l, fee, a[0]), fee, a[1..], b);
      }
    }
  }

  /** A list accepted in full contains no transaction that creates money. */
  lemma {:induction false} AcceptedPayTheFee(l: Ledger, fee: nat, txs: seq<Tx>)
    requires Run(l, fee, txs).Some?
    ensures forall i :: 0 <= i < |txs| ==> txs[i].outAmt + fee <= txs[i].inAmt
    decreases |txs|
  {
    if txs != [] {
      AcceptedPayTheFee(Apply(l, fee, txs[0]), fee, txs[1..]);
      forall i | 0 < i < |txs| ensures txs[i].outAmt + fee <= txs[i].inAmt {
        assert txs[i] == txs[1..][i - 1];
      }
    }
  }

  // ---- Conservation ----

  function Amounts(coins: map<UtxoId, Coin>): map<UtxoId, nat> {
    map id | id in coins :: coins[id].amt
  }

  /** An accepted transaction with a new output moves money but neither makes nor loses any. */
  lemma ApplyConserves(l: Ledger, fee: nat, tx: Tx)
    requires Accepts(l, fee, tx) && OutputOf(tx, 0) !in l.coins
    ensures Sum(Amounts(Apply(l, fee, tx).coins)) + Apply(l, fee, tx).burned == Sum(Amounts(l.coins)) + l.burned
  {
    var out := OutputOf(tx, 0);
    var after := Apply(l, fee, tx).coins;
    SumWithout(Amounts(l.coins), tx.input);
    SumWithout(Amounts(after), out);
    assert Amounts(after) - {out} == Amounts(l.coins) - {tx.input};
  }

  /** `a` was spent on the way to making `b`. */
  predicate Ancestor(a: UtxoId, b: UtxoId) {
    match b
    case Genesis(_) => false
    case OutputOf(tx, _) => a == tx.input || Ancestor(a, tx.input)
  }

  /** No unspent output was spent on the way to making another. A ledger of genesis outputs is such a one. */
  ghost predicate Sound(coins: map<UtxoId, Coin>) {
    forall a, b :: a in coins && b in coins ==> !Ancestor(a, b)
  }

  lemma {:induction false} AncestorTrans(a: UtxoId, b: UtxoId, c: UtxoId)
    requires Ancestor(a, b) && Ancestor(b, c)
    ensures Ancestor(a, c)
    decreases c
  {
    if b != c.tx.input {
      AncestorTrans(a, b, c.tx.input);
    }
  }

  lemma {:induction false} AncestorDepth(a: UtxoId, b: UtxoId)
    requires Ancestor(a, b)
    ensures Depth(a) < Depth(b)
    decreases b
  {
    if a != b.tx.input {
      AncestorDepth(a, b.tx.input);
    }
  }

  /** On a sound ledger what an accepted transaction makes is new, and the ledger stays sound. */
  lemma ApplySound(l: Ledger, fee: nat, tx: Tx)
    requires Sound(l.coins) && Accepts(l, fee, tx)
    ensures OutputOf(tx, 0) !in l.coins && Sound(Apply(l, fee, tx).coins)
  {
    var out := OutputOf(tx, 0);
    assert Ancestor(tx.input, out);
    var after := Apply(l, fee, tx).coins;
    forall a, b | a in after && b in after ensures !Ancestor(a, b) {
      if Ancestor(a, b) {
        if a == b {
          AncestorDepth(a, b);
        } else if a == out {
          AncestorTrans(tx.input, out, b);
        }
      }
    }
  }

  /** Over every accepted run from a sound ledger, money is neither made nor lost. */
  lemma {:induction false} RunConserves(l: Ledger, fee: nat, txs: seq<Tx>)
    requires Sound(l.coins) && Run(l, fee, txs).Some?
    ensures var m := Run(l, fee, txs).value;
            Sound(m.coins) && Sum(Amounts(m.coins)) + m.burned == Sum(Amounts(l.coins)) + l.burned
    decreases |txs|
  {
    if txs != [] {
      ApplySound(l, fee, txs[0]);
      ApplyConserves(l, fee, txs[0]);
      RunConserves(Apply(l, fee, txs[0]), fee, txs[1..]);
    }
  }

  lemma GenesisSound(coins: map<UtxoId, Coin>)
    requires forall id :: id in coins ==> id.Genesis?
    ensures Sound(coins)
  {
  }

  // ---- One chain on the ledger ----

  /** The plan's starting output really holds its amount, and nothing of the chain has been spent or made yet. */
  ghost predicate Ready(l: Ledger, p: Plan, n: nat) {
    && p.start in l.coins
    && l.coins[p.start] == Coin(p.amount, p.owner)
    && forall i {:trigger p.Head(i)} :: 1 <= i <= n ==> p.Head(i) !in l.coins
  }

  lemma {:induction false} StartIsAncestor(p: Plan, i: nat)
    ensures i > 0 ==> Ancestor(p.start, p.Head(i))
  {
    if i > 1 {
      StartIsAncestor(p, i - 1);
    }
  }

  /** On a sound ledger a chain whose starting output is unspent has not begun. */
  lemma SoundReady(l: Ledger, p: Plan, n: nat)
    requires Sound(l.coins) && p.start in l.coins && l.coins[p.start] == Coin(p.amount, p.owner)
    ensures Ready(l, p, n)
  {
    forall i {:trigger p.Head(i)} | 1 <= i <= n ensures p.Head(i) !in l.coins {
      StartIsAncestor(p, i);
    }
  }

  /** The ledger after the first k transactions. */
  function After(l: Ledger, p: Plan, k: nat): Ledger
    requires p.Covers(k)
  {
    Ledger((l.coins - {p.start})[p.Head(k) := Coin(p.amount - k * p.fee, p.owner)], l.burned + k * p.fee)
  }

  /** Every prefix of the chain is accepted; transaction i consumes amount - i*fee. */
  lemma {:induction false} ChainRuns(l: Ledger, p: Plan, n: nat)
    requires Ready(l, p, n) && p.Covers(n)
    ensures Run(l, p.fee, p.Chain(n)) == Some(After(l, p, n))
    ensures forall i :: 0 <= i < n ==> p.Link(i).inAmt == p.amount - i * p.fee
  {
    if n == 0 {
      assert After(l, p, 0).coins == l.coins;
      assert p.Chain(0) == [];
    } else {
      MulMonotone(n - 1, n, p.fee);
      ChainRuns(l, p, n - 1);
      assert p.Chain(n) == p.Chain(n - 1) + [p.Link(n - 1)];
      RunAppend(l, p.fee, p.Chain(n - 1), [p.Link(n - 1)]);
      NoWrapBelow(p, n, n - 1);
      NoWrapBelow(p, n, n);
      LinkStep(l, p, n - 1);
    }
  }

  lemma LinkStep(l: Ledger, p: Plan, k: nat)
    requires p.Covers(k + 1) && p.Covers(k) && Ready(l, p, k)
    ensures Run(After(l, p, k), p.fee, [p.Link(k)]) == Some(After(l, p, k + 1))
  {
    var m := After(l, p, k);
    NoWrapBelow(p, k + 1, k);
    NoWrapBelow(p, k + 1, k + 1);
    assert (k + 1) * p.fee == k * p.fee + p.fee;
    if k > 0 && p.Head(k) == p.start {
      HeadInjective(p, k, 0);
    }
    assert Apply(m, p.fee, p.Link(k)).coins == After(l, p, k + 1).coins;
    assert [p.Link(k)][1..] == [];
  }

  /**
   * On a ledger that really holds the amount, a chain the guard let through is accepted in full exactly when the
   * true product of count and fee does not wrap.
   */
  lemma ChainAcceptedIff(l: Ledger, p: Plan, n: u64)
    requires Ready(l, p, n) && Wrap(n * p.fee) <= p.amount
    ensures Run(l, p.fee, p.Chain(n)).Some? <==> n * p.fee < TWO64
    ensures n * p.fee < TWO64 ==> Run(l, p.fee, p.Chain(n)) == Some(After(l, p, n))
  {
    if n * p.fee < TWO64 {
      ChainRuns(l, p, n);
    } else if Run(l, p.fee, p.Chain(n)).Some? {
      AcceptedPayTheFee(l, p.fee, p.Chain(n));
      var k := WrappingLink(p, n);
    }
  }

  // ---- The order of a chain is forced ----

  /** Of the outputs from Head(k) on, the ledger can hold only Head(k). */
  ghost predicate Frontier(l: Ledger, p: Plan, n: nat, k: nat) {
    forall i: nat {:trigger p.Head(i)} :: k < i <= n ==> p.Head(i) !in l.coins
  }

  /** Only the link at the frontier can be accepted, and it moves the frontier by one. */
  lemma FrontierStep(l: Ledger, p: Plan, n: nat, k: nat, j: nat)
    requires Frontier(l, p, n, k) && k <= j < n && Accepts(l, p.fee, p.Link(j))
    ensures j == k && Frontier(Apply(l, p.fee, p.Link(j)), p, n, k + 1)
  {
    assert p.Head(j) in l.coins;
    forall i: nat | k + 1 < i <= n ensures p.Head(i) !in Apply(l, p.fee, p.Link(j)).coins {
      if p.Head(i) == p.Head(j + 1) {
        HeadInjective(p, i, j + 1);
      }
    }
  }

  lemma SameTail<T>(x: T, a: seq<T>, b: seq<T>)
    requires multiset([x] + a) == multiset([x] + b)
    ensures multiset(a) == multiset(b)
  {
    assert multiset(a) == multiset([x] + a) - multiset([x]);
    assert multiset(b) == multiset([x] + b) - multiset([x]);
  }

  /** Any rearrangement that a ledger accepts is the order in which the chain was built. */
  lemma {:induction false} OrderForced(l: Ledger, p: Plan, n: nat, k: nat, txs: seq<Tx>)
    requires k <= n && Frontier(l, p, n, k)
    requires multiset(txs) == multiset(p.Chain(n)[k..])
    requires Run(l, p.fee, txs).Some?
    ensures txs == p.Chain(n)[k..]
    decreases n - k
  {
    hide Frontier, Accepts, Apply, Plan.Link, Plan.Head, Plan.Chain, Plan.Amount;
    var rest := p.Chain(n)[k..];
    SameLength(txs, rest);
    if k < n {
      var j := Position(txs, rest);
      FrontierStep(l, p, n, k, k + j);
      var tail := p.Chain(n)[k + 1..];
      assert rest == [txs[0]] + tail && txs == [txs[0]] + txs[1..];
      SameTail(txs[0], txs[1..], tail);
      OrderForced(Apply(l, p.fee, txs[0]), p, n, k + 1, txs[1..]);
    }
  }

  lemma SameLength<T>(a: seq<T>, b: seq<T>)
    requires multiset(a) == multiset(b)
    ensures |a| == |b|
  {
    assert |multiset(a)| == |a| && |multiset(b)| == |b|;
  }

  /** Where the first element of one arrangement is in the other. */
  lemma Position<T>(a: seq<T>, b: seq<T>) returns (j: nat)
    requires multiset(a) == multiset(b) && a != []
    ensures j < |b| && b[j] == a[0]
  {
    assert a[0] in multiset(a);
    j :| 0 <= j < |b| && b[j] == a[0];
  }

  /** Among all rearrangements of a money-safe chain, exactly the returned order is accepted in full. */
  lemma OrderUnique(l: Ledger, p: Plan, n: nat, txs: seq<Tx>)
    requires Ready(l, p, n) && p.Covers(n)
    requires multiset(txs) == multiset(p.Chain(n))
    ensures Run(l, p.fee, txs).Some? <==> txs == p.Chain(n)
  {
    ChainRuns(l, p, n);
    assert p.Chain(n)[0..] == p.Chain(n);
    if Run(l, p.fee, txs).Some? {
      OrderForced(l, p, n, 0, txs);
    }
  }
}
