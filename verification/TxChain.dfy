/** The consecutive-transaction builder of the bombard test. */
module TxChain {
  import opened MachineInt

  /** An address also stands for the private key that owns it. */
  type Address = string

  /** Identifiers are structural: a transaction contains the ID of the output it spends. */
  datatype UtxoId = Genesis(n: nat) | OutputOf(tx: Tx, idx: nat)

  datatype Tx = Tx(input: UtxoId, inAmt: u64, outAmt: u64, to: Address, signer: Address)

  datatype TxId = TxId(tx: Tx)

  datatype Utxo = Utxo(id: UtxoId, amt: u64, owner: Address)

  datatype BuildResult = Built(txs: seq<Tx>, ids: seq<TxId>) | InsufficientFunds

  /** The arguments a chain is built from. */
  datatype Plan = Plan(start: UtxoId, amount: u64, fee: u64, owner: Address) {

    /** What is left after `i` fees, as the machine computes it. */
    function Amount(i: nat): u64 {
      Wrap(amount - i * fee)
    }

    /** The output that the i-th transaction spends. */
    function Head(i: nat): UtxoId
      decreases i, 0
    {
      if i == 0 then start else OutputOf(Link(i - 1), 0)
    }

    /** The i-th transaction. */
    function Link(i: nat): Tx
      decreases i, 1
    {
      Tx(Head(i), Amount(i), Amount(i + 1), owner, owner)
    }

    function Chain(n: nat): (txs: seq<Tx>)
      ensures |txs| == n
      ensures forall i :: 0 <= i < n ==> txs[i] == Link(i)
    {
      seq(n, i requires 0 <= i < n => Link(i))
    }

    /** The true product of count and fee fits the amount, so nothing wraps. */
    predicate Covers(n: nat) {
      n * fee <= amount
    }
  }

  function Depth(id: UtxoId): nat {
    match id
    case Genesis(_) => 0
    case OutputOf(tx, _) => 1 + Depth(tx.input)
  }

  function Ids(txs: seq<Tx>): (ids: seq<TxId>)
    ensures |ids| == |txs|
    ensures forall i :: 0 <= i < |txs| ==> ids[i] == TxId(txs[i])
  {
    seq(|txs|, i requires 0 <= i < |txs| => TxId(txs[i]))
  }

  function CreateSingleUTXOTx(utxo: Utxo, inputAmount: u64, outputAmount: u64, address: Address, key: Address): Tx {
    Tx(utxo.id, inputAmount, outputAmount, address, key)
  }

  /** The outputs of a built transaction: exactly one. */
  function UTXOs(tx: Tx): seq<Utxo> {
    [Utxo(OutputOf(tx, 0), tx.outAmt, tx.to)]
  }

  /** Fails exactly when the wrapped product exceeds the amount, and otherwise returns the closed-form chain. */
  method CreateConsecutiveTransactions(utxo: Utxo, numTxs: u64, amount: u64, txFee: u64, key: Address)
    returns (r: BuildResult)
    ensures r.InsufficientFunds? <==> Wrap(numTxs * txFee) > amount
    ensures r.Built? ==> r.txs == Plan(utxo.id, amount, txFee, key).Chain(numTxs) && r.ids == Ids(r.txs)
  {
    if Wrap(numTxs * txFee) > amount {
      return InsufficientFunds;
    }
    ghost var plan := Plan(utxo.id, amount, txFee, key);
    var blank := CreateSingleUTXOTx(utxo, 0, 0, key, key);
    var txs := new Tx[numTxs](_ => blank);
    var ids := new TxId[numTxs](_ => TxId(blank));
    var current := utxo;
    var inputAmount := amount;
    var outputAmount := Wrap(amount - txFee);
    var i := 0;
    while i < numTxs
      invariant 0 <= i <= numTxs
      invariant current.id == plan.Head(i)
      invariant inputAmount == plan.Amount(i) && outputAmount == plan.Amount(i + 1)
      invariant forall j :: 0 <= j < i ==> txs[j] == plan.Link(j) && ids[j] == TxId(plan.Link(j))
    {
      var tx := CreateSingleUTXOTx(current, inputAmount, outputAmount, key, key);
      txs[i] := tx;
      ids[i] := TxId(tx);
      current := UTXOs(tx)[0];
      AmountStep(plan, i);
      AmountStep(plan, i + 1);
      inputAmount := Wrap(inputAmount - txFee);
      outputAmount := Wrap(outputAmount - txFee);
      i := i + 1;
    }
    r := Built(txs[..], ids[..]);
  }

  lemma AmountStep(p: Plan, i: nat)
    ensures p.Amount(i + 1) == Wrap(p.Amount(i) - p.fee)
  {
    WrapSub(p.amount - i * p.fee, p.fee);
    assert p.amount - i * p.fee - p.fee == p.amount - (i + 1) * p.fee;
  }

  // ---- Money safety of the wrapping guard ----

  /** The i-th transaction burns exactly the fee, over the integers. */
  predicate BurnsFee(p: Plan, i: nat) {
    p.Link(i).outAmt + p.fee == p.Link(i).inAmt
  }

  lemma NoWrapBelow(p: Plan, n: nat, i: nat)
    requires p.Covers(n) && i <= n
    ensures p.Amount(i) == p.amount - i * p.fee
  {
    assert i * p.fee <= n * p.fee by { MulMonotone(i, n, p.fee); }
  }

  lemma MulMonotone(a: nat, b: nat, k: nat)
    requires a <= b
    ensures a * k <= b * k
  {
    assert b * k == a * k + (b - a) * k;
  }

  /**
   * For every input the guard lets through: all transactions burn exactly the fee if and only if the true product
   * stays below 2^64; otherwise some transaction pays out more than it takes in.
   */
  lemma GuardIsMoneySafeIff(p: Plan, n: u64)
    requires Wrap(n * p.fee) <= p.amount
    ensures (forall i :: 0 <= i < n ==> BurnsFee(p, i)) <==> n * p.fee < TWO64
    ensures n * p.fee >= TWO64 ==> exists i :: 0 <= i < n && p.Link(i).outAmt > p.Link(i).inAmt
  {
    if n * p.fee < TWO64 {
      forall i | 0 <= i < n ensures BurnsFee(p, i) {
        NoWrapBelow(p, n, i);
        NoWrapBelow(p, n, i + 1);
      }
    } else {
      var k := WrappingLink(p, n);
      assert !BurnsFee(p, k);
    }
  }

  /** The transaction at which a wrapped product creates money. */
  lemma WrappingLink(p: Plan, n: u64) returns (k: nat)
    requires n * p.fee >= TWO64
    ensures k < n && p.Link(k).outAmt > p.Link(k).inAmt
  {
    k := p.amount / p.fee;
    var rest := p.amount % p.fee;
    assert p.amount == k * p.fee + rest;
    if k >= n {
      MulMonotone(n, k, p.fee);
      assert false;
    }
    assert p.amount - (k + 1) * p.fee == rest - p.fee;
    assert p.Amount(k) == rest;
    WrapUnique(rest - p.fee, -1, rest - p.fee + TWO64);
    assert p.Amount(k + 1) == rest - p.fee + TWO64;
  }

  // ---- Identity of the links ----

  lemma {:induction false} HeadDepth(p: Plan, i: nat)
    ensures Depth(p.Head(i)) == Depth(p.start) + i
  {
    if i > 0 {
      HeadDepth(p, i - 1);
    }
  }

  /** Two chains that meet do so only because one of them starts on the other. */
  lemma {:induction false} HeadsMeet(p: Plan, q: Plan, i: nat, j: nat)
    requires p.Head(i) == q.Head(j)
    ensures i <= j ==> p.start == q.Head(j - i)
    ensures j <= i ==> q.start == p.Head(i - j)
  {
    if i > 0 && j > 0 {
      assert p.Link(i - 1).input == q.Link(j - 1).input;
      HeadsMeet(p, q, i - 1, j - 1);
    }
  }

  lemma HeadInjective(p: Plan, i: nat, j: nat)
    requires p.Head(i) == p.Head(j)
    ensures i == j
  {
    HeadDepth(p, i);
    HeadDepth(p, j);
  }

  /** Transaction IDs of a built chain are pairwise distinct, whether or not the amounts wrap. */
  lemma ChainIdsDistinct(p: Plan, n: nat)
    ensures forall i, j :: 0 <= i < j < n ==> Ids(p.Chain(n))[i] != Ids(p.Chain(n))[j]
  {
    forall i, j | 0 <= i < j < n ensures Ids(p.Chain(n))[i] != Ids(p.Chain(n))[j] {
      if p.Link(i) == p.Link(j) {
        HeadInjective(p, i, j);
      }
    }
  }
}
