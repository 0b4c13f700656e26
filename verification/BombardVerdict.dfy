/** What the bombard test's verdict says about the money, and what it does not say about the confirmations. */
module BombardVerdict {
  import opened MachineInt
  import opened Options
  import opened Sets
  import opened TxChain
  import opened UtxoLedger
  import opened Confluence
  import opened Confirmation
  import opened Bombard
  import Polling
  import TwoChain
  import Preparation
  import Runner
  import Serving

  // ---- Passing ----

  /** On a seeded ledger the first client's chain decides: nothing is refused exactly when no product wraps. */
  lemma IssuedIff(l: Ledger, job: Job)
    requires job.Fits() && AllListed(job.utxoLists) && job.utxoLists != []
    requires Seeded(l, job.utxoLists, job.keys, job.numTxs, job.txFee)
    ensures job.Buildable() && Run(l, job.txFee, Flatten(Lists(job.Clients()))).Some? <==> (job.numTxs + 1) * job.txFee < TWO64
  {
    var cl := ClientsOf(job.utxoLists, job.keys, job.numTxs, job.txFee);
    if (job.numTxs + 1) * job.txFee < TWO64 {
      FlattenIsInterleaving(Lists(cl), 0);
      assert Lists(cl)[0..] == Lists(cl);
      EveryScheduleAgrees(l, job.utxoLists, job.keys, job.numTxs, job.txFee, Flatten(Lists(cl)));
    } else if job.Buildable() && Run(l, job.txFee, Flatten(Lists(cl))).Some? {
      hide Wrap, Seed, Ready, Plan.Chain, Run;
      SeedTooLarge(job.numTxs, job.txFee);
      RunAppend(l, job.txFee, Lists(cl)[0], Flatten(Lists(cl)[1..]));
      assert Lists(cl)[0] == cl[0].plan.Chain(job.numTxs);
      GuardPassesMeans(job.numTxs, job.txFee);
      SeededClients(l, job.utxoLists, job.keys, job.numTxs, job.txFee);
      ChainAcceptedIff(l, cl[0].plan, job.numTxs);
    }
  }

  /**
   * The network serves the funding, the genesis user can pay for it, nobody held anything before, and the three calls
   * for each client are answered.
   */
  ghost predicate Supplied(env: Polling.Env, w: Polling.World, genesis: Address, addresses: seq<Address>, seed: nat) {
    var n := |addresses|;
    && 0 < seed
    && TwoChain.Balance(w.ledger, TwoChain.OnX(genesis)) >= n * (seed + env.fees.transfer)
    && (forall i :: 0 <= i < n ==> TwoChain.Balance(w.ledger, TwoChain.OnX(addresses[i])) == 0)
    && Serving.ServedFund(env, w, genesis, addresses, seed)
    && Preparation.Answered(env, Runner.FundX(env, w, genesis, addresses, seed).w.calls, 3 * n)
  }

  /**
   * The whole verdict, for different addresses: the seed of numTxs + 1 fees stays below 2^64 and can be supplied to
   * every client.
   */
  lemma PassesIff(env: Polling.Env, w: Polling.World, l: Ledger, job: Job)
    requires job.Fits() && AllListed(job.utxoLists) && job.utxoLists != []
    requires Seeded(l, job.utxoLists, job.keys, job.numTxs, job.txFee)
    requires Serving.Calm(w) && NoDup(job.addresses) && job.genesis !in job.addresses
    ensures Passes(env, w, l, job.txFee, job) <==>
              && (job.numTxs + 1) * job.txFee < TWO64
              && Supplied(env, w, job.genesis, job.addresses, (job.numTxs + 1) * job.txFee)
  {
    IssuedIff(l, job);
    hide *;
    PassesMeans(env, w, l, job);
    if (job.numTxs + 1) * job.txFee < TWO64 {
      SeedExact(job.numTxs, job.txFee);
      SuppliedIff(env, w, job.genesis, job.addresses, (job.numTxs + 1) * job.txFee);
    }
  }

  lemma SuppliedIff(env: Polling.Env, w: Polling.World, genesis: Address, addresses: seq<Address>, seed: nat)
    requires Serving.Calm(w) && NoDup(addresses) && genesis !in addresses && addresses != []
    ensures Preparation.Prepared(env, w, genesis, addresses, seed).Ok? <==> Supplied(env, w, genesis, addresses, seed)
  {
    hide Preparation.Prepared, Preparation.Answered, Serving.ServedFund, Serving.Calm, Runner.FundX, TwoChain.Balance;
    Preparation.PreparedIff(env, w, genesis, addresses, seed);
  }

  lemma PassesMeans(env: Polling.Env, w: Polling.World, l: Ledger, job: Job)
    requires job.Fits()
    ensures job.utxoLists != [] ==> job.addresses != []
    ensures Passes(env, w, l, job.txFee, job) <==>
              && Preparation.Prepared(env, w, job.genesis, job.addresses, Seed(job.numTxs, job.txFee)).Ok?
              && job.Buildable() && Run(l, job.txFee, Flatten(Lists(job.Clients()))).Some?
  {
  }

  /** A seed that the guard accepts although it has wrapped, and the transaction that then creates money. */
  lemma GuardPassesWrapped()
    ensures var fee, numTxs := 0x8000_0000_0000_0000, 2;
            var p := Plan(Genesis(0), Seed(numTxs, fee), fee, "a");
            && !GuardRejects(numTxs, fee) && numTxs * fee >= TWO64
            && exists i :: 0 <= i < numTxs && p.Link(i).outAmt > p.Link(i).inAmt
  {
    var fee, numTxs := 0x8000_0000_0000_0000, 2;
    var p := Plan(Genesis(0), Seed(numTxs, fee), fee, "a");
    var k := WrappingLink(p, numTxs);
  }

  // ---- Confirming ----

  /** No two transactions of the test share an ID, within a client or across clients. */
  lemma IdsDistinct(l: Ledger, job: Job, number: TxId -> Polling.TxId)
    requires job.Fits() && job.Buildable() && Seeded(l, job.utxoLists, job.keys, job.numTxs, job.txFee)
    requires (job.numTxs + 1) * job.txFee < TWO64
    requires forall a, b :: number(a) == number(b) ==> a == b
    ensures Distinct(Flatten(IdLists(job.Clients(), number)))
  {
    var cl := job.Clients();
    var lists := IdLists(cl, number);
    SeededIsFunded(l, job.utxoLists, job.keys, job.numTxs, job.txFee);
    forall c, i, d, j | 0 <= c < |lists| && 0 <= i < |lists[c]| && 0 <= d < |lists| && 0 <= j < |lists[d]|
      ensures lists[c][i] == lists[d][j] ==> c == d && i == j
    {
      if lists[c][i] == lists[d][j] {
        assert number(TxId(cl[c].plan.Link(i))) == number(TxId(cl[d].plan.Link(j)));
        assert cl[c].plan.Link(i).input == cl[d].plan.Link(j).input;
        HeadsApart(l, job.txFee, cl, c, d, i, j);
      }
    }
    FlattenDistinct(lists);
  }

  lemma IdsAre(job: Job, number: TxId -> Polling.TxId)
    requires job.Fits() && job.Buildable()
    ensures var lists := IdLists(job.Clients(), number);
            && |lists| == |job.utxoLists| && (forall c :: 0 <= c < |lists| ==> |lists[c]| == job.numTxs)
            && forall c, i :: 0 <= c < |lists| && 0 <= i < |lists[c]| ==>
                 lists[c][i] == number(TxId(PlanOf(job.utxoLists[c], job.keys[c], job.numTxs, job.txFee).Link(i)))
  {
    hide Seed, GuardRejects;
  }

  /**
   * A passing test has confirmed all that it issued if and only if each wait, begun where the one before it ended, got
   * accepted as its first decisive answer in time.
   */
  lemma ConfirmsIff(env: Polling.Env, w: Polling.World, l: Ledger, job: Job, number: TxId -> Polling.TxId)
    requires job.Fits() && AllListed(job.utxoLists) && job.utxoLists != []
    requires Seeded(l, job.utxoLists, job.keys, job.numTxs, job.txFee) && Passes(env, w, l, job.txFee, job)
    requires forall a, b :: number(a) == number(b) ==> a == b
    ensures var lists := IdLists(job.Clients(), number);
            var start := job.Preparing(env, w).w;
            var last := AwaitEach(env, Polling.X, lists, start);
            && start.log <= last.log
            && (forall c, i :: 0 <= c < |lists| && 0 <= i < |lists[c]| ==>
                  lists[c][i] == number(TxId(PlanOf(job.utxoLists[c], job.keys[c], job.numTxs, job.txFee).Link(i))))
            && (forall c :: 0 <= c < |lists| ==> |lists[c]| == job.numTxs)
            && |lists| == |job.utxoLists|
            && (Confirmed(Since(start, last)) == Elements(Flatten(lists)) <==>
                  forall c, i :: 0 <= c < |lists| && 0 <= i < |lists[c]| ==>
                    AnsweredInTime(env, Polling.X, lists[c][i], WaitFrom(env, Polling.X, lists, start, c, i)))
  {
    IssuedIff(l, job);
    hide *;
    PassesMeans(env, w, l, job);
    IdsAre(job, number);
    IdsDistinct(l, job, number);
    ConfirmedIff(env, Polling.X, IdLists(job.Clients(), number), job.Preparing(env, w).w);
  }

  /**
   * Every passing test passes just as well on a network that reports each of its transactions rejected, and there
   * nothing is confirmed.
   */
  lemma PassesUnconfirmed(env: Polling.Env, w: Polling.World, l: Ledger, fee: nat, job: Job, number: TxId -> Polling.TxId)
    requires job.Fits() && Passes(env, w, l, fee, job)
    ensures var start := job.Preparing(env, w).w;
            var rejecting := RejectingFrom(env, start.calls);
            var last := AwaitEach(rejecting, Polling.X, IdLists(job.Clients(), number), start);
            && Passes(rejecting, w, l, fee, job) && job.Preparing(rejecting, w).w == start
            && start.log <= last.log && Confirmed(Since(start, last)) == {}
  {
    var start := job.Preparing(env, w).w;
    Preparation.SamePrepared(env, w, job.genesis, job.addresses, Seed(job.numTxs, job.txFee));
    NothingConfirmed(env, start.calls, IdLists(job.Clients(), number), start);
  }

  // ---- One such test ----

  function OneJob(): Job {
    Job("g", ["a"], [[Utxo(Genesis(0), 2, "a")]], ["a"], 1, 1)
  }

  function OneLedger(): Ledger {
    Ledger(map[Genesis(0) := Coin(2, "a")], 0)
  }

  /** A network that accepts everything at once, and its beginning. */
  function Accepting(): Polling.Env {
    Polling.Env((tx, k) => Polling.Status(Polling.Accepted), (tx, k) => Polling.Status(Polling.Committed),
                k => false, k => 0, k => 0, Polling.SECOND, TwoChain.Fees(0, 0))
  }

  function Beginning(): Polling.World {
    Polling.World(0, 0, 0, map[], map[TwoChain.OnX("g") := 10], 5, 0, [])
  }

  /** One client issues one transaction, the network reports it rejected, and the test passes. */
  lemma OnePassesUnconfirmed(number: TxId -> Polling.TxId)
    ensures var env, start := RejectingFrom(Accepting(), 5), OneJob().Preparing(Accepting(), Beginning()).w;
            && OneJob().Fits() && Passes(env, Beginning(), OneLedger(), 1, OneJob())
            && |Flatten(IdLists(OneJob().Clients(), number))| == 1
            && var last := AwaitEach(env, Polling.X, IdLists(OneJob().Clients(), number), start);
               start.log <= last.log && Confirmed(Since(start, last)) == {}
  {
    OnePrepared();
    OneIssued();
    OneId(number);
    hide *;
    PassesUnconfirmed(Accepting(), Beginning(), OneLedger(), 1, OneJob(), number);
  }

  lemma OnePrepared()
    ensures OneJob().Preparing(Accepting(), Beginning()).Ok? && OneJob().Preparing(Accepting(), Beginning()).w.calls == 5
  {
    assert Seed(1, 1) == 2;
  }

  lemma OneIssued()
    ensures OneJob().Fits() && OneJob().Buildable() && Run(OneLedger(), 1, Flatten(Lists(OneJob().Clients()))).Some?
  {
    var job, l := OneJob(), OneLedger();
    var p := ClientsOf(job.utxoLists, job.keys, 1, 1)[0].plan;
    assert p.amount == 2 && p.start == Genesis(0) && p.owner == "a";
    GenesisSound(l.coins);
    hide Seed, GuardRejects, Run, Lists, Flatten;
    IssuedIff(l, job);
  }

  lemma OneId(number: TxId -> Polling.TxId)
    requires OneJob().Fits() && OneJob().Buildable()
    ensures |Flatten(IdLists(OneJob().Clients(), number))| == 1
  {
    hide Seed, GuardRejects;
    var lists := IdLists(OneJob().Clients(), number);
    assert lists[1..] == [];
    assert Flatten(lists) == lists[0];
  }
}
