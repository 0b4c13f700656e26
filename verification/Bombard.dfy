/** The bombard test: fund every secondary client, build one chain each, issue all chains, await them. */
module Bombard {
  import opened MachineInt
  import opened Options
  import opened TxChain
  import opened UtxoLedger
  import opened Confluence
  import Polling
  import Runner
  import Preparation
  import TwoChain
  import Confirmation

  /** The node behind the X-chain API. */
  class XNode {
    var ledger: Ledger
    const fee: nat

    constructor (l: Ledger, f: nat)
      ensures ledger == l && fee == f
    {
      ledger, fee := l, f;
    }

    method IssueTx(tx: Tx) returns (ok: bool)
      modifies this
      ensures ok == Accepts(old(ledger), fee, tx)
      ensures ledger == if ok then Apply(old(ledger), fee, tx) else old(ledger)
    {
      ok := Accepts(ledger, fee, tx);
      if ok {
        ledger := Apply(ledger, fee, tx);
      }
    }
  }

  /** Issues in order and stops at the first refusal, keeping what was accepted before it. */
  method IssueTxList(node: XNode, txList: seq<Tx>) returns (ok: bool)
    modifies node
    ensures ok <==> Run(old(node.ledger), node.fee, txList).Some?
    ensures ok ==> Run(old(node.ledger), node.fee, txList) == Some(node.ledger)
    ensures !ok ==> exists k :: 0 <= k < |txList| && Run(old(node.ledger), node.fee, txList[..k]) == Some(node.ledger)
                                && !Accepts(node.ledger, node.fee, txList[k])
  {
    ghost var start := node.ledger;
    for i := 0 to |txList|
      invariant Run(start, node.fee, txList[..i]) == Some(node.ledger)
    {
      RunAppend(start, node.fee, txList[..i], txList[i..]);
      assert txList[..i] + txList[i..] == txList;
      RunAppend(start, node.fee, txList[..i], [txList[i]]);
      assert txList[..i] + [txList[i]] == txList[..i + 1];
      var accepted := node.IssueTx(txList[i]);
      if !accepted {
        return false;
      }
    }
    assert txList[..|txList|] == txList;
    return true;
  }

  datatype Outcome =
    | Passed
    | FundingFailed
    | BalanceWrong(client: nat)
    | ListingFailed(client: nat)
    | NoUtxo(client: nat)
    | ExportFailed(client: nat)
    | BuildFailed(client: nat)
    | IssuePanic(client: nat)

  function Seed(numTxs: u64, txFee: u64): u64 {
    Wrap(Wrap(numTxs + 1) * txFee)
  }

  predicate GuardRejects(numTxs: u64, txFee: u64) {
    Wrap(numTxs * txFee) > Seed(numTxs, txFee)
  }

  /** What the node listed for each secondary client, its first entry and the client's key make a plan. */
  function PlanOf(utxos: seq<Utxo>, key: Address, numTxs: u64, txFee: u64): Plan
    requires utxos != []
  {
    Plan(utxos[0].id, Seed(numTxs, txFee), txFee, key)
  }

  function ClientsOf(utxoLists: seq<seq<Utxo>>, keys: seq<Address>, numTxs: u64, txFee: u64): (cl: seq<Client>)
    requires |keys| == |utxoLists| && forall i :: 0 <= i < |utxoLists| ==> utxoLists[i] != []
    ensures |cl| == |utxoLists|
    ensures forall i :: 0 <= i < |cl| ==> cl[i] == Client(PlanOf(utxoLists[i], keys[i], numTxs, txFee), numTxs)
  {
    seq(|utxoLists|, i requires 0 <= i < |utxoLists| => Client(PlanOf(utxoLists[i], keys[i], numTxs, txFee), numTxs))
  }

  predicate AllListed(utxoLists: seq<seq<Utxo>>) {
    forall i :: 0 <= i < |utxoLists| ==> utxoLists[i] != []
  }

  /** The IDs of each client's transactions, as the network numbers them. */
  function IdLists(cl: seq<Client>, number: TxId -> Polling.TxId): (lists: seq<seq<Polling.TxId>>)
    ensures |lists| == |cl| && forall c :: 0 <= c < |cl| ==> |lists[c]| == cl[c].n
    ensures forall c, i :: 0 <= c < |cl| && 0 <= i < cl[c].n ==> lists[c][i] == number(TxId(cl[c].plan.Link(i)))
  {
    seq(|cl|, c requires 0 <= c < |cl| => Numbered(Ids(cl[c].plan.Chain(cl[c].n)), number))
  }

  function Numbered(ids: seq<TxId>, number: TxId -> Polling.TxId): (numbers: seq<Polling.TxId>)
    ensures |numbers| == |ids| && forall i :: 0 <= i < |ids| ==> numbers[i] == number(ids[i])
  {
    seq(|ids|, i requires 0 <= i < |ids| => number(ids[i]))
  }

  /** What the test is given: the addresses it funds, and what the network lists and exports for each. */
  datatype Job = Job(genesis: Address, addresses: seq<Address>, utxoLists: seq<seq<Utxo>>, keys: seq<Address>,
                     numTxs: u64, txFee: u64)
  {
    ghost predicate Fits() {
      |addresses| == |keys| == |utxoLists|
    }

    function Preparing(env: Polling.Env, w: Polling.World): Polling.Outcome {
      Preparation.Prepared(env, w, genesis, addresses, Seed(numTxs, txFee))
    }

    ghost predicate Buildable()
      requires Fits()
    {
      AllListed(utxoLists) && (utxoLists != [] ==> !GuardRejects(numTxs, txFee))
    }

    function Clients(): seq<Client>
      requires Fits() && Buildable()
    {
      ClientsOf(utxoLists, keys, numTxs, txFee)
    }
  }

  /** Everything up to the last issued transaction succeeds. */
  ghost predicate Passes(env: Polling.Env, w: Polling.World, l: Ledger, fee: nat, job: Job)
    requires job.Fits()
  {
    job.Preparing(env, w).Ok? && job.Buildable() && Run(l, fee, Flatten(Lists(job.Clients()))).Some?
  }

  /**
   * The verdict is settled when the last transaction has been issued: the lists are awaited one after the other, but
   * the errors are dropped.
   */
  method ExecuteTest(genesis: Runner.RPCWorkFlowRunner, clients: seq<Runner.RPCWorkFlowRunner>, node: XNode, job: Job,
                     number: TxId -> Polling.TxId)
    returns (outcome: Outcome)
    requires job.Fits() && job.genesis == genesis.wallet.x && job.addresses == Addresses(clients)
    requires forall i :: 0 <= i < |clients| ==> clients[i].network == genesis.network
    modifies genesis.network, node
    ensures outcome.Passed? <==> Passes(genesis.network.env, old(genesis.network.w), old(node.ledger), node.fee, job)
    ensures outcome.Passed? ==>
              && Run(old(node.ledger), node.fee, Flatten(Lists(job.Clients()))) == Some(node.ledger)
              && genesis.network.w == Confirmation.AwaitEach(genesis.network.env, Polling.X, IdLists(job.Clients(), number),
                                                             job.Preparing(genesis.network.env, old(genesis.network.w)).w)
    ensures !outcome.Passed? && !outcome.IssuePanic? ==> node.ledger == old(node.ledger)
    ensures outcome.FundingFailed? ==>
              Runner.FundX(genesis.network.env, old(genesis.network.w), job.genesis, job.addresses,
                           Seed(job.numTxs, job.txFee)).Err?
    ensures outcome.NoUtxo? ==> outcome.client < |job.utxoLists| && job.utxoLists[outcome.client] == []
    ensures outcome.BuildFailed? ==> GuardRejects(job.numTxs, job.txFee)
    ensures outcome.IssuePanic? ==>
              job.Buildable() && StoppedIn(old(node.ledger), node.ledger, node.fee, Lists(job.Clients()), outcome.client)
  {
    var network := genesis.network;
    var seedAmount := Wrap(Wrap(job.numTxs + 1) * job.txFee);
    hide Runner.FundX, Preparation.Gathered, Preparation.Exported;
    var funded := genesis.FundXChainAddresses(job.addresses, seedAmount);
    if !funded {
      return FundingFailed;
    }
    var wrong := GatherOutputs(network, clients, seedAmount);
    if wrong.Some? {
      return wrong.value;
    }
    var txLists, txIDLists, failed := BuildChains(network, job.utxoLists, job.keys, job.numTxs, job.txFee, number);
    if failed.Some? {
      return failed.value;
    }
    assert job.Preparing(network.env, old(network.w)) == Polling.Ok(network.w) && job.Buildable();
    hide *;
    var refused := IssueAll(node, txLists);
    if refused.Some? {
      return IssuePanic(refused.value);
    }
    AwaitLists(network, txIDLists);
    return Passed;
  }

  /** A failure to confirm a list is wrapped into an error that nobody returns. */
  method AwaitLists(network: Polling.Network, lists: seq<seq<Polling.TxId>>)
    modifies network
    ensures network.w == Confirmation.AwaitEach(network.env, Polling.X, lists, old(network.w))
  {
    for i := 0 to |lists|
      invariant Confirmation.AwaitEach(network.env, Polling.X, lists[i..], network.w) ==
                Confirmation.AwaitEach(network.env, Polling.X, lists, old(network.w))
    {
      var _ := network.AwaitXChainTxs(lists[i]);
      assert lists[i..][1..] == lists[i + 1..];
    }
  }

  function Addresses(clients: seq<Runner.RPCWorkFlowRunner>): seq<Address> {
    seq(|clients|, i requires 0 <= i < |clients| => clients[i].wallet.x)
  }

  /** Each client's balance is checked and its outputs are asked for. */
  method GatherOutputs(network: Polling.Network, clients: seq<Runner.RPCWorkFlowRunner>, seedAmount: nat)
    returns (wrong: Option<Outcome>)
    requires forall i :: 0 <= i < |clients| ==> clients[i].network == network
    modifies network
    ensures Preparation.Gathered(network.env, old(network.w), Addresses(clients), seedAmount) ==
            if wrong.None? then Polling.Ok(network.w) else Polling.Err(network.w)
    ensures wrong.Some? ==> wrong.value.BalanceWrong? || wrong.value.ListingFailed?
    ensures wrong.Some? ==>
              && wrong.value.client < |clients| && network.w.calls > 0
              && (network.env.rpcFails(network.w.calls - 1) ||
                  (wrong.value.BalanceWrong? && BalanceOf(old(network.w), clients[wrong.value.client]) != seedAmount))
  {
    ghost var addresses := Addresses(clients);
    hide Runner.Checked;
    for i := 0 to |clients|
      invariant network.w.ledger == old(network.w).ledger
      invariant Preparation.Gathered(network.env, network.w, addresses[i..], seedAmount) ==
                Preparation.Gathered(network.env, old(network.w), addresses, seedAmount)
    {
      CheckedMeans(network.env, network.w, BalanceOf(network.w, clients[i]) == seedAmount);
      var ok := clients[i].VerifyXChainAVABalance(clients[i].wallet.x, seedAmount);
      CheckedMeans(network.env, network.w, true);
      if !ok {
        return Some(BalanceWrong(i));
      }
      ok := Preparation.Query(network);
      if !ok {
        return Some(ListingFailed(i));
      }
      assert addresses[i..][1..] == addresses[i + 1..];
    }
    return None;
  }

  function BalanceOf(w: Polling.World, client: Runner.RPCWorkFlowRunner): nat {
    TwoChain.Balance(w.ledger, TwoChain.OnX(client.wallet.x))
  }

  lemma CheckedMeans(env: Polling.Env, w: Polling.World, expected: bool)
    ensures var r := Runner.Checked(env, w, expected);
            r.w.ledger == w.ledger && r.w.calls == w.calls + 1 && (r.Ok? <==> expected && !env.rpcFails(w.calls))
  {
  }

  /** One chain per client, up to the first client for which there is none. */
  method BuildChains(network: Polling.Network, utxoLists: seq<seq<Utxo>>, keys: seq<Address>, numTxs: u64, txFee: u64,
                     number: TxId -> Polling.TxId)
    returns (lists: seq<seq<Tx>>, ids: seq<seq<Polling.TxId>>, failed: Option<Outcome>)
    requires |keys| == |utxoLists|
    modifies network
    ensures failed.None? <==>
              && AllListed(utxoLists) && (utxoLists != [] ==> !GuardRejects(numTxs, txFee))
              && Preparation.Exported(network.env, old(network.w), |utxoLists|).Ok?
    ensures failed.None? ==>
              && network.w == Preparation.Exported(network.env, old(network.w), |utxoLists|).w
              && lists == Lists(ClientsOf(utxoLists, keys, numTxs, txFee))
              && ids == IdLists(ClientsOf(utxoLists, keys, numTxs, txFee), number)
    ensures failed.Some? ==>
              || (failed.value.NoUtxo? && failed.value.client < |utxoLists| && utxoLists[failed.value.client] == [])
              || (failed.value.BuildFailed? && GuardRejects(numTxs, txFee))
              || failed.value.ExportFailed?
  {
    var n := |utxoLists|;
    var seedAmount := Wrap(Wrap(numTxs + 1) * txFee);
    hide Wrap, GuardRejects, Plan.Chain, Runner.Checked, Preparation.Exported;
    assert seedAmount == Seed(numTxs, txFee);
    hide Seed;
    var txLists := new seq<Tx>[n](_ => []);
    var txIDLists := new seq<Polling.TxId>[n](_ => []);
    for i := 0 to n
      invariant i > 0 ==> !GuardRejects(numTxs, txFee)
      invariant Preparation.Exported(network.env, network.w, n - i) == Preparation.Exported(network.env, old(network.w), n)
      invariant forall j :: 0 <= j < i ==> utxoLists[j] != []
      invariant forall j :: 0 <= j < i ==>
        var chain := PlanOf(utxoLists[j], keys[j], numTxs, txFee).Chain(numTxs);
        txLists[j] == chain && txIDLists[j] == Numbered(Ids(chain), number)
    {
      Preparation.ExportedStep(network.env, network.w, n - i);
      var txs, ids, bad := BuildChain(network, i, utxoLists[i], keys[i], numTxs, txFee, seedAmount, number);
      if bad.Some? {
        return [], [], bad;
      }
      txLists[i] := txs;
      txIDLists[i] := ids;
    }
    Preparation.ExportedStep(network.env, network.w, 0);
    assert txLists[..] == Lists(ClientsOf(utxoLists, keys, numTxs, txFee));
    assert txIDLists[..] == IdLists(ClientsOf(utxoLists, keys, numTxs, txFee), number);
    return txLists[..], txIDLists[..], None;
  }

  /** One client's chain: its first output is spent with the key that the network exports. */
  method BuildChain(network: Polling.Network, client: nat, utxos: seq<Utxo>, key: Address, numTxs: u64, txFee: u64,
                    seedAmount: u64, number: TxId -> Polling.TxId)
    returns (txs: seq<Tx>, ids: seq<Polling.TxId>, failed: Option<Outcome>)
    requires seedAmount == Seed(numTxs, txFee)
    modifies network
    ensures failed.None? <==>
              utxos != [] && Runner.Checked(network.env, old(network.w), true).Ok? && !GuardRejects(numTxs, txFee)
    ensures failed.None? ==>
              && network.w == Runner.Checked(network.env, old(network.w), true).w
              && txs == PlanOf(utxos, key, numTxs, txFee).Chain(numTxs) && ids == Numbered(Ids(txs), number)
    ensures failed.Some? ==>
              || (failed == Some(NoUtxo(client)) && utxos == [])
              || (failed == Some(BuildFailed(client)) && GuardRejects(numTxs, txFee))
              || failed == Some(ExportFailed(client))
  {
    if utxos == [] {
      return [], [], Some(NoUtxo(client));
    }
    var exported := Preparation.Query(network);
    if !exported {
      return [], [], Some(ExportFailed(client));
    }
    var built := CreateConsecutiveTransactions(utxos[0], numTxs, seedAmount, txFee, key);
    if built.InsufficientFunds? {
      return [], [], Some(BuildFailed(client));
    }
    return built.txs, Numbered(built.ids, number), None;
  }

  /** All lists before the i-th and the i-th up to a transaction that is refused have been carried out. */
  ghost predicate StoppedIn(l: Ledger, m: Ledger, fee: nat, lists: seq<seq<Tx>>, i: nat) {
    i < |lists| && exists k :: 0 <= k < |lists[i]| && Run(l, fee, Flatten(lists[..i]) + lists[i][..k]) == Some(m) &&
                               !Accepts(m, fee, lists[i][k])
  }

  /** Each list in turn; a refusal stops everything. */
  method IssueAll(node: XNode, lists: seq<seq<Tx>>) returns (refused: Option<nat>)
    modifies node
    ensures refused.None? <==> Run(old(node.ledger), node.fee, Flatten(lists)).Some?
    ensures refused.None? ==> Run(old(node.ledger), node.fee, Flatten(lists)) == Some(node.ledger)
    ensures refused.Some? ==> StoppedIn(old(node.ledger), node.ledger, node.fee, lists, refused.value)
  {
    ghost var start := node.ledger;
    assert Flatten<Tx>([]) == [];
    for i := 0 to |lists|
      invariant Run(start, node.fee, Flatten(lists[..i])) == Some(node.ledger)
    {
      hide *;
      FlattenSplit(lists, i);
      RunAppend(start, node.fee, Flatten(lists[..i]), Flatten(lists[i..]));
      RunAppend(node.ledger, node.fee, lists[i], Flatten(lists[i + 1..]));
      RunAppend(start, node.fee, Flatten(lists[..i]), lists[i]);
      ghost var before := node.ledger;
      var ok := IssueTxList(node, lists[i]);
      if !ok {
        StopsIn(start, before, node.ledger, node.fee, lists, i);
        return Some(i);
      }
    }
    assert lists[..|lists|] == lists;
    return None;
  }

  lemma StopsIn(start: Ledger, before: Ledger, after: Ledger, fee: nat, lists: seq<seq<Tx>>, i: nat)
    requires i < |lists| && Run(start, fee, Flatten(lists[..i])) == Some(before)
    requires exists k :: 0 <= k < |lists[i]| && Run(before, fee, lists[i][..k]) == Some(after) && !Accepts(after, fee, lists[i][k])
    ensures StoppedIn(start, after, fee, lists, i)
  {
    hide Run, Accepts;
    var k :| 0 <= k < |lists[i]| && Run(before, fee, lists[i][..k]) == Some(after) && !Accepts(after, fee, lists[i][k]);
    RunAppend(start, fee, Flatten(lists[..i]), lists[i][..k]);
  }

  lemma {:induction false} FlattenSplit<T>(lists: seq<seq<T>>, i: nat)
    requires i < |lists|
    ensures Flatten(lists) == Flatten(lists[..i]) + Flatten(lists[i..])
    ensures Flatten(lists[i..]) == lists[i] + Flatten(lists[i + 1..])
    ensures Flatten(lists[..i + 1]) == Flatten(lists[..i]) + lists[i]
  {
    assert lists[i..][1..] == lists[i + 1..];
    if i == 0 {
      assert lists[..1][1..] == [];
    } else {
      FlattenSplit(lists[1..], i - 1);
      assert lists[1..][..i - 1] == lists[..i][1..];
      assert lists[1..][i - 1..] == lists[i..];
      assert lists[1..][..i] == lists[..i + 1][1..];
    }
  }

  // ---- The seed ----

  /**
   * The guard lets the seed through and no transaction creates or hides money if and only if the true product of
   * numTxs + 1 and the fee stays below 2^64.
   */
  lemma SeedSufficientIff(start: UtxoId, owner: Address, numTxs: u64, txFee: u64)
    ensures var p := Plan(start, Seed(numTxs, txFee), txFee, owner);
            (!GuardRejects(numTxs, txFee) && forall i :: 0 <= i < numTxs ==> BurnsFee(p, i)) <==> (numTxs + 1) * txFee < TWO64
  {
    var p := Plan(start, Seed(numTxs, txFee), txFee, owner);
    hide Wrap, Seed, GuardRejects, BurnsFee;
    if (numTxs + 1) * txFee < TWO64 {
      SeedKeepsAFee(p, numTxs);
      GuardPassesMeans(numTxs, txFee);
      GuardIsMoneySafeIff(p, numTxs);
    } else if !GuardRejects(numTxs, txFee) {
      GuardPassesMeans(numTxs, txFee);
      GuardIsMoneySafeIff(p, numTxs);
      SeedTooLarge(numTxs, txFee);
    }
  }

  lemma GuardPassesMeans(numTxs: u64, txFee: u64)
    ensures !GuardRejects(numTxs, txFee) <==> Wrap(numTxs * txFee) <= Seed(numTxs, txFee)
    ensures (numTxs + 1) * txFee < TWO64 ==> numTxs * txFee < TWO64
  {
    assert (numTxs + 1) * txFee == numTxs * txFee + txFee;
  }

  /** When the seed wraps and the guard passes all the same, the product itself has wrapped. */
  lemma SeedTooLarge(numTxs: u64, txFee: u64)
    requires (numTxs + 1) * txFee >= TWO64 && !GuardRejects(numTxs, txFee)
    ensures numTxs * txFee >= TWO64
  {
    assert (numTxs + 1) * txFee == numTxs * txFee + txFee;
    if numTxs + 1 == TWO64 {
      assert Wrap(TWO64) == 0;
      WrapUnique(numTxs * txFee, txFee - 1, TWO64 - txFee);
    } else if numTxs * txFee < TWO64 {
      WrapUnique(numTxs * txFee, 0, numTxs * txFee);
      WrapUnique((numTxs + 1) * txFee, 1, numTxs * txFee + txFee - TWO64);
    }
  }

  /** With a seed that does not wrap, every output keeps at least one fee and exactly one fee is left at the end. */
  lemma SeedKeepsAFee(p: Plan, numTxs: u64)
    requires (numTxs + 1) * p.fee < TWO64
    requires p.amount == Seed(numTxs, p.fee)
    ensures p.amount == (numTxs + 1) * p.fee
    ensures !GuardRejects(numTxs, p.fee) && p.Covers(numTxs)
    ensures forall i :: 0 <= i <= numTxs ==> p.Amount(i) == (numTxs + 1 - i) * p.fee && p.Amount(i) >= p.fee
    ensures p.Amount(numTxs) == p.fee
    ensures p.Amount(numTxs + 1) == 0
  {
    assert (numTxs + 1) * p.fee == numTxs * p.fee + p.fee;
    SeedExact(numTxs, p.fee);
    WrapUnique(numTxs * p.fee, 0, numTxs * p.fee);
    hide Plan.Amount;
    forall i | 0 <= i <= numTxs
      ensures p.Amount(i) == (numTxs + 1 - i) * p.fee && p.Amount(i) >= p.fee
    {
      LeftAfter(p, numTxs + 1, i);
      MulMonotone(1, numTxs + 1 - i, p.fee);
    }
    LeftAfter(p, numTxs + 1, numTxs + 1);
  }

  lemma SeedExact(numTxs: u64, txFee: u64)
    requires (numTxs + 1) * txFee < TWO64
    ensures Seed(numTxs, txFee) == (numTxs + 1) * txFee
  {
    if numTxs + 1 == TWO64 {
      assert Wrap(TWO64) == 0;
    } else {
      WrapUnique(numTxs + 1, 0, numTxs + 1);
      WrapUnique((numTxs + 1) * txFee, 0, (numTxs + 1) * txFee);
    }
  }

  lemma LeftAfter(p: Plan, n: nat, i: nat)
    requires i <= n && p.amount == n * p.fee
    ensures p.Amount(i) == (n - i) * p.fee
  {
    NoWrapBelow(p, n, i);
    assert (n - i) * p.fee == n * p.fee - i * p.fee;
  }

  // ---- All schedules ----

  /**
   * Each client's first listed output holds the seed under the client's key on the ledger, the outputs are different,
   * and nothing on the ledger descends from anything else there.
   */
  ghost predicate Seeded(l: Ledger, utxoLists: seq<seq<Utxo>>, keys: seq<Address>, numTxs: u64, txFee: u64)
    requires |keys| == |utxoLists| && AllListed(utxoLists)
  {
    && Sound(l.coins)
    && (forall c :: 0 <= c < |utxoLists| ==>
          utxoLists[c][0].id in l.coins && l.coins[utxoLists[c][0].id] == Coin(Seed(numTxs, txFee), keys[c]))
    && (forall c, d :: 0 <= c < d < |utxoLists| ==> utxoLists[c][0].id != utxoLists[d][0].id)
  }

  lemma SeededClients(l: Ledger, utxoLists: seq<seq<Utxo>>, keys: seq<Address>, numTxs: u64, txFee: u64)
    requires |keys| == |utxoLists| && AllListed(utxoLists) && Seeded(l, utxoLists, keys, numTxs, txFee)
    ensures var cl := ClientsOf(utxoLists, keys, numTxs, txFee);
            && (forall c :: 0 <= c < |cl| ==> Ready(l, cl[c].plan, cl[c].n))
            && (forall c, d :: 0 <= c < d < |cl| ==> cl[c].plan.start != cl[d].plan.start)
  {
    hide Seed, Sound, Ready;
    var cl := ClientsOf(utxoLists, keys, numTxs, txFee);
    forall c | 0 <= c < |cl| ensures Ready(l, cl[c].plan, cl[c].n) {
      SoundReady(l, cl[c].plan, cl[c].n);
    }
  }

  /**
   * Whatever order a schedule interleaves the clients' lists in, all transactions are accepted and the ledger ends as
   * it does for the executor's own order, with clients * numTxs * txFee burned and one fee left per client.
   */
  lemma EveryScheduleAgrees(l: Ledger, utxoLists: seq<seq<Utxo>>, keys: seq<Address>, numTxs: u64, txFee: u64, txs: seq<Tx>)
    requires |keys| == |utxoLists| && AllListed(utxoLists) && Seeded(l, utxoLists, keys, numTxs, txFee)
    requires (numTxs + 1) * txFee < TWO64
    requires IsInterleaving(txs, Lists(ClientsOf(utxoLists, keys, numTxs, txFee)))
    ensures !GuardRejects(numTxs, txFee)
    ensures Run(l, txFee, txs).Some?
    ensures Run(l, txFee, txs) == Run(l, txFee, Flatten(Lists(ClientsOf(utxoLists, keys, numTxs, txFee))))
    ensures Run(l, txFee, txs).value.burned == l.burned + |utxoLists| * numTxs * txFee
    ensures forall c :: 0 <= c < |utxoLists| ==>
              var p := PlanOf(utxoLists[c], keys[c], numTxs, txFee);
              && p.Head(numTxs) in Run(l, txFee, txs).value.coins
              && Run(l, txFee, txs).value.coins[p.Head(numTxs)] == Coin(txFee, keys[c])
  {
    var cl := ClientsOf(utxoLists, keys, numTxs, txFee);
    SeedKeepsAFee(Plan(Genesis(0), Seed(numTxs, txFee), txFee, ""), numTxs);
    SeededIsFunded(l, utxoLists, keys, numTxs, txFee);
    var order := Flatten(Lists(cl));
    FlattenIsInterleaving(Lists(cl), 0);
    assert Lists(cl)[0..] == Lists(cl);
    Confluent(l, txFee, cl, txs, order);
    EqualLengths(Lists(cl), numTxs);
    forall c | 0 <= c < |utxoLists|
      ensures var p := PlanOf(utxoLists[c], keys[c], numTxs, txFee);
              && p.Head(numTxs) in Run(l, txFee, txs).value.coins
              && Run(l, txFee, txs).value.coins[p.Head(numTxs)] == Coin(txFee, keys[c])
    {
      OneClient(Run(l, txFee, txs).value.coins, l, txFee, cl, AllIssued(cl), c);
      SeedKeepsAFee(cl[c].plan, numTxs);
    }
  }

  lemma SeededIsFunded(l: Ledger, utxoLists: seq<seq<Utxo>>, keys: seq<Address>, numTxs: u64, txFee: u64)
    requires |keys| == |utxoLists| && AllListed(utxoLists) && Seeded(l, utxoLists, keys, numTxs, txFee)
    requires (numTxs + 1) * txFee < TWO64
    ensures Funded(l, txFee, ClientsOf(utxoLists, keys, numTxs, txFee))
  {
    SeededClients(l, utxoLists, keys, numTxs, txFee);
    hide Seeded;
    var cl := ClientsOf(utxoLists, keys, numTxs, txFee);
    forall c | 0 <= c < |cl| ensures ClientReady(l, txFee, cl[c]) {
      SeedKeepsAFee(cl[c].plan, numTxs);
    }
  }

  lemma {:induction false} EqualLengths<T>(lists: seq<seq<T>>, n: nat)
    requires forall c :: 0 <= c < |lists| ==> |lists[c]| == n
    ensures SumLengths(lists) == |lists| * n
  {
    if lists != [] {
      EqualLengths(lists[1..], n);
      assert |lists| * n == n + (|lists| - 1) * n;
    }
  }
}
