/** The workflow runner: funding, moving money between the chains, staking, each step awaited before the next. */
module Runner {
  import opened MachineInt
  import opened Options
  import opened Sets
  import opened TwoChain
  import opened Polling

  const STAKING_DELAY: nat := 20 * SECOND
  const DELEGATION_DELAY: nat := 20 * SECOND
  const STAKING_PERIOD: nat := 72 * 3600 * SECOND
  const DELEGATION_PERIOD: nat := 36 * 3600 * SECOND
  const DELEGATION_FEE_RATE: nat := 2
  const SYNC_DELAY: nat := 3 * SECOND

  /** One user's address on each chain. */
  datatype Wallet = Wallet(x: Address, p: Address)

  datatype IssueResult = IssueResult(tx: Option<TxId>, w: World)

  /** The node refuses what the ledger cannot carry out; the call may also fail for reasons of its own. */
  function Issue(env: Env, w: World, op: Op): IssueResult {
    var w1 := Called(env, w);
    if env.rpcFails(w.calls) || Apply(env.fees, w.ledger, op).None? then
      IssueResult(None, w1.(log := w.log + [Refused(op)]))
    else
      var tx := w.issued + 1;
      IssueResult(Some(tx), w1.(issued := tx, pending := w.pending[tx := op], log := w.log + [Issued(tx, op)]))
  }

  function IssueAndWait(env: Env, chain: Chain, w: World, op: Op): Outcome {
    var r := Issue(env, w, op);
    if r.tx.None? then Err(r.w) else WaitTx(env, chain, r.tx.value, r.w)
  }

  function FundX(env: Env, w: World, src: Address, addresses: seq<Address>, amount: nat): Outcome
    decreases |addresses|
  {
    if addresses == [] then Ok(w)
    else
      var w1 :- IssueAndWait(env, X, w, Send(src, addresses[0], amount));
      FundX(env, w1, src, addresses[1..], amount)
  }

  function TransferXToP(env: Env, w: World, src: Address, pAddress: Address, amount: nat): Outcome {
    var w1 :- IssueAndWait(env, X, w, ExportX(src, pAddress, amount));
    IssueAndWait(env, P, w1, ImportP(pAddress))
  }

  function TransferPToX(env: Env, w: World, src: Address, xAddress: Address, amount: nat): Outcome {
    var w1 :- IssueAndWait(env, P, w, ExportP(src, xAddress, amount));
    ImportAfter(env, w1, xAddress)
  }

  /** The import's own error is overwritten: the wait then asks about the empty ID. */
  function ImportAfter(env: Env, w: World, xAddress: Address): Outcome {
    var r := Issue(env, w, ImportX(xAddress));
    WaitTx(env, X, r.tx.GetOr(EMPTY), r.w)
  }

  /** A balance query compared with what the test expects. */
  function Checked(env: Env, w: World, expected: bool): Outcome {
    if env.rpcFails(w.calls) || !expected then Err(Called(env, w)) else Ok(Called(env, w))
  }

  function CheckX(env: Env, w: World, address: Address, expected: nat): Outcome {
    Checked(env, w, Balance(w.ledger, OnX(address)) == expected)
  }

  function CheckP(env: Env, w: World, address: Address, expected: nat): Outcome {
    Checked(env, w, Balance(w.ledger, OnP(address)) == expected)
  }

  /** Sleeping until a point in time returns at once when it has passed. */
  function SleptUntil(env: Env, w: World, time: nat): World {
    if w.now >= time then w else w.(now := time + env.oversleep(w.calls))
  }

  /** A term from `start`, given in the clock's units, for `period`; the node is told whole seconds. */
  function TermAt(node: string, start: nat, period: nat): Term {
    Term(node, start / SECOND, (start + period) / SECOND)
  }

  function ValidatorOp(w: World, src: Address, node: string, amount: nat): Op {
    AddValidator(src, amount, TermAt(node, w.now + STAKING_DELAY, STAKING_PERIOD), DELEGATION_FEE_RATE)
  }

  function DelegatorOp(w: World, src: Address, node: string, amount: nat): Op {
    AddDelegator(src, amount, TermAt(node, w.now + DELEGATION_DELAY, DELEGATION_PERIOD))
  }

  function Stake(env: Env, w: World, op: Op, delay: nat): Outcome {
    var start := w.now + delay;
    var w1 :- IssueAndWait(env, P, w, op);
    Ok(SleptUntil(env, w1, start + SYNC_DELAY))
  }

  /** Moves a seed to the P-chain and stakes part of it. */
  function StartValidating(env: Env, w: World, wallet: Wallet, node: string, seed: nat, stake: nat): Outcome {
    var w1 :- TransferXToP(env, w, wallet.x, wallet.p, seed);
    Stake(env, w1, ValidatorOp(w1, wallet.p, node, stake), STAKING_DELAY)
  }

  datatype Sent = Sent(w: World, errs: seq<bool>)

  /** What the i-th send carries. */
  function BackAmount(amount: u64, txFee: u64, i: nat): u64 {
    Wrap(amount - Wrap(txFee * i))
  }

  /** The i-th and later sends; a failure is reported and the loop goes on, asking about the empty ID if need be. */
  function SendsFrom(env: Env, w: World, src: Address, dst: Address, amount: u64, txFee: u64, numTxs: u64, i: nat,
                     errs: seq<bool>): Sent
    decreases numTxs - i
  {
    if i >= numTxs then Sent(w, errs + [false])
    else
      var r := Issue(env, w, Send(src, dst, BackAmount(amount, txFee, i)));
      var waited := WaitTx(env, X, r.tx.GetOr(EMPTY), r.w);
      var errs1 := if r.tx.None? then errs + [true] else errs;
      var errs2 := if waited.Err? then errs1 + [true] else errs1;
      SendsFrom(env, waited.w, src, dst, amount, txFee, numTxs, i + 1, errs2)
  }

  // ---- The runner itself ----

  class RPCWorkFlowRunner {
    const network: Network
    const wallet: Wallet

    constructor (n: Network, user: Wallet)
      ensures network == n && wallet == user
    {
      network, wallet := n, user;
    }

    method Call(op: Op) returns (tx: Option<TxId>)
      modifies network
      ensures IssueResult(tx, network.w) == Issue(network.env, old(network.w), op)
    {
      var r := Issue(network.env, network.w, op);
      network.w := r.w;
      return r.tx;
    }

    method FundXChainAddresses(addresses: seq<Address>, amount: nat) returns (ok: bool)
      modifies network
      ensures FundX(network.env, old(network.w), wallet.x, addresses, amount) == if ok then Ok(network.w) else Err(network.w)
    {
      for i := 0 to |addresses|
        invariant FundX(network.env, network.w, wallet.x, addresses[i..], amount) ==
                  FundX(network.env, old(network.w), wallet.x, addresses, amount)
      {
        var tx := Call(Send(wallet.x, addresses[i], amount));
        if tx.None? {
          return false;
        }
        var accepted := network.WaitForXchainTransactionAcceptance(tx.value);
        if !accepted {
          return false;
        }
        assert addresses[i..][1..] == addresses[i + 1..];
      }
      return true;
    }

    /** What goes into the error channel is returned as a sequence, true standing for an error. */
    method SendAVAXBackAndForth(to: Address, amount: u64, txFee: u64, numTxs: u64) returns (errs: seq<bool>)
      modifies network
      ensures Sent(network.w, errs) == SendsFrom(network.env, old(network.w), wallet.x, to, amount, txFee, numTxs, 1, [])
    {
      hide BackAmount, Issue, WaitTx;
      errs := [];
      var i := 1;
      while i < numTxs
        invariant SendsFrom(network.env, network.w, wallet.x, to, amount, txFee, numTxs, i, errs) ==
                  SendsFrom(network.env, old(network.w), wallet.x, to, amount, txFee, numTxs, 1, [])
        decreases numTxs - i
      {
        var tx := Call(Send(wallet.x, to, BackAmount(amount, txFee, i)));
        if tx.None? {
          errs := errs + [true];
        }
        var accepted := network.WaitForXchainTransactionAcceptance(tx.GetOr(EMPTY));
        if !accepted {
          errs := errs + [true];
        }
        i := i + 1;
      }
      errs := errs + [false];
    }

    method TransferAvaXChainToPChain(pAddress: Address, amount: nat) returns (ok: bool)
      modifies network
      ensures TransferXToP(network.env, old(network.w), wallet.x, pAddress, amount) == if ok then Ok(network.w) else Err(network.w)
    {
      var tx := Call(ExportX(wallet.x, pAddress, amount));
      if tx.None? {
        return false;
      }
      ok := network.WaitForXchainTransactionAcceptance(tx.value);
      if !ok {
        return;
      }
      var importTx := Call(ImportP(pAddress));
      if importTx.None? {
        return false;
      }
      ok := network.WaitForPChainTransactionAcceptance(importTx.value);
    }

    method TransferAvaPChainToXChain(xAddress: Address, amount: nat) returns (ok: bool)
      modifies network
      ensures TransferPToX(network.env, old(network.w), wallet.p, xAddress, amount) == if ok then Ok(network.w) else Err(network.w)
    {
      var exportTx := Call(ExportP(wallet.p, xAddress, amount));
      if exportTx.None? {
        return false;
      }
      ok := network.WaitForPChainTransactionAcceptance(exportTx.value);
      if !ok {
        return;
      }
      var tx := Call(ImportX(xAddress));
      ok := network.WaitForXchainTransactionAcceptance(tx.GetOr(EMPTY));
    }

    method VerifyXChainAVABalance(address: Address, expected: nat) returns (ok: bool)
      modifies network
      ensures CheckX(network.env, old(network.w), address, expected) == if ok then Ok(network.w) else Err(network.w)
    {
      var balance := Balance(network.w.ledger, OnX(address));
      ok := !network.env.rpcFails(network.w.calls) && balance == expected;
      network.w := Called(network.env, network.w);
    }

    method VerifyPChainBalance(address: Address, expected: nat) returns (ok: bool)
      modifies network
      ensures CheckP(network.env, old(network.w), address, expected) == if ok then Ok(network.w) else Err(network.w)
    {
      var balance := Balance(network.w.ledger, OnP(address));
      ok := !network.env.rpcFails(network.w.calls) && balance == expected;
      network.w := Called(network.env, network.w);
    }

    method AddValidatorToPrimaryNetwork(node: string, amount: nat) returns (ok: bool)
      modifies network
      ensures Stake(network.env, old(network.w), ValidatorOp(old(network.w), wallet.p, node, amount), STAKING_DELAY) ==
              if ok then Ok(network.w) else Err(network.w)
    {
      var stakingStartTime := network.w.now + STAKING_DELAY;
      var tx := Call(AddValidator(wallet.p, amount, TermAt(node, stakingStartTime, STAKING_PERIOD), DELEGATION_FEE_RATE));
      if tx.None? {
        return false;
      }
      ok := network.WaitForPChainTransactionAcceptance(tx.value);
      if ok {
        network.w := SleptUntil(network.env, network.w, stakingStartTime + SYNC_DELAY);
      }
    }

    method AddDelegatorToPrimaryNetwork(node: string, amount: nat) returns (ok: bool)
      modifies network
      ensures Stake(network.env, old(network.w), DelegatorOp(old(network.w), wallet.p, node, amount), DELEGATION_DELAY) ==
              if ok then Ok(network.w) else Err(network.w)
    {
      var delegatorStartTime := network.w.now + DELEGATION_DELAY;
      var tx := Call(AddDelegator(wallet.p, amount, TermAt(node, delegatorStartTime, DELEGATION_PERIOD)));
      if tx.None? {
        return false;
      }
      ok := network.WaitForPChainTransactionAcceptance(tx.value);
      if ok {
        network.w := SleptUntil(network.env, network.w, delegatorStartTime + SYNC_DELAY);
      }
    }

    method ImportGenesisFundsAndStartValidating(node: string, seedAmount: nat, stakeAmount: nat) returns (ok: bool)
      modifies network
      ensures StartValidating(network.env, old(network.w), wallet, node, seedAmount, stakeAmount) ==
              if ok then Ok(network.w) else Err(network.w)
    {
      hide TransferXToP, Stake;
      ok := TransferAvaXChainToPChain(wallet.p, seedAmount);
      if !ok {
        return;
      }
      ok := AddValidatorToPrimaryNetwork(node, stakeAmount);
    }
  }

  /**
   * Staking on a node asks for a start no more than a second before the 20 seconds of delay are over and for the full
   * period, validating at fee rate 2, and returns only when that start and three more seconds have passed.
   */
  lemma StakeBlocksUntilStarted(env: Env, w: World, src: Address, node: string, amount: nat)
    ensures var op := ValidatorOp(w, src, node, amount);
            && op == AddValidator(src, amount, Term(node, op.term.start, op.term.start + 72 * 3600), 2)
            && op.term.start * 1_000_000_000 <= w.now + 20_000_000_000 < (op.term.start + 1) * 1_000_000_000
            && var r := Stake(env, w, op, STAKING_DELAY);
               r.Ok? ==> r.w.now >= op.term.start * 1_000_000_000 + 3_000_000_000
    ensures var op := DelegatorOp(w, src, node, amount);
            && op == AddDelegator(src, amount, Term(node, op.term.start, op.term.start + 36 * 3600))
            && op.term.start * 1_000_000_000 <= w.now + 20_000_000_000 < (op.term.start + 1) * 1_000_000_000
            && var r := Stake(env, w, op, DELEGATION_DELAY);
               r.Ok? ==> r.w.now >= op.term.start * 1_000_000_000 + 3_000_000_000
  {
    hide IssueAndWait;
  }

  // ---- Sending back and forth ----

  /** The operations that were asked for, whether the node took them or not. */
  function Attempts(log: seq<Event>): seq<Op> {
    if log == [] then []
    else
      var before := Attempts(log[..|log| - 1]);
      match log[|log| - 1]
      case Issued(_, op) => before + [op]
      case Refused(op) => before + [op]
      case Seen(_, _, _) => before
  }

  lemma IssueAttempts(env: Env, w: World, op: Op)
    ensures Attempts(Issue(env, w, op).w.log) == Attempts(w.log) + [op]
  {
    LogGrows(w, Issued(w.issued + 1, op));
    LogGrows(w, Refused(op));
  }

  lemma {:induction false} WaitAttemptsNothing(env: Env, chain: Chain, tx: TxId, start: int, w: World)
    ensures Attempts(Wait(env, chain, tx, start, w).w.log) == Attempts(w.log)
    decreases if w.now - start < env.timeout then start + env.timeout - w.now else 0
  {
    if w.now - start < env.timeout {
      LogGrows(w, Seen(chain, tx, env.Judge(chain, tx, w.calls)));
      hide Attempts, Settle;
      SeenAttemptsNothing(w.log, chain, tx, env.Judge(chain, tx, w.calls));
      QueryLog(env, chain, tx, w);
      if env.Judge(chain, tx, w.calls) == Pending {
        WaitAttemptsNothing(env, chain, tx, start, Slept(env, Queried(env, chain, tx, w)));
      }
    }
  }

  lemma QueryLog(env: Env, chain: Chain, tx: TxId, w: World)
    ensures Queried(env, chain, tx, w).log == w.log + [Seen(chain, tx, env.Judge(chain, tx, w.calls))]
  {
  }

  lemma SeenAttemptsNothing(log: seq<Event>, chain: Chain, tx: TxId, v: Verdict)
    ensures Attempts(log + [Seen(chain, tx, v)]) == Attempts(log)
  {
    assert (log + [Seen(chain, tx, v)])[..|log|] == log;
  }

  /** As long as i fees fit the amount, the i-th send carries what is left after them. */
  lemma BackAmounts(amount: u64, txFee: u64, i: nat)
    requires txFee * i <= amount
    ensures BackAmount(amount, txFee, i) + txFee * i == amount
  {
    var spent := txFee * i;
    WrapUnique(spent, 0, spent);
    WrapUnique(amount - spent, 0, amount - spent);
  }

  /** Beyond that it wraps around. */
  lemma BackAmountsWrap(amount: u64, txFee: u64, i: nat)
    ensures (BackAmount(amount, txFee, i) + txFee * i - amount) % TWO64 == 0
  {
    WrapSubRight(amount, txFee * i);
  }

  lemma WrapSubRight(a: int, b: int)
    ensures (Wrap(a - Wrap(b)) + b - a) % TWO64 == 0
  {
  }

  /** The sends that the loop has left to make. */
  function BackSends(src: Address, dst: Address, amount: u64, txFee: u64, numTxs: u64, i: nat): seq<Op>
    decreases numTxs - i
  {
    if i >= numTxs then []
    else [Send(src, dst, BackAmount(amount, txFee, i))] + BackSends(src, dst, amount, txFee, numTxs, i + 1)
  }

  lemma {:induction false} BackSendsCount(src: Address, dst: Address, amount: u64, txFee: u64, numTxs: u64, i: nat)
    ensures |BackSends(src, dst, amount, txFee, numTxs, i)| == if i < numTxs then numTxs - i else 0
    decreases numTxs - i
  {
    hide BackAmount;
    if i < numTxs {
      BackSendsCount(src, dst, amount, txFee, numTxs, i + 1);
    }
  }

  lemma {:induction false} SendsAttempted(env: Env, w: World, src: Address, dst: Address, amount: u64, txFee: u64, numTxs: u64,
                                          i: nat, errs: seq<bool>)
    ensures var sent := SendsFrom(env, w, src, dst, amount, txFee, numTxs, i, errs);
            && Attempts(sent.w.log) == Attempts(w.log) + BackSends(src, dst, amount, txFee, numTxs, i)
            && Sum(sent.w.ledger) == Sum(w.ledger)
    decreases numTxs - i
  {
    hide BackAmount, Issue, Wait, Attempts;
    if i < numTxs {
      var op := Send(src, dst, BackAmount(amount, txFee, i));
      var r := Issue(env, w, op);
      IssueAttempts(env, w, op);
      IssueMovesNothing(env, w, op);
      WaitAttemptsNothing(env, X, r.tx.GetOr(EMPTY), r.w.now, r.w);
      WaitConserves(env, X, r.tx.GetOr(EMPTY), r.w.now, r.w);
      var waited := WaitTx(env, X, r.tx.GetOr(EMPTY), r.w);
      var errs1 := if r.tx.None? then errs + [true] else errs;
      var errs2 := if waited.Err? then errs1 + [true] else errs1;
      SendsAttempted(env, waited.w, src, dst, amount, txFee, numTxs, i + 1, errs2);
    }
  }

  lemma IssueMovesNothing(env: Env, w: World, op: Op)
    ensures Issue(env, w, op).w.ledger == w.ledger
  {
  }

  /** Waiting conserves money even with several transactions in doubt. */
  lemma {:induction false} WaitConserves(env: Env, chain: Chain, tx: TxId, start: int, w: World)
    ensures Sum(Wait(env, chain, tx, start, w).w.ledger) == Sum(w.ledger)
    decreases if w.now - start < env.timeout then start + env.timeout - w.now else 0
  {
    if w.now - start < env.timeout {
      if tx in w.pending && Apply(env.fees, w.ledger, w.pending[tx]).Some? {
        ApplyConserves(env.fees, w.ledger, w.pending[tx]);
      }
      if env.Judge(chain, tx, w.calls) == Pending {
        WaitConserves(env, chain, tx, start, Slept(env, Queried(env, chain, tx, w)));
      }
    }
  }

  /**
   * The loop asks for exactly numTxs - 1 sends when asked for at least one, whatever fails, so it makes numTxs of
   * them only if numTxs is zero; and it conserves money.
   */
  lemma BackAndForth(env: Env, w: World, src: Address, dst: Address, amount: u64, txFee: u64, numTxs: u64)
    ensures var sent := SendsFrom(env, w, src, dst, amount, txFee, numTxs, 1, []);
            && Attempts(sent.w.log) == Attempts(w.log) + BackSends(src, dst, amount, txFee, numTxs, 1)
            && |Attempts(sent.w.log)| - |Attempts(w.log)| == (if numTxs >= 1 then numTxs - 1 else 0)
            && (|Attempts(sent.w.log)| - |Attempts(w.log)| == numTxs <==> numTxs == 0)
            && Sum(sent.w.ledger) == Sum(w.ledger)
  {
    hide Attempts, SendsFrom, BackSends;
    SendsAttempted(env, w, src, dst, amount, txFee, numTxs, 1, []);
    BackSendsCount(src, dst, amount, txFee, numTxs, 1);
  }

  // ---- The log ----

  /** Transactions issued and not yet observed accepted. */
  ghost function Outstanding(log: seq<Event>): set<TxId> {
    if log == [] then {}
    else
      var before := Outstanding(log[..|log| - 1]);
      match log[|log| - 1]
      case Issued(tx, _) => before + {tx}
      case Refused(_) => before
      case Seen(_, tx, v) => if v == Success then before - {tx} else before
  }

  /** The transaction is seen accepted. */
  predicate Accepts(e: Event, tx: TxId) {
    e.Seen? && e.tx == tx && e.verdict == Success
  }

  predicate ExportsFor(e: Event, op: Op) {
    match op
    case ImportP(dst) => e.Issued? && e.op.ExportX? && e.op.dst == dst
    case ImportX(dst) => e.Issued? && e.op.ExportP? && e.op.dst == dst
    case _ => true
  }

  predicate IsImport(op: Op) {
    op.ImportP? || op.ImportX?
  }

  /** `op` may be issued after `log`: nothing is outstanding, and an import has its export behind it. */
  ghost predicate MayIssue(log: seq<Event>, op: Op) {
    Outstanding(log) == {} && (IsImport(op) ==> exists e :: e in log && ExportsFor(e, op))
  }

  ghost predicate Disciplined(log: seq<Event>) {
    log == [] || (
      var n := |log| - 1;
      && Disciplined(log[..n])
      && (log[n].Issued? ==> MayIssue(log[..n], log[n].op)))
  }

  lemma {:induction false} DisciplinedAt(log: seq<Event>, i: nat)
    requires Disciplined(log) && i < |log| && log[i].Issued?
    ensures MayIssue(log[..i], log[i].op)
  {
    var n := |log| - 1;
    if i < n {
      DisciplinedAt(log[..n], i);
      assert log[..n][..i] == log[..i];
    }
  }

  lemma {:induction false} IssuedThenSeen(log: seq<Event>, j: nat)
    requires j < |log| && log[j].Issued? && log[j].tx !in Outstanding(log)
    ensures exists k :: j < k < |log| && Accepts(log[k], log[j].tx)
  {
    var n := |log| - 1;
    if j < n && !Accepts(log[n], log[j].tx) {
      IssuedThenSeen(log[..n], j);
    }
  }

  /** In a disciplined run every import follows an export to the same address that was observed accepted in between. */
  lemma ImportAfterAcceptedExport(log: seq<Event>, i: nat)
    requires Disciplined(log) && i < |log| && log[i].Issued? && IsImport(log[i].op)
    ensures exists j, k :: 0 <= j < k < i && ExportsFor(log[j], log[i].op) && Accepts(log[k], log[j].tx)
  {
    DisciplinedAt(log, i);
    var before := log[..i];
    var e :| e in before && ExportsFor(e, log[i].op);
    var j :| 0 <= j < i && before[j] == e;
    IssuedThenSeen(before, j);
    var k :| j < k < i && Accepts(before[k], e.tx);
    assert log[j] == e && Accepts(log[k], log[j].tx);
  }

  /** At no point of a disciplined run is more than one transaction unaccepted. */
  lemma {:induction false} AtMostOneOutstanding(log: seq<Event>)
    requires Disciplined(log)
    ensures |Outstanding(log)| <= 1
  {
    if log != [] {
      var before := Outstanding(log[..|log| - 1]);
      AtMostOneOutstanding(log[..|log| - 1]);
      match log[|log| - 1]
      case Issued(tx, _) => assert before + {tx} == {tx};
      case Refused(_) =>
      case Seen(_, tx, _) => SubsetSize(before - {tx}, before);
    }
  }

  // ---- The invariant of every run ----

  ghost predicate Inv(w: World) {
    && w.pending.Keys == Outstanding(w.log)
    && (forall tx :: tx in w.pending ==> 0 < tx <= w.issued)
    && Disciplined(w.log)
  }

  /** Nothing is in doubt. */
  predicate Quiet(w: World) {
    w.pending == map[]
  }

  lemma LogGrows(w: World, e: Event)
    ensures (w.log + [e])[..|w.log|] == w.log
  {
  }

  /** The one pending transaction can be carried out. */
  ghost predicate PendingOne(env: Env, w: World, tx: TxId, op: Op) {
    w.pending == map[tx := op] && Apply(env.fees, w.ledger, op).Some?
  }

  /** Everything but the clock, the call counter and the log. */
  predicate SameBooks(a: World, b: World) {
    && a.pending == b.pending && a.ledger == b.ledger && a.issued == b.issued
    && a.validators == b.validators && a.delegators == b.delegators
  }

  /** Waiting changes nothing but the clock and the log until the transaction is accepted, and then carries it out. */
  lemma {:induction false} WaitEffect(env: Env, chain: Chain, tx: TxId, start: int, w: World)
    requires Inv(w)
    ensures var r := Wait(env, chain, tx, start, w);
            && Inv(r.w) && w.log <= r.w.log && w.now <= r.w.now
            && SameBooks(r.w, if r.Ok? then Settle(env, w, tx) else w)
    decreases if w.now - start < env.timeout then start + env.timeout - w.now else 0
  {
    if w.now - start < env.timeout {
      QueryInv(env, chain, tx, w);
      QueryBooks(env, chain, tx, w);
      hide Inv, SameBooks, Settle, Queried;
      if env.Judge(chain, tx, w.calls) == Pending {
        WaitEffect(env, chain, tx, start, Slept(env, Queried(env, chain, tx, w)));
        SameBooksTransfer(env, tx, Slept(env, Queried(env, chain, tx, w)), w, Wait(env, chain, tx, start, w));
      }
    } else {
      assert SameBooks(w, w);
    }
  }

  /** A query changes the books only by settling. */
  lemma QueryBooks(env: Env, chain: Chain, tx: TxId, w: World)
    ensures var q := Queried(env, chain, tx, w);
            && w.log <= q.log && w.now <= q.now
            && SameBooks(q, if env.Judge(chain, tx, w.calls) == Success then Settle(env, w, tx) else w)
            && SameBooks(Slept(env, q), q) && Slept(env, q).log == q.log
            && (Inv(q) ==> Inv(Slept(env, q)))
  {
  }

  lemma SameBooksTransfer(env: Env, tx: TxId, a: World, b: World, r: Outcome)
    requires SameBooks(a, b) && SameBooks(r.w, if r.Ok? then Settle(env, a, tx) else a)
    ensures SameBooks(r.w, if r.Ok? then Settle(env, b, tx) else b)
  {
  }

  lemma QueryInv(env: Env, chain: Chain, tx: TxId, w: World)
    requires Inv(w)
    ensures Inv(Queried(env, chain, tx, w))
  {
    var e := Seen(chain, tx, env.Judge(chain, tx, w.calls));
    LogGrows(w, e);
    assert Outstanding(w.log + [e]) == Queried(env, chain, tx, w).pending.Keys;
  }

  /** Issuing with nothing outstanding keeps the discipline. */
  lemma IssueInv(env: Env, w: World, op: Op)
    requires Inv(w) && Quiet(w)
    requires IsImport(op) ==> exists e :: e in w.log && ExportsFor(e, op)
    ensures var r := Issue(env, w, op);
            && Inv(r.w) && w.log <= r.w.log && r.w.ledger == w.ledger && r.w.now >= w.now
            && r.w.validators == w.validators && r.w.delegators == w.delegators
            && (r.tx.None? ==> Quiet(r.w))
            && (r.tx.Some? ==> r.tx.value > 0 && PendingOne(env, r.w, r.tx.value, op) && Issued(r.tx.value, op) in r.w.log)
  {
    var r := Issue(env, w, op);
    if r.tx.Some? {
      LogGrows(w, Issued(r.tx.value, op));
      assert Outstanding(w.log) == {};
      assert r.w.log[|w.log|] == Issued(r.tx.value, op);
    } else {
      LogGrows(w, Refused(op));
    }
  }

  /** What issuing and awaiting one operation does to the world, whether it succeeds or not. */
  lemma StepEffect(env: Env, chain: Chain, w: World, op: Op)
    requires Inv(w) && Quiet(w)
    requires IsImport(op) ==> exists e :: e in w.log && ExportsFor(e, op)
    ensures var r := IssueAndWait(env, chain, w, op);
            && Inv(r.w) && w.log <= r.w.log && r.w.now >= w.now
            && (r.Ok? ==> && Quiet(r.w)
                          && Apply(env.fees, w.ledger, op) == Some(r.w.ledger)
                          && (exists e :: e in r.w.log && e.Issued? && e.op == op)
                          && r.w.validators == w.validators + (if op.AddValidator? then 1 else 0)
                          && r.w.delegators == w.delegators + (if op.AddDelegator? then 1 else 0))
            && (r.Err? ==> && r.w.ledger == w.ledger && r.w.validators == w.validators && r.w.delegators == w.delegators
                           && (Quiet(r.w) || exists tx :: PendingOne(env, r.w, tx, op)))
  {
    IssueInv(env, w, op);
    var i := Issue(env, w, op);
    if i.tx.Some? {
      var tx := i.tx.value;
      WaitEffect(env, chain, tx, i.w.now, i.w);
      var r := WaitTx(env, chain, tx, i.w);
      if r.Ok? {
        assert map[tx := op] - {tx} == map[];
        assert Issued(tx, op) in r.w.log;
      } else {
        assert PendingOne(env, r.w, tx, op);
      }
    }
  }

  // ---- Funding ----

  function AfterSends(fees: Fees, l: Accounts, src: Address, addresses: seq<Address>, amount: nat): Option<Accounts>
    decreases |addresses|
  {
    if addresses == [] then Some(l)
    else
      match Apply(fees, l, Send(src, addresses[0], amount))
      case None => None
      case Some(m) => AfterSends(fees, m, src, addresses[1..], amount)
  }

  /**
   * Funding stops at the first address it cannot fund: exactly the sends before it have been accepted, and at most
   * its own send is in doubt.
   */
  lemma {:induction false} FundEffect(env: Env, w: World, src: Address, addresses: seq<Address>, amount: nat) returns (k: nat)
    requires Inv(w) && Quiet(w)
    ensures var r := FundX(env, w, src, addresses, amount);
            && Inv(r.w) && w.log <= r.w.log
            && k <= |addresses|
            && AfterSends(env.fees, w.ledger, src, addresses[..k], amount) == Some(r.w.ledger)
            && r.w.validators == w.validators && r.w.delegators == w.delegators
            && (r.Ok? ==> k == |addresses| && Quiet(r.w))
            && (r.Err? ==> && k < |addresses|
                           && (Quiet(r.w) || exists tx :: PendingOne(env, r.w, tx, Send(src, addresses[k], amount))))
    decreases |addresses|
  {
    if addresses == [] {
      k := 0;
    } else {
      var op := Send(src, addresses[0], amount);
      StepEffect(env, X, w, op);
      var r := IssueAndWait(env, X, w, op);
      if r.Ok? {
        var rest := FundEffect(env, r.w, src, addresses[1..], amount);
        k := rest + 1;
        assert addresses[..k][1..] == addresses[1..][..rest];
        if rest < |addresses| - 1 {
          assert addresses[1..][rest] == addresses[k];
        }
      } else {
        k := 0;
      }
    }
  }

  // ---- Crossing chains ----

  lemma CrossingXToP(env: Env, w: World, src: Address, pAddress: Address, amount: nat)
    requires Inv(w) && Quiet(w)
    ensures var r := TransferXToP(env, w, src, pAddress, amount);
            && Inv(r.w) && w.log <= r.w.log
            && (r.Ok? ==> Quiet(r.w) && r.w.validators == w.validators && r.w.delegators == w.delegators)
            && Sum(r.w.ledger) == Sum(w.ledger)
  {
    var op := ExportX(src, pAddress, amount);
    StepEffect(env, X, w, op);
    var r := IssueAndWait(env, X, w, op);
    if r.Ok? {
      ApplyConserves(env.fees, w.ledger, op);
      var e :| e in r.w.log && e.Issued? && e.op == op;
      assert ExportsFor(e, ImportP(pAddress));
      StepEffect(env, P, r.w, ImportP(pAddress));
      if IssueAndWait(env, P, r.w, ImportP(pAddress)).Ok? {
        ApplyConserves(env.fees, r.w.ledger, ImportP(pAddress));
      }
    }
  }

  /** The import call of a P-to-X transfer is accepted. */
  ghost predicate ImportAccepted(env: Env, w: World, src: Address, xAddress: Address, amount: nat) {
    var exporting := IssueAndWait(env, P, w, ExportP(src, xAddress, amount));
    exporting.Ok? && Issue(env, exporting.w, ImportX(xAddress)).tx.Some?
  }

  /**
   * A P-to-X transfer that reports success has credited the X-chain if and only if its import call was accepted;
   * otherwise the money is still in flight.
   */
  lemma CrossingPToX(env: Env, w: World, src: Address, xAddress: Address, amount: nat)
    requires Inv(w) && Quiet(w)
    ensures var r := TransferPToX(env, w, src, xAddress, amount);
            && Inv(r.w) && w.log <= r.w.log
            && Sum(r.w.ledger) == Sum(w.ledger)
            && (r.Ok? ==>
                  && Quiet(r.w) && r.w.validators == w.validators && r.w.delegators == w.delegators
                  && Apply(env.fees, w.ledger, ExportP(src, xAddress, amount)).Some?
                  && var exported := Apply(env.fees, w.ledger, ExportP(src, xAddress, amount)).value;
                     if ImportAccepted(env, w, src, xAddress, amount)
                     then Apply(env.fees, exported, ImportX(xAddress)) == Some(r.w.ledger)
                     else r.w.ledger == exported && Balance(r.w.ledger, ToX(xAddress)) >= amount > 0)
  {
    var op := ExportP(src, xAddress, amount);
    StepEffect(env, P, w, op);
    var r := IssueAndWait(env, P, w, op);
    if r.Ok? {
      ApplyConserves(env.fees, w.ledger, op);
      var e :| e in r.w.log && e.Issued? && e.op == op;
      assert ExportsFor(e, ImportX(xAddress));
      assert Balance(r.w.ledger, ToX(xAddress)) >= amount > 0;
      hide *;
      ImportStep(env, r.w, xAddress);
      ExportThenImport(env, w, src, xAddress, amount);
    }
  }

  lemma ExportThenImport(env: Env, w: World, src: Address, xAddress: Address, amount: nat)
    ensures var r := IssueAndWait(env, P, w, ExportP(src, xAddress, amount));
            && TransferPToX(env, w, src, xAddress, amount) == (if r.Ok? then ImportAfter(env, r.w, xAddress) else r)
            && (ImportAccepted(env, w, src, xAddress, amount) <==> r.Ok? && Issue(env, r.w, ImportX(xAddress)).tx.Some?)
  {
  }

  lemma ImportStep(env: Env, w: World, xAddress: Address)
    requires Inv(w) && Quiet(w) && exists e :: e in w.log && ExportsFor(e, ImportX(xAddress))
    ensures var r := ImportAfter(env, w, xAddress);
            && Inv(r.w) && w.log <= r.w.log && Sum(r.w.ledger) == Sum(w.ledger)
            && (r.Ok? ==>
                  && Quiet(r.w) && r.w.validators == w.validators && r.w.delegators == w.delegators
                  && if Issue(env, w, ImportX(xAddress)).tx.Some?
                     then Apply(env.fees, w.ledger, ImportX(xAddress)) == Some(r.w.ledger)
                     else r.w.ledger == w.ledger)
  {
    IssueInv(env, w, ImportX(xAddress));
    var i := Issue(env, w, ImportX(xAddress));
    WaitEffect(env, X, i.tx.GetOr(EMPTY), i.w.now, i.w);
    if i.tx.Some? {
      ApplyConserves(env.fees, i.w.ledger, ImportX(xAddress));
      assert map[i.tx.value := ImportX(xAddress)] - {i.tx.value} == map[];
    }
  }

  /**
   * A concrete run in which the transfer reports success and the money never arrives: the import call fails, and the
   * network calls the empty ID accepted.
   */
  lemma LostImport()
    ensures var env := Env((tx, k) => Status(Accepted), (tx, k) => Status(Committed), k => k == 2, k => 0, k => 0, SECOND, Fees(0, 0));
            var w := World(0, 0, 0, map[], map[OnP("a") := 10], 5, 0, []);
            var r := TransferPToX(env, w, "a", "b", 5);
            r.Ok? && Balance(r.w.ledger, OnX("b")) == 0 && Balance(r.w.ledger, ToX("b")) == 5
  {
    var env := Env((tx, k) => Status(Accepted), (tx, k) => Status(Committed), k => k == 2, k => 0, k => 0, SECOND, Fees(0, 0));
    var w := World(0, 0, 0, map[], map[OnP("a") := 10], 5, 0, []);
    var op := ExportP("a", "b", 5);
    var i := Issue(env, w, op);
    assert i.tx == Some(1);
    var q := Queried(env, P, 1, i.w);
    assert WaitTx(env, P, 1, i.w) == Ok(q);
    assert q.calls == 2 && Balance(q.ledger, ToX("b")) == 5;
    var j := Issue(env, q, ImportX("b"));
    assert j.tx == None;
    assert WaitTx(env, X, EMPTY, j.w) == Ok(Queried(env, X, EMPTY, j.w));
  }

  /** It takes both: on a network that never calls the empty ID accepted, success means the import went through. */
  lemma EmptyNeverAccepted(env: Env, w: World, src: Address, xAddress: Address, amount: nat)
    requires forall k :: env.Judge(X, EMPTY, k) != Success
    ensures TransferPToX(env, w, src, xAddress, amount).Ok? ==> ImportAccepted(env, w, src, xAddress, amount)
  {
    ExportThenImport(env, w, src, xAddress, amount);
    var exported := IssueAndWait(env, P, w, ExportP(src, xAddress, amount));
    var i := Issue(env, exported.w, ImportX(xAddress));
    hide Issue, IssueAndWait, TransferPToX, ImportAccepted, Wait;
    WaitIff(env, X, EMPTY, i.w.now, i.w);
  }

  lemma StakeEffect(env: Env, w: World, op: Op, delay: nat)
    requires Inv(w) && Quiet(w) && (op.AddValidator? || op.AddDelegator?)
    ensures var r := Stake(env, w, op, delay);
            && Inv(r.w) && w.log <= r.w.log
            && (r.Ok? ==> Quiet(r.w) && Apply(env.fees, w.ledger, op) == Some(r.w.ledger)
                          && r.w.validators == w.validators + (if op.AddValidator? then 1 else 0)
                          && r.w.delegators == w.delegators + (if op.AddDelegator? then 1 else 0))
            && Sum(r.w.ledger) == Sum(w.ledger)
  {
    StepEffect(env, P, w, op);
    if IssueAndWait(env, P, w, op).Ok? {
      ApplyConserves(env.fees, w.ledger, op);
    }
  }

  // ---- Whole runs ----

  /** The steps a test can be written in, checks included. */
  datatype Step =
    | Fund(src: Address, addresses: seq<Address>, amount: nat)
    | XToP(src: Address, dst: Address, amount: nat)
    | PToX(src: Address, dst: Address, amount: nat)
    | Validate(src: Address, node: string, amount: nat)
    | Delegate(src: Address, node: string, amount: nat)
    | ExpectX(address: Address, balance: nat)
    | ExpectP(address: Address, balance: nat)
    | ExpectNodes(validators: nat, delegators: nat)

  function RunStep(env: Env, w: World, s: Step): Outcome {
    match s
    case Fund(src, addresses, amount) => FundX(env, w, src, addresses, amount)
    case XToP(src, dst, amount) => TransferXToP(env, w, src, dst, amount)
    case PToX(src, dst, amount) => TransferPToX(env, w, src, dst, amount)
    case Validate(src, node, amount) => Stake(env, w, ValidatorOp(w, src, node, amount), STAKING_DELAY)
    case Delegate(src, node, amount) => Stake(env, w, DelegatorOp(w, src, node, amount), DELEGATION_DELAY)
    case ExpectX(address, balance) => CheckX(env, w, address, balance)
    case ExpectP(address, balance) => CheckP(env, w, address, balance)
    case ExpectNodes(validators, delegators) => Checked(env, w, w.validators == validators && w.delegators == delegators)
  }

  /** Steps in order, up to the first that fails. */
  function RunSteps(env: Env, w: World, steps: seq<Step>): Outcome
    decreases |steps|
  {
    if steps == [] then Ok(w)
    else
      var w1 :- RunStep(env, w, steps[0]);
      RunSteps(env, w1, steps[1..])
  }

  lemma {:induction false} SendsConserve(fees: Fees, l: Accounts, src: Address, addresses: seq<Address>, amount: nat)
    requires AfterSends(fees, l, src, addresses, amount).Some?
    ensures Sum(AfterSends(fees, l, src, addresses, amount).value) == Sum(l)
    decreases |addresses|
  {
    if addresses != [] {
      var op := Send(src, addresses[0], amount);
      ApplyConserves(fees, l, op);
      SendsConserve(fees, Apply(fees, l, op).value, src, addresses[1..], amount);
    }
  }

  lemma CheckMovesNothing(env: Env, w: World, expected: bool)
    requires Inv(w) && Quiet(w)
    ensures var r := Checked(env, w, expected);
            Inv(r.w) && Quiet(r.w) && r.w.ledger == w.ledger
  {
  }

  lemma StepKeeps(env: Env, w: World, s: Step)
    requires Inv(w) && Quiet(w)
    ensures var r := RunStep(env, w, s);
            Inv(r.w) && Sum(r.w.ledger) == Sum(w.ledger) && (r.Ok? ==> Quiet(r.w))
  {
    match s
    case Fund(src, addresses, amount) =>
      var k := FundEffect(env, w, src, addresses, amount);
      SendsConserve(env.fees, w.ledger, src, addresses[..k], amount);
    case XToP(src, dst, amount) => CrossingXToP(env, w, src, dst, amount);
    case PToX(src, dst, amount) => CrossingPToX(env, w, src, dst, amount);
    case Validate(src, node, amount) => StakeEffect(env, w, ValidatorOp(w, src, node, amount), STAKING_DELAY);
    case Delegate(src, node, amount) => StakeEffect(env, w, DelegatorOp(w, src, node, amount), DELEGATION_DELAY);
    case ExpectX(address, balance) => CheckMovesNothing(env, w, Balance(w.ledger, OnX(address)) == balance);
    case ExpectP(address, balance) => CheckMovesNothing(env, w, Balance(w.ledger, OnP(address)) == balance);
    case ExpectNodes(validators, delegators) =>
      CheckMovesNothing(env, w, w.validators == validators && w.delegators == delegators);
  }

  /**
   * Over every sequence of steps, on every network, whether the run completes or an error cuts it short: no money is
   * made or lost, imports only follow exports observed accepted, and never is more than one transaction in doubt.
   */
  lemma {:induction false} RunSafe(env: Env, w: World, steps: seq<Step>)
    requires Inv(w) && Quiet(w)
    ensures var r := RunSteps(env, w, steps);
            && Sum(r.w.ledger) == Sum(w.ledger)
            && Disciplined(r.w.log)
            && |r.w.pending| <= 1
            && (r.Ok? ==> Quiet(r.w))
    decreases |steps|
  {
    AtMostOneOutstanding(w.log);
    if steps != [] {
      StepKeeps(env, w, steps[0]);
      var r := RunStep(env, w, steps[0]);
      AtMostOneOutstanding(r.w.log);
      if r.Ok? {
        RunSafe(env, r.w, steps[1..]);
      }
    }
  }
}
