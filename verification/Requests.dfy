/** What a run asks of the network, operation by operation, and on which chain it waits for each. */
module Requests {
  import opened MachineInt
  import opened TwoChain
  import opened Polling
  import opened Runner

  // ---- Asking ----

  lemma IssueAndWaitAsks(env: Env, chain: Chain, w: World, op: Op)
    ensures Attempts(IssueAndWait(env, chain, w, op).w.log) == Attempts(w.log) + [op]
  {
    IssueAttempts(env, w, op);
    var i := Issue(env, w, op);
    hide Issue, Wait, Attempts;
    if i.tx.Some? {
      WaitAttemptsNothing(env, chain, i.tx.value, i.w.now, i.w);
    }
  }

  function Sends(src: Address, addresses: seq<Address>, amount: nat): (r: seq<Op>)
    ensures |r| == |addresses| && forall i :: 0 <= i < |r| ==> r[i] == Send(src, addresses[i], amount)
  {
    seq(|addresses|, i requires 0 <= i < |addresses| => Send(src, addresses[i], amount))
  }

  lemma PrefixOf<T>(a: seq<T>, x: T, b: seq<T>, k: nat)
    requires k <= |b|
    ensures (a + [x]) + b[..k] == a + ([x] + b)[..k + 1]
  {
  }

  /** Funding asks for one send to each address in turn, up to the one that fails. */
  lemma {:induction false} FundAsks(env: Env, w: World, src: Address, addresses: seq<Address>, amount: nat) returns (k: nat)
    ensures var r := FundX(env, w, src, addresses, amount);
            && k <= |addresses| && (r.Ok? ==> k == |addresses|)
            && Attempts(r.w.log) == Attempts(w.log) + Sends(src, addresses, amount)[..k]
    decreases |addresses|
  {
    hide FundX, IssueAndWait, Attempts, Sends;
    FundUnroll(env, w, src, addresses, amount);
    k := 0;
    if addresses != [] {
      var op, tail := Send(src, addresses[0], amount), Sends(src, addresses[1..], amount);
      IssueAndWaitAsks(env, X, w, op);
      var r := IssueAndWait(env, X, w, op);
      SendsHead(src, addresses, amount);
      var rest := 0;
      if r.Ok? {
        rest := FundAsks(env, r.w, src, addresses[1..], amount);
      }
      PrefixOf(Attempts(w.log), op, tail, rest);
      k := rest + 1;
    }
  }

  lemma FundUnroll(env: Env, w: World, src: Address, addresses: seq<Address>, amount: nat)
    ensures addresses == [] ==> FundX(env, w, src, addresses, amount) == Ok(w)
    ensures addresses != [] ==>
              var r := IssueAndWait(env, X, w, Send(src, addresses[0], amount));
              FundX(env, w, src, addresses, amount) == if r.Ok? then FundX(env, r.w, src, addresses[1..], amount) else r
  {
    hide IssueAndWait;
  }

  lemma SendsHead(src: Address, addresses: seq<Address>, amount: nat)
    requires addresses != []
    ensures Sends(src, addresses, amount) == [Send(src, addresses[0], amount)] + Sends(src, addresses[1..], amount)
  {
  }

  /** Moving to the P-chain asks for the export of the amount and, once that is through, for the import. */
  lemma XToPAsks(env: Env, w: World, src: Address, dst: Address, amount: nat)
    ensures var r := TransferXToP(env, w, src, dst, amount);
            || Attempts(r.w.log) == Attempts(w.log) + [ExportX(src, dst, amount), ImportP(dst)]
            || (r.Err? && Attempts(r.w.log) == Attempts(w.log) + [ExportX(src, dst, amount)])
  {
    IssueAndWaitAsks(env, X, w, ExportX(src, dst, amount));
    IssueAndWaitAsks(env, P, IssueAndWait(env, X, w, ExportX(src, dst, amount)).w, ImportP(dst));
    hide IssueAndWait, Attempts;
  }

  /** Moving back asks for the export and, once that is through, for the import. */
  lemma PToXAsks(env: Env, w: World, src: Address, dst: Address, amount: nat)
    ensures var r := TransferPToX(env, w, src, dst, amount);
            || Attempts(r.w.log) == Attempts(w.log) + [ExportP(src, dst, amount), ImportX(dst)]
            || (r.Err? && Attempts(r.w.log) == Attempts(w.log) + [ExportP(src, dst, amount)])
  {
    var exported := IssueAndWait(env, P, w, ExportP(src, dst, amount));
    IssueAndWaitAsks(env, P, w, ExportP(src, dst, amount));
    var i := Issue(env, exported.w, ImportX(dst));
    IssueAttempts(env, exported.w, ImportX(dst));
    hide IssueAndWait, Attempts, Wait;
    WaitAttemptsNothing(env, X, i.tx.GetOr(EMPTY), i.w.now, i.w);
  }

  /** Staking asks for exactly one operation, on the node and for the term it is given. */
  lemma StakeAsks(env: Env, w: World, src: Address, node: string, amount: nat)
    ensures var start := (w.now + 20_000_000_000) / 1_000_000_000;
            Attempts(Stake(env, w, ValidatorOp(w, src, node, amount), STAKING_DELAY).w.log) ==
            Attempts(w.log) + [AddValidator(src, amount, Term(node, start, start + 72 * 3600), 2)]
    ensures var start := (w.now + 20_000_000_000) / 1_000_000_000;
            Attempts(Stake(env, w, DelegatorOp(w, src, node, amount), DELEGATION_DELAY).w.log) ==
            Attempts(w.log) + [AddDelegator(src, amount, Term(node, start, start + 36 * 3600))]
  {
    IssueAndWaitAsks(env, P, w, ValidatorOp(w, src, node, amount));
    IssueAndWaitAsks(env, P, w, DelegatorOp(w, src, node, amount));
    hide IssueAndWait, Attempts;
  }

  lemma TwoAndOne<T>(a: seq<T>, x: T, y: T, z: T)
    ensures (a + [x, y]) + [z] == a + [x, y, z]
  {
  }

  /** Seeding and staking asks for export, import and staking of just these amounts. */
  lemma StartValidatingAsks(env: Env, w: World, wallet: Wallet, node: string, seed: nat, stake: nat)
    returns (start: nat)
    ensures var r := StartValidating(env, w, wallet, node, seed, stake);
            r.Ok? ==> Attempts(r.w.log) == Attempts(w.log) +
                        [ExportX(wallet.x, wallet.p, seed), ImportP(wallet.p),
                         AddValidator(wallet.p, stake, Term(node, start, start + 72 * 3600), 2)]
  {
    hide TransferXToP, Stake, ValidatorOp, Attempts;
    XToPAsks(env, w, wallet.x, wallet.p, seed);
    var r1 := TransferXToP(env, w, wallet.x, wallet.p, seed);
    start := (r1.w.now + 20_000_000_000) / 1_000_000_000;
    StakeAsks(env, r1.w, wallet.p, node, stake);
    var staked := AddValidator(wallet.p, stake, Term(node, start, start + 72 * 3600), 2);
    TwoAndOne(Attempts(w.log), ExportX(wallet.x, wallet.p, seed), ImportP(wallet.p), staked);
  }

  // ---- Sending back and forth ----

  lemma {:induction false} BackSendsAt(src: Address, dst: Address, amount: u64, txFee: u64, numTxs: u64, i: nat, k: nat)
    requires i + k < numTxs
    ensures |BackSends(src, dst, amount, txFee, numTxs, i)| == numTxs - i
    ensures BackSends(src, dst, amount, txFee, numTxs, i)[k] == Send(src, dst, BackAmount(amount, txFee, i + k))
    decreases numTxs - i
  {
    hide BackAmount;
    BackSendsCount(src, dst, amount, txFee, numTxs, i);
    if k > 0 {
      BackSendsAt(src, dst, amount, txFee, numTxs, i + 1, k - 1);
    }
  }

  /** The k-th send goes to the given address and, while the fees fit, carries the amount less k fees. */
  lemma BackAsks(env: Env, w: World, src: Address, dst: Address, amount: u64, txFee: u64, numTxs: u64, k: nat)
    requires 1 <= k < numTxs && txFee * k <= amount
    ensures var asked := Attempts(SendsFrom(env, w, src, dst, amount, txFee, numTxs, 1, []).w.log);
            |asked| == |Attempts(w.log)| + numTxs - 1 && asked[|Attempts(w.log)| + k - 1] == Send(src, dst, amount - txFee * k)
  {
    BackSendsAt(src, dst, amount, txFee, numTxs, 1, k - 1);
    BackAmounts(amount, txFee, k);
    hide BackAmount, BackSends, SendsFrom, Attempts;
    SendsAttempted(env, w, src, dst, amount, txFee, numTxs, 1, []);
  }

  function Refusals(log: seq<Event>): nat {
    if log == [] then 0
    else Refusals(log[..|log| - 1]) + (if log[|log| - 1].Refused? then 1 else 0)
  }

  function Acceptances(log: seq<Event>): nat {
    if log == [] then 0
    else Acceptances(log[..|log| - 1]) + (if log[|log| - 1].Seen? && log[|log| - 1].verdict == Success then 1 else 0)
  }

  lemma IssueCounts(env: Env, w: World, op: Op)
    ensures var i := Issue(env, w, op);
            Refusals(i.w.log) == Refusals(w.log) + (if i.tx.None? then 1 else 0) && Acceptances(i.w.log) == Acceptances(w.log)
  {
    LogGrows(w, Issued(w.issued + 1, op));
    LogGrows(w, Refused(op));
  }

  lemma {:induction false} WaitCounts(env: Env, chain: Chain, tx: TxId, start: int, w: World)
    ensures var r := Wait(env, chain, tx, start, w);
            Refusals(r.w.log) == Refusals(w.log) && Acceptances(r.w.log) == Acceptances(w.log) + (if r.Ok? then 1 else 0)
    decreases if w.now - start < env.timeout then start + env.timeout - w.now else 0
  {
    if w.now - start < env.timeout {
      LogGrows(w, Seen(chain, tx, env.Judge(chain, tx, w.calls)));
      QueryLog(env, chain, tx, w);
      if env.Judge(chain, tx, w.calls) == Pending {
        WaitCounts(env, chain, tx, start, Slept(env, Queried(env, chain, tx, w)));
      }
    }
  }

  lemma {:induction false} SendsErrors(env: Env, w: World, src: Address, dst: Address, amount: u64, txFee: u64, numTxs: u64,
                                       i: nat, errs: seq<bool>)
    requires forall e :: e in errs ==> e
    ensures var sent := SendsFrom(env, w, src, dst, amount, txFee, numTxs, i, errs);
            var n := |sent.errs| - 1;
            && n >= 0 && !sent.errs[n] && (forall e :: e in sent.errs[..n] ==> e)
            && n + (Acceptances(sent.w.log) - Acceptances(w.log)) ==
               |errs| + (Refusals(sent.w.log) - Refusals(w.log)) + (if i < numTxs then numTxs - i else 0)
    decreases numTxs - i
  {
    hide BackAmount, Issue, Wait, Refusals, Acceptances;
    if i >= numTxs {
      assert (errs + [false])[..|errs|] == errs;
    } else {
      var op := Send(src, dst, BackAmount(amount, txFee, i));
      var r := Issue(env, w, op);
      IssueCounts(env, w, op);
      WaitCounts(env, X, r.tx.GetOr(EMPTY), r.w.now, r.w);
      var waited := WaitTx(env, X, r.tx.GetOr(EMPTY), r.w);
      var errs1 := if r.tx.None? then errs + [true] else errs;
      var errs2 := if waited.Err? then errs1 + [true] else errs1;
      SendsErrors(env, waited.w, src, dst, amount, txFee, numTxs, i + 1, errs2);
    }
  }

  /**
   * The channel gets one error for each refused send and one for each of the numTxs - 1 waits that does not end in an
   * acceptance, and then a single nil.
   */
  lemma BackErrors(env: Env, w: World, src: Address, dst: Address, amount: u64, txFee: u64, numTxs: u64)
    ensures var sent := SendsFrom(env, w, src, dst, amount, txFee, numTxs, 1, []);
            var errors := |sent.errs| - 1;
            var waits := if numTxs >= 1 then numTxs - 1 else 0;
            && errors >= 0 && !sent.errs[errors] && (forall e :: e in sent.errs[..errors] ==> e)
            && errors == (Refusals(sent.w.log) - Refusals(w.log)) + (waits - (Acceptances(sent.w.log) - Acceptances(w.log)))
  {
    SendsErrors(env, w, src, dst, amount, txFee, numTxs, 1, []);
  }

  // ---- Waiting on the right chain ----

  /** Where an operation takes effect: exports on the chain they leave, imports on the one they reach. */
  function Home(op: Op): Chain {
    if op.Send? || op.ExportX? || op.ImportX? then X else P
  }

  /** Issued transactions are numbered, and every one of them is only ever asked about on its own chain. */
  ghost predicate OwnChains(w: World) {
    && (forall e :: e in w.log && e.Issued? ==> 0 < e.tx <= w.issued)
    && (forall e :: e in w.log && e.Seen? ==> e.tx <= w.issued)
    && (forall e, f :: e in w.log && f in w.log && e.Issued? && f.Seen? && e.tx == f.tx ==> f.chain == Home(e.op))
  }

  lemma {:induction false} WaitOwn(env: Env, chain: Chain, tx: TxId, start: int, w: World)
    requires OwnChains(w) && tx <= w.issued && forall e :: e in w.log && e.Issued? && e.tx == tx ==> Home(e.op) == chain
    ensures OwnChains(Wait(env, chain, tx, start, w).w)
    decreases if w.now - start < env.timeout then start + env.timeout - w.now else 0
  {
    if w.now - start < env.timeout {
      var q := Queried(env, chain, tx, w);
      QueryLog(env, chain, tx, w);
      assert q.issued == w.issued && Slept(env, q).issued == w.issued && Slept(env, q).log == q.log;
      if env.Judge(chain, tx, w.calls) == Pending {
        WaitOwn(env, chain, tx, start, Slept(env, q));
      }
    }
  }

  lemma IssueOwn(env: Env, w: World, op: Op)
    requires OwnChains(w)
    ensures var i := Issue(env, w, op);
            && OwnChains(i.w) && i.tx.GetOr(EMPTY) <= i.w.issued
            && forall e :: e in i.w.log && e.Issued? && e.tx == i.tx.GetOr(EMPTY) ==> e.op == op
  {
  }

  lemma IssueAndWaitOwn(env: Env, w: World, op: Op)
    requires OwnChains(w)
    ensures OwnChains(IssueAndWait(env, Home(op), w, op).w)
  {
    IssueOwn(env, w, op);
    var i := Issue(env, w, op);
    hide OwnChains, Issue, Wait;
    if i.tx.Some? {
      WaitOwn(env, Home(op), i.tx.value, i.w.now, i.w);
    }
  }

  lemma {:induction false} FundOwn(env: Env, w: World, src: Address, addresses: seq<Address>, amount: nat)
    requires OwnChains(w)
    ensures OwnChains(FundX(env, w, src, addresses, amount).w)
    decreases |addresses|
  {
    if addresses != [] {
      var op := Send(src, addresses[0], amount);
      IssueAndWaitOwn(env, w, op);
      hide OwnChains, IssueAndWait;
      FundOwn(env, IssueAndWait(env, X, w, op).w, src, addresses[1..], amount);
    }
  }

  lemma StepOwn(env: Env, w: World, s: Step)
    requires OwnChains(w)
    ensures OwnChains(RunStep(env, w, s).w)
  {
    hide OwnChains, IssueAndWait;
    match s
    case Fund(src, addresses, amount) => FundOwn(env, w, src, addresses, amount);
    case XToP(src, dst, amount) =>
      IssueAndWaitOwn(env, w, ExportX(src, dst, amount));
      IssueAndWaitOwn(env, IssueAndWait(env, X, w, ExportX(src, dst, amount)).w, ImportP(dst));
    case PToX(src, dst, amount) =>
      IssueAndWaitOwn(env, w, ExportP(src, dst, amount));
      ImportOwn(env, IssueAndWait(env, P, w, ExportP(src, dst, amount)).w, dst);
    case Validate(src, node, amount) => StakeOwn(env, w, ValidatorOp(w, src, node, amount), STAKING_DELAY);
    case Delegate(src, node, amount) => StakeOwn(env, w, DelegatorOp(w, src, node, amount), DELEGATION_DELAY);
    case ExpectX(_, _) => CallOwn(env, w);
    case ExpectP(_, _) => CallOwn(env, w);
    case ExpectNodes(_, _) => CallOwn(env, w);
  }

  lemma ImportOwn(env: Env, w: World, dst: Address)
    requires OwnChains(w)
    ensures OwnChains(ImportAfter(env, w, dst).w)
  {
    IssueOwn(env, w, ImportX(dst));
    var i := Issue(env, w, ImportX(dst));
    hide OwnChains, Issue, Wait;
    WaitOwn(env, X, i.tx.GetOr(EMPTY), i.w.now, i.w);
  }

  lemma StakeOwn(env: Env, w: World, op: Op, delay: nat)
    requires OwnChains(w) && (op.AddValidator? || op.AddDelegator?)
    ensures OwnChains(Stake(env, w, op, delay).w)
  {
    hide IssueAndWait;
    IssueAndWaitOwn(env, w, op);
  }

  lemma CallOwn(env: Env, w: World)
    requires OwnChains(w)
    ensures OwnChains(Called(env, w))
  {
  }

  /** Over every script on every network, each transaction is only asked about on the chain it was issued to. */
  lemma {:induction false} RunOwn(env: Env, w: World, steps: seq<Step>)
    requires OwnChains(w)
    ensures OwnChains(RunSteps(env, w, steps).w)
    decreases |steps|
  {
    if steps != [] {
      StepOwn(env, w, steps[0]);
      hide OwnChains, RunStep;
      RunOwn(env, RunStep(env, w, steps[0]).w, steps[1..]);
    }
  }

  /** The same for the sends back and forth. */
  lemma {:induction false} BackOwn(env: Env, w: World, src: Address, dst: Address, amount: u64, txFee: u64, numTxs: u64, i: nat,
                                   errs: seq<bool>)
    requires OwnChains(w)
    ensures OwnChains(SendsFrom(env, w, src, dst, amount, txFee, numTxs, i, errs).w)
    decreases numTxs - i
  {
    hide OwnChains, BackAmount, Issue, Wait;
    if i < numTxs {
      var op := Send(src, dst, BackAmount(amount, txFee, i));
      IssueOwn(env, w, op);
      var r := Issue(env, w, op);
      WaitOwn(env, X, r.tx.GetOr(EMPTY), r.w.now, r.w);
      var waited := WaitTx(env, X, r.tx.GetOr(EMPTY), r.w);
      var errs1 := if r.tx.None? then errs + [true] else errs;
      var errs2 := if waited.Err? then errs1 + [true] else errs1;
      BackOwn(env, waited.w, src, dst, amount, txFee, numTxs, i + 1, errs2);
    }
  }

  // ---- Whole scripts ----

  /** An operation without the times, which depend on the clock. */
  function Bare(op: Op): Op {
    match op
    case AddValidator(src, amount, term, rate) => AddValidator(src, amount, Term(term.node, 0, 0), rate)
    case AddDelegator(src, amount, term) => AddDelegator(src, amount, Term(term.node, 0, 0))
    case _ => op
  }

  function Bares(ops: seq<Op>): (r: seq<Op>)
    ensures |r| == |ops| && forall i :: 0 <= i < |r| ==> r[i] == Bare(ops[i])
  {
    seq(|ops|, i requires 0 <= i < |ops| => Bare(ops[i]))
  }

  function StepOps(s: Step): seq<Op> {
    match s
    case Fund(src, addresses, amount) => Sends(src, addresses, amount)
    case XToP(src, dst, amount) => [ExportX(src, dst, amount), ImportP(dst)]
    case PToX(src, dst, amount) => [ExportP(src, dst, amount), ImportX(dst)]
    case Validate(src, node, amount) => [AddValidator(src, amount, Term(node, 0, 0), 2)]
    case Delegate(src, node, amount) => [AddDelegator(src, amount, Term(node, 0, 0))]
    case _ => []
  }

  function ScriptOps(steps: seq<Step>): seq<Op> {
    if steps == [] then [] else StepOps(steps[0]) + ScriptOps(steps[1..])
  }

  lemma StepAsks(env: Env, w: World, s: Step)
    requires RunStep(env, w, s).Ok?
    ensures Bares(Attempts(RunStep(env, w, s).w.log)) == Bares(Attempts(w.log)) + StepOps(s)
  {
    hide Attempts, TransferXToP, TransferPToX, FundX, Stake;
    match s
    case Fund(src, addresses, amount) =>
      var k := FundAsks(env, w, src, addresses, amount);
      assert Sends(src, addresses, amount)[..k] == Sends(src, addresses, amount);
    case XToP(src, dst, amount) => XToPAsks(env, w, src, dst, amount);
    case PToX(src, dst, amount) => PToXAsks(env, w, src, dst, amount);
    case Validate(src, node, amount) => StakeAsks(env, w, src, node, amount);
    case Delegate(src, node, amount) => StakeAsks(env, w, src, node, amount);
    case _ => assert RunStep(env, w, s).w.log == w.log;
  }

  lemma InThree<T>(a: seq<T>, b: seq<T>, c: seq<T>)
    ensures (a + b) + c == a + (b + c)
  {
  }

  /** A script that succeeds has asked for the operations of its steps, in their order, and for nothing else. */
  lemma {:induction false} RunAsks(env: Env, w: World, steps: seq<Step>)
    requires RunSteps(env, w, steps).Ok?
    ensures Bares(Attempts(RunSteps(env, w, steps).w.log)) == Bares(Attempts(w.log)) + ScriptOps(steps)
    decreases |steps|
  {
    if steps != [] {
      StepAsks(env, w, steps[0]);
      hide Attempts, RunStep, StepOps, Bares;
      var w1 := RunStep(env, w, steps[0]).w;
      RunAsks(env, w1, steps[1..]);
      InThree(Bares(Attempts(w.log)), StepOps(steps[0]), ScriptOps(steps[1..]));
    }
  }

  lemma {:induction false} ScriptOpsAppend(a: seq<Step>, b: seq<Step>)
    ensures ScriptOps(a + b) == ScriptOps(a) + ScriptOps(b)
    decreases |a|
  {
    if a == [] {
      assert a + b == b;
    } else {
      assert (a + b)[1..] == a[1..] + b;
      ScriptOpsAppend(a[1..], b);
    }
  }
}
