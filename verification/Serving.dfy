/** Runs on a network that serves them: every call they make answers, every transaction they issue is accepted in time. */
module Serving {
  import opened Options
  import opened TwoChain
  import opened Polling
  import opened Runner

  // ---- What a run asks of the network ----

  /** The call goes through, and what it issues is accepted within the wait. */
  ghost predicate Serves(env: Env, chain: Chain, w: World, op: Op) {
    var i := Issue(env, w, op);
    !env.rpcFails(w.calls) && (i.tx.Some? ==> WaitTx(env, chain, i.tx.value, i.w).Ok?)
  }

  /** The import's call is served, and the empty ID is not called accepted in its place. */
  ghost predicate ServesImport(env: Env, w: World, dst: Address) {
    Serves(env, X, w, ImportX(dst)) &&
    (Issue(env, w, ImportX(dst)).tx.None? ==> !WaitTx(env, X, EMPTY, Issue(env, w, ImportX(dst)).w).Ok?)
  }

  ghost predicate ServedFund(env: Env, w: World, src: Address, addresses: seq<Address>, amount: nat)
    decreases |addresses|
  {
    addresses == [] || (
      var op := Send(src, addresses[0], amount);
      var r := IssueAndWait(env, X, w, op);
      Serves(env, X, w, op) && (r.Ok? ==> ServedFund(env, r.w, src, addresses[1..], amount)))
  }

  /** Only the calls that this step makes from this world matter. */
  ghost predicate ServedStep(env: Env, w: World, s: Step) {
    match s
    case Fund(src, addresses, amount) => ServedFund(env, w, src, addresses, amount)
    case XToP(src, dst, amount) =>
      var r := IssueAndWait(env, X, w, ExportX(src, dst, amount));
      Serves(env, X, w, ExportX(src, dst, amount)) && (r.Ok? ==> Serves(env, P, r.w, ImportP(dst)))
    case PToX(src, dst, amount) =>
      var r := IssueAndWait(env, P, w, ExportP(src, dst, amount));
      Serves(env, P, w, ExportP(src, dst, amount)) && (r.Ok? ==> ServesImport(env, r.w, dst))
    case Validate(src, node, amount) => Serves(env, P, w, ValidatorOp(w, src, node, amount))
    case Delegate(src, node, amount) => Serves(env, P, w, DelegatorOp(w, src, node, amount))
    case ExpectX(_, _) => !env.rpcFails(w.calls)
    case ExpectP(_, _) => !env.rpcFails(w.calls)
    case ExpectNodes(_, _) => !env.rpcFails(w.calls)
  }

  /** The network serves a run in every world that the run itself reaches. */
  ghost predicate Served(env: Env, w: World, steps: seq<Step>)
    decreases |steps|
  {
    steps == [] || (
      ServedStep(env, w, steps[0]) &&
      (RunStep(env, w, steps[0]).Ok? ==> Served(env, RunStep(env, w, steps[0]).w, steps[1..])))
  }

  // ---- The same run on the books alone ----

  datatype Books = Books(ledger: Accounts, validators: nat, delegators: nat)

  function BooksOf(w: World): Books {
    Books(w.ledger, w.validators, w.delegators)
  }

  function Booked(b: Books, ledger: Option<Accounts>): Option<Books> {
    match ledger
    case None => None
    case Some(l) => Some(b.(ledger := l))
  }

  function Then(l: Option<Accounts>, fees: Fees, op: Op): Option<Accounts> {
    match l
    case None => None
    case Some(m) => Apply(fees, m, op)
  }

  function StepBooks(fees: Fees, b: Books, s: Step): Option<Books> {
    match s
    case Fund(src, addresses, amount) => Booked(b, AfterSends(fees, b.ledger, src, addresses, amount))
    case XToP(src, dst, amount) => Booked(b, Then(Apply(fees, b.ledger, ExportX(src, dst, amount)), fees, ImportP(dst)))
    case PToX(src, dst, amount) => Booked(b, Then(Apply(fees, b.ledger, ExportP(src, dst, amount)), fees, ImportX(dst)))
    case Validate(src, node, amount) =>
      Booked(b.(validators := b.validators + 1), Apply(fees, b.ledger, AddValidator(src, amount, Term(node, 0, 0), 0)))
    case Delegate(src, node, amount) =>
      Booked(b.(delegators := b.delegators + 1), Apply(fees, b.ledger, AddDelegator(src, amount, Term(node, 0, 0))))
    case ExpectX(address, balance) => if Balance(b.ledger, OnX(address)) == balance then Some(b) else None
    case ExpectP(address, balance) => if Balance(b.ledger, OnP(address)) == balance then Some(b) else None
    case ExpectNodes(validators, delegators) =>
      if b.validators == validators && b.delegators == delegators then Some(b) else None
  }

  function RunBooks(fees: Fees, b: Books, steps: seq<Step>): Option<Books>
    decreases |steps|
  {
    if steps == [] then Some(b)
    else
      match StepBooks(fees, b, steps[0])
      case None => None
      case Some(b1) => RunBooks(fees, b1, steps[1..])
  }

  // ---- A served run is its books ----

  /** The state a run can start from and that each successful step leads back to. */
  ghost predicate Calm(w: World) {
    Inv(w) && Quiet(w)
  }

  /** Succeeds exactly when the books do, and then agrees with them. */
  ghost predicate Keeps(r: Outcome, books: Option<Books>) {
    (r.Ok? <==> books.Some?) && (r.Ok? ==> Calm(r.w) && books == Some(BooksOf(r.w)))
  }

  /** A served operation succeeds exactly when the ledger can carry it out. */
  lemma ServedOp(env: Env, chain: Chain, w: World, op: Op)
    requires Serves(env, chain, w, op) && Calm(w)
    requires IsImport(op) ==> exists e :: e in w.log && ExportsFor(e, op)
    ensures var r := IssueAndWait(env, chain, w, op);
            && (r.Ok? <==> Apply(env.fees, w.ledger, op).Some?)
            && (r.Ok? ==> && Calm(r.w)
                          && Apply(env.fees, w.ledger, op) == Some(r.w.ledger)
                          && (exists e :: e in r.w.log && e.Issued? && e.op == op)
                          && r.w.validators == w.validators + (if op.AddValidator? then 1 else 0)
                          && r.w.delegators == w.delegators + (if op.AddDelegator? then 1 else 0))
  {
    StepEffect(env, chain, w, op);
  }

  lemma {:induction false} ServedFundKeeps(env: Env, w: World, src: Address, addresses: seq<Address>, amount: nat)
    requires Calm(w) && ServedFund(env, w, src, addresses, amount)
    ensures Keeps(FundX(env, w, src, addresses, amount),
                  Booked(BooksOf(w), AfterSends(env.fees, w.ledger, src, addresses, amount)))
    decreases |addresses|
  {
    if addresses != [] {
      var op := Send(src, addresses[0], amount);
      ServedOp(env, X, w, op);
      hide Calm, Serves, Apply;
      var r := IssueAndWait(env, X, w, op);
      if r.Ok? {
        ServedFundKeeps(env, r.w, src, addresses[1..], amount);
      }
    }
  }

  lemma ServedXToP(env: Env, w: World, src: Address, dst: Address, amount: nat)
    requires Calm(w) && ServedStep(env, w, XToP(src, dst, amount))
    ensures Keeps(TransferXToP(env, w, src, dst, amount), StepBooks(env.fees, BooksOf(w), XToP(src, dst, amount)))
  {
    var op := ExportX(src, dst, amount);
    ServedOp(env, X, w, op);
    hide Calm, Apply;
    var r := IssueAndWait(env, X, w, op);
    if r.Ok? {
      var e :| e in r.w.log && e.Issued? && e.op == op;
      assert ExportsFor(e, ImportP(dst));
      ServedOp(env, P, r.w, ImportP(dst));
    }
  }

  lemma ServedPToX(env: Env, w: World, src: Address, dst: Address, amount: nat)
    requires Calm(w) && ServedStep(env, w, PToX(src, dst, amount))
    ensures Keeps(TransferPToX(env, w, src, dst, amount), StepBooks(env.fees, BooksOf(w), PToX(src, dst, amount)))
  {
    var op := ExportP(src, dst, amount);
    ServedOp(env, P, w, op);
    hide Calm, Apply;
    var r := IssueAndWait(env, P, w, op);
    if r.Ok? {
      var e :| e in r.w.log && e.Issued? && e.op == op;
      assert ExportsFor(e, ImportX(dst));
      ServedOp(env, X, r.w, ImportX(dst));
      ImportAsStep(env, r.w, dst);
    }
  }

  /** With the empty ID out of the way, the second half of a P-to-X transfer is an ordinary step. */
  lemma ImportAsStep(env: Env, w: World, dst: Address)
    requires ServesImport(env, w, dst)
    ensures ImportAfter(env, w, dst).Ok? <==> IssueAndWait(env, X, w, ImportX(dst)).Ok?
    ensures ImportAfter(env, w, dst).Ok? ==> ImportAfter(env, w, dst) == IssueAndWait(env, X, w, ImportX(dst))
  {
  }

  lemma ServedStake(env: Env, w: World, op: Op, delay: nat)
    requires Calm(w) && Serves(env, P, w, op) && (op.AddValidator? || op.AddDelegator?)
    ensures var b := BooksOf(w).(validators := w.validators + (if op.AddValidator? then 1 else 0),
                                 delegators := w.delegators + (if op.AddDelegator? then 1 else 0));
            Keeps(Stake(env, w, op, delay), Booked(b, Apply(env.fees, w.ledger, op)))
  {
    ServedOp(env, P, w, op);
  }

  lemma ServedCheck(env: Env, w: World, expected: bool)
    requires Calm(w) && !env.rpcFails(w.calls)
    ensures Keeps(Checked(env, w, expected), if expected then Some(BooksOf(w)) else None)
  {
  }

  /** A served step succeeds exactly when the books allow it. */
  lemma ServedStepKeeps(env: Env, w: World, s: Step)
    requires Calm(w) && ServedStep(env, w, s)
    ensures Keeps(RunStep(env, w, s), StepBooks(env.fees, BooksOf(w), s))
  {
    hide Calm, Keeps;
    match s
    case Fund(src, addresses, amount) => ServedFundKeeps(env, w, src, addresses, amount);
    case XToP(src, dst, amount) => ServedXToP(env, w, src, dst, amount);
    case PToX(src, dst, amount) => ServedPToX(env, w, src, dst, amount);
    case Validate(src, node, amount) =>
      ServedStake(env, w, ValidatorOp(w, src, node, amount), STAKING_DELAY);
      assert BooksOf(w).(validators := w.validators + 1, delegators := w.delegators) == BooksOf(w).(validators := w.validators + 1);
    case Delegate(src, node, amount) =>
      ServedStake(env, w, DelegatorOp(w, src, node, amount), DELEGATION_DELAY);
      assert BooksOf(w).(validators := w.validators, delegators := w.delegators + 1) == BooksOf(w).(delegators := w.delegators + 1);
    case ExpectX(address, balance) => ServedCheck(env, w, Balance(w.ledger, OnX(address)) == balance);
    case ExpectP(address, balance) => ServedCheck(env, w, Balance(w.ledger, OnP(address)) == balance);
    case ExpectNodes(validators, delegators) =>
      ServedCheck(env, w, w.validators == validators && w.delegators == delegators);
  }

  /**
   * For every script: on a network that serves it, the run through issuing, polling and checking succeeds exactly when
   * the computation on the books does, and leaves exactly those books.
   */
  lemma {:induction false} ServedRun(env: Env, w: World, steps: seq<Step>)
    requires Calm(w) && Served(env, w, steps)
    ensures Keeps(RunSteps(env, w, steps), RunBooks(env.fees, BooksOf(w), steps))
    decreases |steps|
  {
    if steps != [] {
      ServedStepKeeps(env, w, steps[0]);
      hide Calm, RunStep, StepBooks, ServedStep;
      var r := RunStep(env, w, steps[0]);
      if r.Ok? {
        ServedRun(env, r.w, steps[1..]);
      }
    }
  }

  // ---- A run that succeeds was served ----

  /** Except for an import that went missing, a step that succeeds has been served. */
  lemma OkStepServed(env: Env, w: World, s: Step)
    requires RunStep(env, w, s).Ok?
    requires s.PToX? ==> ImportAccepted(env, w, s.src, s.dst, s.amount)
    ensures ServedStep(env, w, s)
  {
    match s
    case Fund(src, addresses, amount) => OkFundServed(env, w, src, addresses, amount);
    case XToP(src, dst, amount) => {}
    case PToX(src, dst, amount) =>
      ExportThenImport(env, w, src, dst, amount);
    case _ => {}
  }

  lemma {:induction false} OkFundServed(env: Env, w: World, src: Address, addresses: seq<Address>, amount: nat)
    requires FundX(env, w, src, addresses, amount).Ok?
    ensures ServedFund(env, w, src, addresses, amount)
    decreases |addresses|
  {
    if addresses != [] {
      OkFundServed(env, IssueAndWait(env, X, w, Send(src, addresses[0], amount)).w, src, addresses[1..], amount);
    }
  }

  /** A run without P-to-X transfers that succeeds has been served throughout. */
  lemma {:induction false} OkRunServed(env: Env, w: World, steps: seq<Step>)
    requires RunSteps(env, w, steps).Ok? && forall s :: s in steps ==> !s.PToX?
    ensures Served(env, w, steps)
    decreases |steps|
  {
    if steps != [] {
      OkStepServed(env, w, steps[0]);
      OkRunServed(env, RunStep(env, w, steps[0]).w, steps[1..]);
    }
  }

  // ---- Lists of steps ----

  lemma {:induction false} RunAppend(env: Env, w: World, a: seq<Step>, b: seq<Step>)
    ensures RunSteps(env, w, a + b) ==
            (if RunSteps(env, w, a).Ok? then RunSteps(env, RunSteps(env, w, a).w, b) else RunSteps(env, w, a))
    decreases |a|
  {
    if a == [] {
      assert a + b == b;
    } else {
      hide RunStep;
      assert (a + b)[1..] == a[1..] + b;
      var r := RunStep(env, w, a[0]);
      if r.Ok? {
        RunAppend(env, r.w, a[1..], b);
      }
    }
  }

  lemma {:induction false} ServedAppend(env: Env, w: World, a: seq<Step>, b: seq<Step>)
    ensures Served(env, w, a + b) <==>
            Served(env, w, a) && (RunSteps(env, w, a).Ok? ==> Served(env, RunSteps(env, w, a).w, b))
    decreases |a|
  {
    if a == [] {
      assert a + b == b;
    } else {
      hide RunStep, ServedStep;
      assert (a + b)[1..] == a[1..] + b;
      var r := RunStep(env, w, a[0]);
      if r.Ok? {
        ServedAppend(env, r.w, a[1..], b);
      }
    }
  }

  lemma {:induction false} BooksAppend(fees: Fees, books: Books, a: seq<Step>, b: seq<Step>)
    ensures RunBooks(fees, books, a + b) ==
            (match RunBooks(fees, books, a) case None => None case Some(m) => RunBooks(fees, m, b))
    decreases |a|
  {
    if a == [] {
      assert a + b == b;
    } else {
      hide StepBooks;
      assert (a + b)[1..] == a[1..] + b;
      var r := StepBooks(fees, books, a[0]);
      if r.Some? {
        BooksAppend(fees, r.value, a[1..], b);
      }
    }
  }

  // ---- Networks that serve ----

  /** Accepts transaction n for good from call d * n on and is otherwise still processing; waits last d + 1 seconds. */
  function Delayed(d: nat, fees: Fees): Env {
    Env((tx, k) => if tx != EMPTY && k >= d * tx then Status(Accepted) else Status(XProcessing),
        (tx, k) => if tx != EMPTY && k >= d * tx then Status(Committed) else Status(PProcessing),
        k => false, k => 0, k => 0, (d + 1) * SECOND, fees)
  }

  /** The network is never more than d calls behind. */
  ghost predicate OnTime(d: nat, w: World) {
    d * w.issued <= w.calls
  }

  /** Polling transaction tx from call c on succeeds if d more polls fit the window and get there. */
  lemma {:induction false} DelayedWait(d: nat, fees: Fees, chain: Chain, tx: TxId, start: int, w: World, left: nat)
    requires tx != EMPTY && w.calls + left >= d * tx
    requires w.now - start + left * SECOND < (d + 1) * SECOND
    ensures var r := Wait(Delayed(d, fees), chain, tx, start, w);
            r.Ok? && r.w.issued == w.issued && r.w.calls >= d * tx && r.w.calls >= w.calls
    decreases left
  {
    var env := Delayed(d, fees);
    if env.Judge(chain, tx, w.calls) == Pending {
      assert left > 0;
      assert left * SECOND == (left - 1) * SECOND + SECOND;
      DelayedWait(d, fees, chain, tx, start, Slept(env, Queried(env, chain, tx, w)), left - 1);
    }
  }

  lemma DelayedOp(d: nat, fees: Fees, chain: Chain, w: World, op: Op)
    requires OnTime(d, w)
    ensures Serves(Delayed(d, fees), chain, w, op)
    ensures OnTime(d, IssueAndWait(Delayed(d, fees), chain, w, op).w)
  {
    var env := Delayed(d, fees);
    var i := Issue(env, w, op);
    if i.tx.Some? {
      assert d * (w.issued + 1) == d * w.issued + d;
      assert d * SECOND < (d + 1) * SECOND;
      DelayedWait(d, fees, chain, i.tx.value, i.w.now, i.w, d);
    }
  }

  lemma {:induction false} EmptyPends(d: nat, fees: Fees, start: int, w: World)
    ensures var r := Wait(Delayed(d, fees), X, EMPTY, start, w);
            r.Err? && r.w.issued == w.issued && r.w.calls >= w.calls
    decreases if w.now - start < (d + 1) * SECOND then start + (d + 1) * SECOND - w.now else 0
  {
    var env := Delayed(d, fees);
    if w.now - start < (d + 1) * SECOND {
      EmptyPends(d, fees, start, Slept(env, Queried(env, X, EMPTY, w)));
    }
  }

  lemma {:induction false} DelayedFund(d: nat, fees: Fees, w: World, src: Address, addresses: seq<Address>, amount: nat)
    requires OnTime(d, w)
    ensures ServedFund(Delayed(d, fees), w, src, addresses, amount)
    ensures OnTime(d, FundX(Delayed(d, fees), w, src, addresses, amount).w)
    decreases |addresses|
  {
    if addresses != [] {
      var op := Send(src, addresses[0], amount);
      DelayedOp(d, fees, X, w, op);
      hide OnTime, Serves, Delayed;
      DelayedFund(d, fees, IssueAndWait(Delayed(d, fees), X, w, op).w, src, addresses[1..], amount);
    }
  }

  lemma DelayedStep(d: nat, fees: Fees, w: World, s: Step)
    requires OnTime(d, w)
    ensures ServedStep(Delayed(d, fees), w, s)
    ensures OnTime(d, RunStep(Delayed(d, fees), w, s).w)
  {
    var env := Delayed(d, fees);
    match s
    case Fund(src, addresses, amount) => DelayedFund(d, fees, w, src, addresses, amount);
    case XToP(src, dst, amount) =>
      DelayedOp(d, fees, X, w, ExportX(src, dst, amount));
      var r := IssueAndWait(env, X, w, ExportX(src, dst, amount));
      DelayedOp(d, fees, P, r.w, ImportP(dst));
    case PToX(src, dst, amount) =>
      DelayedOp(d, fees, P, w, ExportP(src, dst, amount));
      var r := IssueAndWait(env, P, w, ExportP(src, dst, amount));
      DelayedImport(d, fees, r.w, dst);
    case Validate(src, node, amount) => DelayedOp(d, fees, P, w, ValidatorOp(w, src, node, amount));
    case Delegate(src, node, amount) => DelayedOp(d, fees, P, w, DelegatorOp(w, src, node, amount));
    case _ => {}
  }

  lemma DelayedImport(d: nat, fees: Fees, w: World, dst: Address)
    requires OnTime(d, w)
    ensures ServesImport(Delayed(d, fees), w, dst) && OnTime(d, ImportAfter(Delayed(d, fees), w, dst).w)
  {
    var i := Issue(Delayed(d, fees), w, ImportX(dst));
    DelayedOp(d, fees, X, w, ImportX(dst));
    EmptyPends(d, fees, i.w.now, i.w);
  }

  /** Whatever the delay, such a network serves every run from its beginning. */
  lemma {:induction false} DelayedServes(d: nat, fees: Fees, w: World, steps: seq<Step>)
    requires OnTime(d, w)
    ensures Served(Delayed(d, fees), w, steps)
    decreases |steps|
  {
    if steps != [] {
      DelayedStep(d, fees, w, steps[0]);
      hide OnTime, ServedStep, RunStep, Delayed;
      DelayedServes(d, fees, RunStep(Delayed(d, fees), w, steps[0]).w, steps[1..]);
    }
  }
}
