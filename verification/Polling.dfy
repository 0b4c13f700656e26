/** The network as a runner sees it, and the two loops that poll it until a transaction is decided. */
module Polling {
  import opened Options
  import opened TwoChain

  const SECOND: nat := 1_000_000_000

  /** Numbers stand for transaction IDs in the order of issue; 0 is the empty ID. */
  type TxId = nat

  const EMPTY: TxId := 0

  datatype Chain = X | P

  datatype XStatus = Accepted | Rejected | XProcessing | XUnknown

  datatype PStatus = Committed | Dropped | Aborted | PProcessing | PUnknown

  datatype Answer<S> = Status(status: S) | RpcError

  datatype Verdict = Success | Failure | Pending

  function JudgeX(a: Answer<XStatus>): Verdict {
    match a
    case RpcError => Failure
    case Status(Accepted) => Success
    case Status(Rejected) => Failure
    case Status(_) => Pending
  }

  function JudgeP(a: Answer<PStatus>): Verdict {
    match a
    case RpcError => Failure
    case Status(Committed) => Success
    case Status(Dropped) => Failure
    case Status(Aborted) => Failure
    case Status(_) => Pending
  }

  /** All that the network decides: what the k-th call answers, how long it takes, how much a sleep overruns. */
  datatype Env = Env(
    xStatus: (TxId, nat) -> Answer<XStatus>, pStatus: (TxId, nat) -> Answer<PStatus>,
    rpcFails: nat -> bool, latency: nat -> nat, oversleep: nat -> nat, timeout: int, fees: Fees)
  {
    function Judge(chain: Chain, tx: TxId, k: nat): Verdict {
      match chain
      case X => JudgeX(xStatus(tx, k))
      case P => JudgeP(pStatus(tx, k))
    }
  }

  datatype Event = Issued(tx: TxId, op: Op) | Refused(op: Op) | Seen(chain: Chain, tx: TxId, verdict: Verdict)

  /** Accepted effects are in `ledger`, issued and undecided ones in `pending`. */
  datatype World = World(
    now: nat, calls: nat, issued: nat, pending: map<TxId, Op>, ledger: Accounts, validators: nat, delegators: nat,
    log: seq<Event>)

  function Called(env: Env, w: World): World {
    w.(now := w.now + env.latency(w.calls), calls := w.calls + 1)
  }

  function Slept(env: Env, w: World): World {
    w.(now := w.now + SECOND + env.oversleep(w.calls))
  }

  /** A transaction takes effect when it is first reported accepted. */
  function Settle(env: Env, w: World, tx: TxId): World {
    if tx !in w.pending then w
    else
      var op := w.pending[tx];
      w.(pending := w.pending - {tx},
         ledger := Apply(env.fees, w.ledger, op).GetOr(w.ledger),
         validators := w.validators + (if op.AddValidator? then 1 else 0),
         delegators := w.delegators + (if op.AddDelegator? then 1 else 0))
  }

  function Queried(env: Env, chain: Chain, tx: TxId, w: World): World {
    var v := env.Judge(chain, tx, w.calls);
    var w1 := Called(env, w).(log := w.log + [Seen(chain, tx, v)]);
    if v == Success then Settle(env, w1, tx) else w1
  }

  /** The outcome of an operation; either way the world has moved on. */
  datatype Outcome = Ok(w: World) | Err(w: World) {
    predicate IsFailure() {
      Err?
    }
    function PropagateFailure(): Outcome
      requires Err?
    {
      this
    }
    function Extract(): World
      requires Ok?
    {
      w
    }
  }

  /** Polling since `start` until the answer is decisive or the time is up. */
  function Wait(env: Env, chain: Chain, tx: TxId, start: int, w: World): Outcome
    decreases if w.now - start < env.timeout then start + env.timeout - w.now else 0
  {
    if w.now - start >= env.timeout then Err(w)
    else
      match env.Judge(chain, tx, w.calls)
      case Success => Ok(Queried(env, chain, tx, w))
      case Failure => Err(Queried(env, chain, tx, w))
      case Pending => Wait(env, chain, tx, start, Slept(env, Queried(env, chain, tx, w)))
  }

  function WaitTx(env: Env, chain: Chain, tx: TxId, w: World): Outcome {
    Wait(env, chain, tx, w.now, w)
  }

  function AwaitAll(env: Env, chain: Chain, txs: seq<TxId>, w: World): Outcome {
    if txs == [] then Ok(w)
    else
      var w1 :- WaitTx(env, chain, txs[0], w);
      AwaitAll(env, chain, txs[1..], w1)
  }

  // ---- The loops ----

  class Network {
    const env: Env
    var w: World

    constructor (e: Env, initial: World)
      ensures env == e && w == initial
    {
      env, w := e, initial;
    }

    method GetXTxStatus(tx: TxId) returns (a: Answer<XStatus>)
      modifies this
      ensures a == env.xStatus(tx, old(w).calls) && w == Queried(env, X, tx, old(w))
    {
      a := env.xStatus(tx, w.calls);
      w := Queried(env, X, tx, w);
    }

    method GetPTxStatus(tx: TxId) returns (a: Answer<PStatus>)
      modifies this
      ensures a == env.pStatus(tx, old(w).calls) && w == Queried(env, P, tx, old(w))
    {
      a := env.pStatus(tx, w.calls);
      w := Queried(env, P, tx, w);
    }

    method WaitForXchainTransactionAcceptance(tx: TxId) returns (ok: bool)
      modifies this
      ensures WaitTx(env, X, tx, old(w)) == if ok then Ok(w) else Err(w)
      ensures ok <==> AcceptedInTime(env, tx, old(w))
    {
      XWaitIff(env, tx, w);
      hide AcceptedInTime;
      var pollStartTime := w.now;
      while w.now - pollStartTime < env.timeout
        invariant Wait(env, X, tx, pollStartTime, w) == WaitTx(env, X, tx, old(w))
        decreases pollStartTime + env.timeout - w.now
      {
        var status := GetXTxStatus(tx);
        if status.RpcError? {
          return false;
        }
        if status.status == Accepted {
          return true;
        }
        if status.status == Rejected {
          return false;
        }
        w := Slept(env, w);
      }
      return false;
    }

    method WaitForPChainTransactionAcceptance(tx: TxId) returns (ok: bool)
      modifies this
      ensures WaitTx(env, P, tx, old(w)) == if ok then Ok(w) else Err(w)
      ensures ok <==> CommittedInTime(env, tx, old(w))
    {
      PWaitIff(env, tx, w);
      hide CommittedInTime;
      var pollStartTime := w.now;
      while w.now - pollStartTime < env.timeout
        invariant Wait(env, P, tx, pollStartTime, w) == WaitTx(env, P, tx, old(w))
        decreases pollStartTime + env.timeout - w.now
      {
        var status := GetPTxStatus(tx);
        if status.RpcError? {
          return false;
        }
        if status.status == Committed {
          return true;
        }
        if status.status == Dropped || status.status == Aborted {
          return false;
        }
        w := Slept(env, w);
      }
      return false;
    }

    method AwaitXChainTxs(txs: seq<TxId>) returns (ok: bool)
      modifies this
      ensures AwaitAll(env, X, txs, old(w)) == if ok then Ok(w) else Err(w)
    {
      for i := 0 to |txs|
        invariant AwaitAll(env, X, txs[i..], w) == AwaitAll(env, X, txs, old(w))
      {
        var accepted := WaitForXchainTransactionAcceptance(txs[i]);
        if !accepted {
          return false;
        }
        assert txs[i..][1..] == txs[i + 1..];
      }
      return true;
    }

    method AwaitPChainTxs(txs: seq<TxId>) returns (ok: bool)
      modifies this
      ensures AwaitAll(env, P, txs, old(w)) == if ok then Ok(w) else Err(w)
    {
      for i := 0 to |txs|
        invariant AwaitAll(env, P, txs[i..], w) == AwaitAll(env, P, txs, old(w))
      {
        var accepted := WaitForPChainTransactionAcceptance(txs[i]);
        if !accepted {
          return false;
        }
        assert txs[i..][1..] == txs[i + 1..];
      }
      return true;
    }
  }

  // ---- What a wait decides, and when ----

  /** The time at which the j-th poll is due, if none before it was decisive. */
  function PollTime(env: Env, w: World, j: nat): nat {
    if j == 0 then w.now
    else PollTime(env, w, j - 1) + env.latency(w.calls + j - 1) + SECOND + env.oversleep(w.calls + j)
  }

  /** The first decisive answer is the j-th, its poll falls into the window, and it is `v`. */
  ghost predicate DecidedAt(env: Env, chain: Chain, tx: TxId, start: int, w: World, j: nat, v: Verdict) {
    && PollTime(env, w, j) - start < env.timeout
    && env.Judge(chain, tx, w.calls + j) == v
    && forall k :: w.calls <= k < w.calls + j ==> env.Judge(chain, tx, k) == Pending
  }

  lemma {:induction false} PollTimeShift(env: Env, w: World, w1: World, j: nat)
    requires w1.calls == w.calls + 1 && w1.now == PollTime(env, w, 1)
    ensures PollTime(env, w1, j) == PollTime(env, w, j + 1)
  {
    if j > 0 {
      PollTimeShift(env, w, w1, j - 1);
    }
  }

  lemma {:induction false} PollTimeGrows(env: Env, w: World, j: nat)
    ensures PollTime(env, w, j) >= w.now + j * SECOND
  {
    if j > 0 {
      PollTimeGrows(env, w, j - 1);
    }
  }

  /** A wait succeeds exactly when the first decisive answer in its window is a success. */
  lemma {:induction false} WaitIff(env: Env, chain: Chain, tx: TxId, start: int, w: World)
    ensures Wait(env, chain, tx, start, w).Ok? <==> exists j: nat :: DecidedAt(env, chain, tx, start, w, j, Success)
    decreases if w.now - start < env.timeout then start + env.timeout - w.now else 0
  {
    var v := env.Judge(chain, tx, w.calls);
    if w.now - start >= env.timeout {
      forall j: nat ensures !DecidedAt(env, chain, tx, start, w, j, Success) {
        PollTimeGrows(env, w, j);
      }
    } else if v == Success {
      assert DecidedAt(env, chain, tx, start, w, 0, Success);
    } else if v == Failure {
      assert env.Judge(chain, tx, w.calls) != Pending;
    } else {
      var w1 := Slept(env, Queried(env, chain, tx, w));
      WaitIff(env, chain, tx, start, w1);
      forall j: nat
        ensures DecidedAt(env, chain, tx, start, w1, j, Success) <==> DecidedAt(env, chain, tx, start, w, j + 1, Success)
      {
        DecidedLater(env, chain, tx, start, w, j);
      }
      if j: nat :| DecidedAt(env, chain, tx, start, w, j, Success) {
        assert j > 0;
        assert DecidedAt(env, chain, tx, start, w1, j - 1, Success);
      }
    }
  }

  lemma DecidedLater(env: Env, chain: Chain, tx: TxId, start: int, w: World, j: nat)
    requires env.Judge(chain, tx, w.calls) == Pending
    ensures var w1 := Slept(env, Queried(env, chain, tx, w));
            DecidedAt(env, chain, tx, start, w1, j, Success) <==> DecidedAt(env, chain, tx, start, w, j + 1, Success)
  {
    var w1 := Slept(env, Queried(env, chain, tx, w));
    assert PollTime(env, w, 1) == PollTime(env, w, 0) + env.latency(w.calls) + SECOND + env.oversleep(w.calls + 1);
    PollTimeShift(env, w, w1, j);
    assert w1.calls == w.calls + 1;
  }

  /** The j-th poll, counted from zero, is due before the time is up. */
  ghost predicate InWindow(env: Env, w: World, j: nat) {
    PollTime(env, w, j) - w.now < env.timeout
  }

  /** Before the j-th poll the X-chain has answered nothing but processing or unknown. */
  ghost predicate XUndecided(env: Env, tx: TxId, w: World, j: nat) {
    forall k :: w.calls <= k < w.calls + j ==> env.xStatus(tx, k) == Status(XProcessing) || env.xStatus(tx, k) == Status(XUnknown)
  }

  ghost predicate PUndecided(env: Env, tx: TxId, w: World, j: nat) {
    forall k :: w.calls <= k < w.calls + j ==> env.pStatus(tx, k) == Status(PProcessing) || env.pStatus(tx, k) == Status(PUnknown)
  }

  /** Some poll inside the window answers accepted, and none before it decided anything. */
  ghost predicate AcceptedInTime(env: Env, tx: TxId, w: World) {
    exists j: nat :: InWindow(env, w, j) && XUndecided(env, tx, w, j) && env.xStatus(tx, w.calls + j) == Status(Accepted)
  }

  /** Some poll inside the window answers committed, and none before it decided anything. */
  ghost predicate CommittedInTime(env: Env, tx: TxId, w: World) {
    exists j: nat :: InWindow(env, w, j) && PUndecided(env, tx, w, j) && env.pStatus(tx, w.calls + j) == Status(Committed)
  }

  /** The X-chain wait succeeds on accepted, goes on while processing or unknown, and fails on all other answers. */
  lemma XWaitIff(env: Env, tx: TxId, w: World)
    ensures WaitTx(env, X, tx, w).Ok? <==> AcceptedInTime(env, tx, w)
  {
    WaitIff(env, X, tx, w.now, w);
    hide Wait, PollTime;
    if j: nat :| DecidedAt(env, X, tx, w.now, w, j, Success) {
      forall k | w.calls <= k < w.calls + j ensures env.xStatus(tx, k) == Status(XProcessing) || env.xStatus(tx, k) == Status(XUnknown) {
        assert env.Judge(X, tx, k) == Pending;
      }
      assert InWindow(env, w, j) && XUndecided(env, tx, w, j) && env.xStatus(tx, w.calls + j) == Status(Accepted);
    }
    if j: nat :| InWindow(env, w, j) && XUndecided(env, tx, w, j) && env.xStatus(tx, w.calls + j) == Status(Accepted) {
      assert DecidedAt(env, X, tx, w.now, w, j, Success);
    }
  }

  /** The P-chain wait succeeds on committed, goes on while processing or unknown, and fails on all other answers. */
  lemma PWaitIff(env: Env, tx: TxId, w: World)
    ensures WaitTx(env, P, tx, w).Ok? <==> CommittedInTime(env, tx, w)
  {
    WaitIff(env, P, tx, w.now, w);
    hide Wait, PollTime;
    if j: nat :| DecidedAt(env, P, tx, w.now, w, j, Success) {
      forall k | w.calls <= k < w.calls + j ensures env.pStatus(tx, k) == Status(PProcessing) || env.pStatus(tx, k) == Status(PUnknown) {
        assert env.Judge(P, tx, k) == Pending;
      }
      assert InWindow(env, w, j) && PUndecided(env, tx, w, j) && env.pStatus(tx, w.calls + j) == Status(Committed);
    }
    if j: nat :| InWindow(env, w, j) && PUndecided(env, tx, w, j) && env.pStatus(tx, w.calls + j) == Status(Committed) {
      assert DecidedAt(env, P, tx, w.now, w, j, Success);
    }
  }

  /** An answer inside the window that rejects, drops, aborts or is an error ends the wait there, in failure. */
  lemma {:induction false} FailureEnds(env: Env, chain: Chain, tx: TxId, start: int, w: World, j: nat)
    requires PollTime(env, w, j) - start < env.timeout
    requires chain == X ==> XUndecided(env, tx, w, j) && env.xStatus(tx, w.calls + j) in {Status(Rejected), RpcError}
    requires chain == P ==> PUndecided(env, tx, w, j) && env.pStatus(tx, w.calls + j) in {Status(Dropped), Status(Aborted), RpcError}
    ensures var r := Wait(env, chain, tx, start, w);
            r.Err? && r.w.calls == w.calls + j + 1 && SameAccounts(r.w, w)
    decreases j
  {
    PollTimeGrows(env, w, j);
    if j == 0 {
      assert env.Judge(chain, tx, w.calls) == Failure;
    } else {
      assert env.Judge(chain, tx, w.calls) == Pending;
      var w1 := Slept(env, Queried(env, chain, tx, w));
      PollTimeShift(env, w, w1, j - 1);
      FailureEnds(env, chain, tx, start, w1, j - 1);
    }
  }

  predicate SameAccounts(a: World, b: World) {
    a.ledger == b.ledger && a.pending == b.pending && a.validators == b.validators && a.delegators == b.delegators
  }

  lemma {:induction false} WaitPolls(env: Env, chain: Chain, tx: TxId, start: int, w: World)
    requires start <= w.now
    ensures var polls := Wait(env, chain, tx, start, w).w.calls - w.calls;
            0 <= polls && (polls > 0 ==> (polls - 1) * SECOND < start + env.timeout - w.now)
    decreases if w.now - start < env.timeout then start + env.timeout - w.now else 0
  {
    if w.now - start < env.timeout && env.Judge(chain, tx, w.calls) == Pending {
      WaitPolls(env, chain, tx, start, Slept(env, Queried(env, chain, tx, w)));
    }
  }

  /** A wait polls at most ceil(timeout / 1s) times. */
  lemma PollBound(env: Env, chain: Chain, tx: TxId, w: World)
    requires env.timeout >= 0
    ensures WaitTx(env, chain, tx, w).w.calls - w.calls <= (env.timeout + 999_999_999) / 1_000_000_000
  {
    WaitPolls(env, chain, tx, w.now, w);
  }

  /** Queries answer within `query` and sleeps overrun by at most `over`. */
  ghost predicate Prompt(env: Env, query: nat, over: nat) {
    (forall k :: env.latency(k) <= query) && (forall k :: env.oversleep(k) <= over)
  }

  lemma {:induction false} WaitTime(env: Env, chain: Chain, tx: TxId, start: int, w: World, query: nat, over: nat)
    requires Prompt(env, query, over) && start <= w.now && env.timeout >= 0
    ensures var w1 := Wait(env, chain, tx, start, w).w;
            w.now <= w1.now && (w1.now <= w.now || w1.now < start + env.timeout + query + SECOND + over)
    decreases if w.now - start < env.timeout then start + env.timeout - w.now else 0
  {
    if w.now - start < env.timeout && env.Judge(chain, tx, w.calls) == Pending {
      WaitTime(env, chain, tx, start, Slept(env, Queried(env, chain, tx, w)), query, over);
    }
  }

  /** Awaiting n transactions takes at most n times one full wait. */
  lemma {:induction false} AwaitTime(env: Env, chain: Chain, txs: seq<TxId>, w: World, query: nat, over: nat)
    requires Prompt(env, query, over) && env.timeout >= 0
    ensures AwaitAll(env, chain, txs, w).w.now <= w.now + |txs| * (env.timeout + query + 1_000_000_000 + over)
    decreases |txs|
  {
    if txs != [] {
      WaitTime(env, chain, txs[0], w.now, w, query, over);
      var r := WaitTx(env, chain, txs[0], w);
      if r.Ok? {
        AwaitTime(env, chain, txs[1..], r.w, query, over);
      }
      TimesStep(|txs|, env.timeout + query + SECOND + over);
    }
  }

  lemma TimesStep(n: nat, k: nat)
    requires n > 0
    ensures n * k == k + (n - 1) * k && (n - 1) * k >= 0
  {
  }

  /** Awaiting a list returns nil exactly when the wait for every one of them, begun where the last ended, does. */
  lemma {:induction false} AwaitIff(env: Env, chain: Chain, txs: seq<TxId>, w: World)
    ensures AwaitAll(env, chain, txs, w).Ok? <==>
              forall i :: 0 <= i < |txs| ==>
                AwaitAll(env, chain, txs[..i], w).Ok? && WaitTx(env, chain, txs[i], AwaitAll(env, chain, txs[..i], w).w).Ok?
    decreases |txs|
  {
    if txs != [] {
      var n := |txs| - 1;
      AwaitIff(env, chain, txs[..n], w);
      forall i | 0 <= i < n ensures txs[..n][..i] == txs[..i] {
      }
      AwaitAppend(env, chain, txs[..n], txs[n], w);
      assert txs[..n] + [txs[n]] == txs;
    }
  }

  lemma {:induction false} AwaitAppend(env: Env, chain: Chain, txs: seq<TxId>, tx: TxId, w: World)
    ensures AwaitAll(env, chain, txs + [tx], w) ==
            (match AwaitAll(env, chain, txs, w) case Err(w1) => Err(w1) case Ok(w1) => WaitTx(env, chain, tx, w1))
    decreases |txs|
  {
    if txs == [] {
      assert ([] + [tx])[1..] == [];
    } else {
      assert (txs + [tx])[1..] == txs[1..] + [tx];
      var r := WaitTx(env, chain, txs[0], w);
      if r.Ok? {
        AwaitAppend(env, chain, txs[1..], tx, r.w);
      }
    }
  }
}
