/** The workflow test: fund two users, stake, delegate and bring the rest back, checking balances on the way. */
module Workflow {
  import opened MachineInt
  import opened Options
  import opened TwoChain
  import opened Polling
  import opened Runner
  import opened Serving
  import opened Requests

  const EXPECTED_VALIDATORS := 6
  const EXPECTED_DELEGATORS := 0

  /** Who takes part, on which node, and with which amounts. */
  datatype Script = Script(genesis: Wallet, staker: Wallet, delegator: Wallet, stakerNode: string,
                           seed: u64, stake: u64, delegation: u64)
  {
    function StakerLeft(): u64 {
      Wrap(seed - stake)
    }

    function DelegatorLeft(): u64 {
      Wrap(seed - delegation)
    }
  }

  // ---- The four parts of the script ----

  function FundSteps(s: Script): seq<Step> {
    [Fund(s.genesis.x, [s.staker.x, s.delegator.x], s.seed), ExpectX(s.staker.x, s.seed), ExpectX(s.delegator.x, s.seed)]
  }

  /** Moves a user's whole seed to the P-chain. */
  function CrossSteps(user: Wallet, seed: nat): seq<Step> {
    [XToP(user.x, user.p, seed), ExpectP(user.p, seed), ExpectX(user.x, 0)]
  }

  function ValidatorSteps(s: Script): seq<Step> {
    CrossSteps(s.staker, s.seed) + StakeSteps(s)
  }

  function StakeSteps(s: Script): seq<Step> {
    [Validate(s.staker.p, s.stakerNode, s.stake), ExpectNodes(EXPECTED_VALIDATORS, EXPECTED_DELEGATORS),
     ExpectP(s.staker.p, s.StakerLeft())]
  }

  function DelegatorSteps(s: Script): seq<Step> {
    CrossSteps(s.delegator, s.seed) + DelegateSteps(s)
  }

  function DelegateSteps(s: Script): seq<Step> {
    [Delegate(s.delegator.p, s.stakerNode, s.delegation), ExpectP(s.delegator.p, s.DelegatorLeft())]
  }

  function BackSteps(user: Wallet, amount: nat, expected: nat): seq<Step> {
    [PToX(user.p, user.x, amount), ExpectP(user.p, 0), ExpectX(user.x, expected)]
  }

  /** The delegator, too, sends back what the staker is expected to have left. */
  function ReturnSteps(s: Script): seq<Step> {
    BackSteps(s.staker, s.StakerLeft(), s.StakerLeft()) + BackSteps(s.delegator, s.StakerLeft(), s.DelegatorLeft())
  }

  /** Everything before the money is brought back. */
  function StakingSteps(s: Script): seq<Step> {
    FundSteps(s) + ValidatorSteps(s) + DelegatorSteps(s)
  }

  function Execute(env: Env, w: World, s: Script): Outcome {
    RunSteps(env, w, StakingSteps(s) + ReturnSteps(s))
  }

  // ---- The test itself ----

  class Executor {
    const network: Network
    const script: Script
    const genesisClient: RPCWorkFlowRunner
    const stakerClient: RPCWorkFlowRunner
    const delegatorClient: RPCWorkFlowRunner

    constructor (n: Network, s: Script)
      ensures network == n && script == s && Wired()
    {
      network, script := n, s;
      genesisClient := new RPCWorkFlowRunner(n, s.genesis);
      stakerClient := new RPCWorkFlowRunner(n, s.staker);
      delegatorClient := new RPCWorkFlowRunner(n, s.delegator);
    }

    ghost predicate Wired() {
      && genesisClient.network == stakerClient.network == delegatorClient.network == network
      && genesisClient.wallet == script.genesis && stakerClient.wallet == script.staker
      && delegatorClient.wallet == script.delegator
    }

    /** The run from the given world, or what is left of it now, ended as `ok` says. */
    ghost predicate Ran(from: World, steps: seq<Step>, ok: bool)
      reads network
    {
      RunSteps(network.env, from, steps) == if ok then Ok(network.w) else Err(network.w)
    }

    method CreateFundedAccounts() returns (ok: bool)
      requires Wired()
      modifies network
      ensures Ran(old(network.w), FundSteps(script), ok)
    {
      hide FundX, CheckX, RunSteps;
      ghost var steps := FundSteps(script);
      Unroll(network.env, network.w, steps, 0);
      ok := genesisClient.FundXChainAddresses([script.staker.x, script.delegator.x], script.seed);
      if !ok { return; }
      Unroll(network.env, network.w, steps, 1);
      ok := stakerClient.VerifyXChainAVABalance(script.staker.x, script.seed);
      if !ok { return; }
      Unroll(network.env, network.w, steps, 2);
      ok := delegatorClient.VerifyXChainAVABalance(script.delegator.x, script.seed);
    }

    method CrossOver(client: RPCWorkFlowRunner) returns (ok: bool)
      requires client.network == network
      modifies network
      ensures Ran(old(network.w), CrossSteps(client.wallet, script.seed), ok)
    {
      hide TransferXToP, CheckP, CheckX, RunSteps;
      ghost var steps := CrossSteps(client.wallet, script.seed);
      Unroll(network.env, network.w, steps, 0);
      ok := client.TransferAvaXChainToPChain(client.wallet.p, script.seed);
      if !ok { return; }
      Unroll(network.env, network.w, steps, 1);
      ok := client.VerifyPChainBalance(client.wallet.p, script.seed);
      if !ok { return; }
      Unroll(network.env, network.w, steps, 2);
      ok := client.VerifyXChainAVABalance(client.wallet.x, 0);
    }

    method AddStaker() returns (ok: bool)
      requires Wired()
      modifies network
      ensures Ran(old(network.w), ValidatorSteps(script), ok)
    {
      hide Stake, CheckP, Checked, RunSteps, CrossSteps, ValidatorOp;
      ghost var cross := CrossSteps(script.staker, script.seed);
      ghost var steps := StakeSteps(script);
      RunAppend(network.env, network.w, cross, steps);
      ok := CrossOver(stakerClient);
      if !ok { return; }
      Unroll(network.env, network.w, steps, 0);
      ok := stakerClient.AddValidatorToPrimaryNetwork(script.stakerNode, script.stake);
      if !ok { return; }
      Unroll(network.env, network.w, steps, 1);
      ok := VerifyNetworkState();
      if !ok { return; }
      Unroll(network.env, network.w, steps, 2);
      var expectedStakerBalance := Wrap(script.seed - script.stake);
      ok := stakerClient.VerifyPChainBalance(script.staker.p, expectedStakerBalance);
    }

    /** Counts the current validators and their delegators. */
    method VerifyNetworkState() returns (ok: bool)
      modifies network
      ensures RunStep(network.env, old(network.w), ExpectNodes(EXPECTED_VALIDATORS, EXPECTED_DELEGATORS)) ==
              if ok then Ok(network.w) else Err(network.w)
    {
      ok := !network.env.rpcFails(network.w.calls) && network.w.validators == EXPECTED_VALIDATORS &&
            network.w.delegators == EXPECTED_DELEGATORS;
      network.w := Called(network.env, network.w);
    }

    method AddDelegatorNode() returns (ok: bool)
      requires Wired()
      modifies network
      ensures Ran(old(network.w), DelegatorSteps(script), ok)
    {
      hide Stake, CheckP, RunSteps, CrossSteps, DelegatorOp;
      ghost var cross := CrossSteps(script.delegator, script.seed);
      ghost var steps := DelegateSteps(script);
      RunAppend(network.env, network.w, cross, steps);
      ok := CrossOver(delegatorClient);
      if !ok { return; }
      Unroll(network.env, network.w, steps, 0);
      ok := delegatorClient.AddDelegatorToPrimaryNetwork(script.stakerNode, script.delegation);
      if !ok { return; }
      Unroll(network.env, network.w, steps, 1);
      var expectedDelegatorBalance := Wrap(script.seed - script.delegation);
      ok := delegatorClient.VerifyPChainBalance(script.delegator.p, expectedDelegatorBalance);
    }

    /** Brings one user's money back. */
    method BringBack(client: RPCWorkFlowRunner, amount: nat, expected: nat) returns (ok: bool)
      requires client.network == network
      modifies network
      ensures Ran(old(network.w), BackSteps(client.wallet, amount, expected), ok)
    {
      hide TransferPToX, CheckP, CheckX, RunSteps;
      ghost var steps := BackSteps(client.wallet, amount, expected);
      Unroll(network.env, network.w, steps, 0);
      ok := client.TransferAvaPChainToXChain(client.wallet.x, amount);
      if !ok { return; }
      Unroll(network.env, network.w, steps, 1);
      ok := client.VerifyPChainBalance(client.wallet.p, 0);
      if !ok { return; }
      Unroll(network.env, network.w, steps, 2);
      ok := client.VerifyXChainAVABalance(client.wallet.x, expected);
    }

    method TransferBack() returns (ok: bool)
      requires Wired()
      modifies network
      ensures Ran(old(network.w), ReturnSteps(script), ok)
    {
      hide BackSteps, RunSteps;
      var expectedStakerBalance := Wrap(script.seed - script.stake);
      var expectedDelegatorBalance := Wrap(script.seed - script.delegation);
      RunAppend(network.env, network.w, BackSteps(script.staker, expectedStakerBalance, expectedStakerBalance),
                BackSteps(script.delegator, expectedStakerBalance, expectedDelegatorBalance));
      ok := BringBack(stakerClient, expectedStakerBalance, expectedStakerBalance);
      if !ok { return; }
      ok := BringBack(delegatorClient, expectedStakerBalance, expectedDelegatorBalance);
    }

    method ExecuteTest() returns (ok: bool)
      requires Wired()
      modifies network
      ensures Execute(network.env, old(network.w), script) == if ok then Ok(network.w) else Err(network.w)
    {
      hide FundSteps, ValidatorSteps, DelegatorSteps, ReturnSteps, RunSteps;
      RunAppend(network.env, network.w, StakingSteps(script), ReturnSteps(script));
      RunAppend(network.env, network.w, FundSteps(script) + ValidatorSteps(script), DelegatorSteps(script));
      RunAppend(network.env, network.w, FundSteps(script), ValidatorSteps(script));
      ok := CreateFundedAccounts();
      if !ok { return; }
      ok := AddStaker();
      if !ok { return; }
      ok := AddDelegatorNode();
      if !ok { return; }
      ok := TransferBack();
    }
  }

  /** The i-th step and what follows it. */
  lemma Unroll(env: Env, w: World, steps: seq<Step>, i: nat)
    requires i < |steps|
    ensures steps[0..] == steps
    ensures var r := RunStep(env, w, steps[i]);
            RunSteps(env, w, steps[i..]) == if r.Ok? then RunSteps(env, r.w, steps[i + 1..]) else r
    ensures i + 1 == |steps| ==> RunSteps(env, w, steps[i..]) == RunStep(env, w, steps[i])
  {
    hide RunStep;
    assert steps[i..][1..] == steps[i + 1..];
  }

  // ---- Balances ----

  /** What one user owns: on the X-chain, on the P-chain, and on the way to either. */
  ghost predicate Owns(l: Accounts, user: Wallet, x: int, p: int, toP: int, toX: int) {
    && Balance(l, OnX(user.x)) == x && Balance(l, OnP(user.p)) == p
    && Balance(l, ToP(user.p)) == toP && Balance(l, ToX(user.x)) == toX
  }

  /** A user who has nothing yet. */
  ghost predicate Fresh(l: Accounts, user: Wallet) {
    Owns(l, user, 0, 0, 0, 0)
  }

  /** All that another user owns is still there. */
  ghost predicate Untouched(l: Accounts, m: Accounts, user: Wallet) {
    Owns(m, user, Balance(l, OnX(user.x)), Balance(l, OnP(user.p)), Balance(l, ToP(user.p)), Balance(l, ToX(user.x)))
  }

  predicate Apart(a: Wallet, b: Wallet) {
    a.x != b.x && a.p != b.p
  }

  /** The effect of a transfer to the P-chain on balances. */
  lemma CrossBalances(fees: Fees, l: Accounts, user: Wallet, other: Wallet, x: nat, p: nat, toP: nat, toX: nat, amount: nat)
    requires Owns(l, user, x, p, toP, toX) && Apart(user, other)
    ensures var m := Then(Apply(fees, l, ExportX(user.x, user.p, amount)), fees, ImportP(user.p));
            && (m.Some? <==> amount > 0 && x >= amount + fees.transfer && toP + amount > fees.transfer)
            && (m.Some? ==> && Owns(m.value, user, x - amount - fees.transfer, p + toP + amount - fees.transfer, 0, toX)
                            && Untouched(l, m.value, other))
  {
  }

  /** The effect of a transfer back to the X-chain. */
  lemma ReturnBalances(fees: Fees, l: Accounts, user: Wallet, other: Wallet, x: nat, p: nat, toP: nat, toX: nat, amount: nat)
    requires Owns(l, user, x, p, toP, toX) && Apart(user, other)
    ensures var m := Then(Apply(fees, l, ExportP(user.p, user.x, amount)), fees, ImportX(user.x));
            && (m.Some? <==> amount > 0 && p >= amount + fees.transfer && toX + amount > fees.transfer)
            && (m.Some? ==> && Owns(m.value, user, x + toX + amount - fees.transfer, p - amount - fees.transfer, toP, 0)
                            && Untouched(l, m.value, other))
  {
  }

  lemma StakeBalances(fees: Fees, l: Accounts, user: Wallet, other: Wallet, x: nat, p: nat, toP: nat, toX: nat, stake: Op)
    requires Owns(l, user, x, p, toP, toX) && Apart(user, other)
    requires (stake.AddValidator? || stake.AddDelegator?) && stake.src == user.p
    ensures var m := Apply(fees, l, stake);
            && (m.Some? <==> 0 < stake.amount && stake.amount + fees.stake <= p)
            && (m.Some? ==> && Owns(m.value, user, x, p - stake.amount - fees.stake, toP, toX)
                            && Untouched(l, m.value, other))
  {
  }

  lemma SendBalances(fees: Fees, l: Accounts, src: Address, a: Wallet, b: Wallet, amount: nat)
    requires Apart(a, b) && src != a.x && src != b.x
    ensures var m := Then(Apply(fees, l, Send(src, a.x, amount)), fees, Send(src, b.x, amount));
            && (m.Some? <==> amount > 0 && Balance(l, OnX(src)) >= 2 * (amount + fees.transfer))
            && (m.Some? ==> && Gained(l, m.value, a, amount) && Gained(l, m.value, b, amount))
  {
  }

  /** The user has got so much more on the X-chain, and otherwise nothing has changed for him. */
  ghost predicate Gained(l: Accounts, m: Accounts, user: Wallet, amount: int) {
    Owns(m, user, Balance(l, OnX(user.x)) + amount, Balance(l, OnP(user.p)), Balance(l, ToP(user.p)), Balance(l, ToX(user.x)))
  }

  lemma TwoSends(fees: Fees, l: Accounts, src: Address, a: Address, b: Address, amount: nat)
    ensures AfterSends(fees, l, src, [a, b], amount) == Then(Apply(fees, l, Send(src, a, amount)), fees, Send(src, b, amount))
  {
    hide Apply;
    assert [a, b][1..] == [b] && [b][1..] == [];
    var m := Apply(fees, l, Send(src, a, amount));
    assert m.Some? ==> AfterSends(fees, m.value, src, [b], amount) == Apply(fees, m.value, Send(src, b, amount));
  }

  // ---- The verdict on the books, part by part ----

  /** The i-th step and what follows it, on the books. */
  lemma UnrollBooks(fees: Fees, b: Books, steps: seq<Step>, i: nat)
    requires i < |steps|
    ensures steps[0..] == steps
    ensures RunBooks(fees, b, steps[i..]) ==
            match StepBooks(fees, b, steps[i]) case None => None case Some(m) => RunBooks(fees, m, steps[i + 1..])
    ensures i + 1 == |steps| ==> RunBooks(fees, b, steps[i..]) == StepBooks(fees, b, steps[i])
  {
    hide StepBooks;
    assert steps[i..][1..] == steps[i + 1..];
  }

  /** One operation followed by two checks. */
  lemma OneThenChecks(fees: Fees, b: Books, steps: seq<Step>)
    requires |steps| == 3 && (steps[1].ExpectX? || steps[1].ExpectP? || steps[1].ExpectNodes?)
    requires steps[2].ExpectX? || steps[2].ExpectP?
    ensures var m := StepBooks(fees, b, steps[0]);
            var r := RunBooks(fees, b, steps);
            && (r.Some? <==> && m.Some? && StepBooks(fees, m.value, steps[1]).Some?
                             && StepBooks(fees, m.value, steps[2]).Some?)
            && (r.Some? ==> r == m)
  {
    UnrollBooks(fees, b, steps, 0);
    var m := StepBooks(fees, b, steps[0]);
    if m.Some? {
      UnrollBooks(fees, m.value, steps, 1);
      UnrollBooks(fees, m.value, steps, 2);
    }
  }

  /** Funding passes on a rich enough genesis user and two users who have had nothing on the X-chain. */
  lemma FundBooks(fees: Fees, b: Books, s: Script)
    requires Apart(s.staker, s.delegator) && s.genesis.x != s.staker.x && s.genesis.x != s.delegator.x
    ensures var r := RunBooks(fees, b, FundSteps(s));
            && (r.Some? <==> && s.seed > 0 && Balance(b.ledger, OnX(s.genesis.x)) >= 2 * (s.seed + fees.transfer)
                             && Balance(b.ledger, OnX(s.staker.x)) == 0 && Balance(b.ledger, OnX(s.delegator.x)) == 0)
            && (r.Some? ==> && r.value == b.(ledger := r.value.ledger)
                            && Gained(b.ledger, r.value.ledger, s.staker, s.seed)
                            && Gained(b.ledger, r.value.ledger, s.delegator, s.seed))
  {
    OneThenChecks(fees, b, FundSteps(s));
    TwoSends(fees, b.ledger, s.genesis.x, s.staker.x, s.delegator.x, s.seed);
    SendBalances(fees, b.ledger, s.genesis.x, s.staker, s.delegator, s.seed);
    hide AfterSends, RunBooks, Then, Apply;
  }

  /** Crossing passes when the user has exactly the seed and the fee on the X-chain, and elsewhere just the other fee. */
  lemma CrossBooks(fees: Fees, b: Books, user: Wallet, other: Wallet, x: nat, p: nat, toP: nat, toX: nat, seed: nat)
    requires Apart(user, other) && Owns(b.ledger, user, x, p, toP, toX)
    ensures var r := RunBooks(fees, b, CrossSteps(user, seed));
            && (r.Some? <==> && seed > 0 && x == seed + fees.transfer
                             && toP + seed > fees.transfer && p + toP == fees.transfer)
            && (r.Some? ==> && r.value == b.(ledger := r.value.ledger)
                            && Owns(r.value.ledger, user, 0, seed, 0, toX) && Untouched(b.ledger, r.value.ledger, other))
  {
    OneThenChecks(fees, b, CrossSteps(user, seed));
    CrossBalances(fees, b.ledger, user, other, x, p, toP, toX, seed);
    hide Then, Apply, RunBooks;
  }

  lemma StakeBooks(fees: Fees, b: Books, s: Script, toX: nat)
    requires Apart(s.staker, s.delegator) && Owns(b.ledger, s.staker, 0, s.seed, 0, toX)
    ensures var r := RunBooks(fees, b, StakeSteps(s));
            && (r.Some? <==> && fees.stake == 0 && 0 < s.stake <= s.seed
                             && b.validators == 5 && b.delegators == 0)
            && (r.Some? ==> && Owns(r.value.ledger, s.staker, 0, s.seed - s.stake, 0, toX)
                            && Untouched(b.ledger, r.value.ledger, s.delegator))
  {
    OneThenChecks(fees, b, StakeSteps(s));
    StakeBalances(fees, b.ledger, s.staker, s.delegator, 0, s.seed, 0, toX,
                  AddValidator(s.staker.p, s.stake, Term(s.stakerNode, 0, 0), 0));
    hide RunBooks, Apply;
  }

  /** The validator's part, from a user whose X-chain balance is the seed. */
  lemma ValidatorBooks(fees: Fees, b: Books, s: Script, p: nat, toP: nat, toX: nat)
    requires Apart(s.staker, s.delegator) && Owns(b.ledger, s.staker, s.seed, p, toP, toX)
    ensures var r := RunBooks(fees, b, ValidatorSteps(s));
            && (r.Some? <==> && fees == Fees(0, 0) && p == toP == 0 && 0 < s.stake <= s.seed
                             && b.validators == 5 && b.delegators == 0)
            && (r.Some? ==> && Owns(r.value.ledger, s.staker, 0, s.seed - s.stake, 0, toX)
                            && Untouched(b.ledger, r.value.ledger, s.delegator))
  {
    hide CrossSteps, StakeSteps, RunBooks;
    BooksAppend(fees, b, CrossSteps(s.staker, s.seed), StakeSteps(s));
    CrossBooks(fees, b, s.staker, s.delegator, s.seed, p, toP, toX, s.seed);
    var r := RunBooks(fees, b, CrossSteps(s.staker, s.seed));
    hide Balance;
    if r.Some? {
      StakeBooks(fees, r.value, s, toX);
    }
  }

  lemma DelegateBooks(fees: Fees, b: Books, s: Script, toX: nat)
    requires Apart(s.staker, s.delegator) && Owns(b.ledger, s.delegator, 0, s.seed, 0, toX)
    ensures var r := RunBooks(fees, b, DelegateSteps(s));
            && (r.Some? <==> fees.stake == 0 && 0 < s.delegation <= s.seed)
            && (r.Some? ==> && Owns(r.value.ledger, s.delegator, 0, s.seed - s.delegation, 0, toX)
                            && Untouched(b.ledger, r.value.ledger, s.staker))
  {
    var steps := DelegateSteps(s);
    UnrollBooks(fees, b, steps, 0);
    StakeBalances(fees, b.ledger, s.delegator, s.staker, 0, s.seed, 0, toX,
                  AddDelegator(s.delegator.p, s.delegation, Term(s.stakerNode, 0, 0)));
    hide RunBooks, Apply;
    var m := StepBooks(fees, b, steps[0]);
    if m.Some? {
      UnrollBooks(fees, m.value, steps, 1);
    }
  }

  /** The delegator's part, from a user whose X-chain balance is the seed. */
  lemma DelegatorBooks(fees: Fees, b: Books, s: Script, p: nat, toP: nat, toX: nat)
    requires Apart(s.staker, s.delegator) && Owns(b.ledger, s.delegator, s.seed, p, toP, toX)
    ensures var r := RunBooks(fees, b, DelegatorSteps(s));
            && (r.Some? <==> fees == Fees(0, 0) && p == toP == 0 && 0 < s.delegation <= s.seed)
            && (r.Some? ==> && Owns(r.value.ledger, s.delegator, 0, s.seed - s.delegation, 0, toX)
                            && Untouched(b.ledger, r.value.ledger, s.staker))
  {
    hide CrossSteps, DelegateSteps, RunBooks;
    BooksAppend(fees, b, CrossSteps(s.delegator, s.seed), DelegateSteps(s));
    CrossBooks(fees, b, s.delegator, s.staker, s.seed, p, toP, toX, s.seed);
    var r := RunBooks(fees, b, CrossSteps(s.delegator, s.seed));
    hide Balance;
    if r.Some? {
      DelegateBooks(fees, r.value, s, toX);
    }
  }

  /** Bringing money back passes when it is all there is on the P-chain and the X-chain shows what is expected. */
  lemma BackBooks(fees: Fees, b: Books, user: Wallet, other: Wallet, x: nat, p: nat, toP: nat, toX: nat, amount: nat,
                  expected: nat)
    requires Apart(user, other) && Owns(b.ledger, user, x, p, toP, toX)
    ensures var r := RunBooks(fees, b, BackSteps(user, amount, expected));
            && (r.Some? <==> && amount > 0 && p == amount + fees.transfer
                             && toX + amount > fees.transfer && x + toX + amount - fees.transfer == expected)
            && (r.Some? ==> Owns(r.value.ledger, user, expected, 0, toP, 0) && Untouched(b.ledger, r.value.ledger, other))
  {
    OneThenChecks(fees, b, BackSteps(user, amount, expected));
    ReturnBalances(fees, b.ledger, user, other, x, p, toP, toX, amount);
    hide Then, Apply, RunBooks;
  }

  lemma ReturnBooks(fees: Fees, b: Books, s: Script, toX1: nat, toX2: nat)
    requires Apart(s.staker, s.delegator) && fees == Fees(0, 0) && 0 < s.stake <= s.seed && 0 < s.delegation <= s.seed
    requires Owns(b.ledger, s.staker, 0, s.seed - s.stake, 0, toX1)
    requires Owns(b.ledger, s.delegator, 0, s.seed - s.delegation, 0, toX2)
    ensures RunBooks(fees, b, ReturnSteps(s)).Some? <==> s.stake == s.delegation && s.stake < s.seed && toX1 == toX2 == 0
  {
    var left := s.StakerLeft();
    assert left == s.seed - s.stake && s.DelegatorLeft() == s.seed - s.delegation;
    hide BackSteps, RunBooks, Balance;
    BooksAppend(fees, b, BackSteps(s.staker, left, left), BackSteps(s.delegator, left, s.DelegatorLeft()));
    BackBooks(fees, b, s.staker, s.delegator, 0, left, 0, toX1, left, left);
    var r := RunBooks(fees, b, BackSteps(s.staker, left, left));
    if r.Some? {
      BackBooks(fees, r.value, s.delegator, s.staker, 0, s.seed - s.delegation, 0, toX2, left, s.seed - s.delegation);
    }
  }

  /** Of the two users, nothing but what was already under way to the X-chain. */
  ghost predicate NothingButToX(l: Accounts, user: Wallet) {
    Owns(l, user, 0, 0, 0, Balance(l, ToX(user.x)))
  }

  /** What the staking half of the script needs and what it leaves the two users. */
  lemma StakingBooks(fees: Fees, b: Books, s: Script)
    requires Apart(s.staker, s.delegator) && s.genesis.x != s.staker.x && s.genesis.x != s.delegator.x
    ensures var r := RunBooks(fees, b, StakingSteps(s));
            && (r.Some? <==> && fees == Fees(0, 0)
                             && Balance(b.ledger, OnX(s.genesis.x)) >= 2 * s.seed
                             && b.validators == 5 && b.delegators == 0
                             && 0 < s.stake <= s.seed && 0 < s.delegation <= s.seed
                             && NothingButToX(b.ledger, s.staker) && NothingButToX(b.ledger, s.delegator))
            && (r.Some? ==> && Owns(r.value.ledger, s.staker, 0, s.seed - s.stake, 0, Balance(b.ledger, ToX(s.staker.x)))
                            && Owns(r.value.ledger, s.delegator, 0, s.seed - s.delegation, 0,
                                    Balance(b.ledger, ToX(s.delegator.x))))
  {
    BooksAppend(fees, b, FundSteps(s) + ValidatorSteps(s), DelegatorSteps(s));
    BooksAppend(fees, b, FundSteps(s), ValidatorSteps(s));
    FundBooks(fees, b, s);
    hide FundSteps, ValidatorSteps, DelegatorSteps, RunBooks, Balance;
    var r1 := RunBooks(fees, b, FundSteps(s));
    if r1.Some? {
      ValidatorBooks(fees, r1.value, s, Balance(b.ledger, OnP(s.staker.p)), Balance(b.ledger, ToP(s.staker.p)),
                     Balance(b.ledger, ToX(s.staker.x)));
      var r2 := RunBooks(fees, r1.value, ValidatorSteps(s));
      if r2.Some? {
        DelegatorBooks(fees, r2.value, s, Balance(b.ledger, OnP(s.delegator.p)), Balance(b.ledger, ToP(s.delegator.p)),
                       Balance(b.ledger, ToX(s.delegator.x)));
      }
    }
  }

  // ---- A passing run was served ----

  /**
   * Bringing everything back and finding it there means that the import went through: money still in flight would
   * show up as a balance of zero where the check expects all that was sent.
   */
  lemma BackServed(env: Env, w: World, user: Wallet, p: nat, toX: nat, amount: nat)
    requires Calm(w) && Owns(w.ledger, user, 0, p, 0, toX) && env.fees.transfer == 0
    requires RunSteps(env, w, BackSteps(user, amount, p)).Ok?
    ensures Served(env, w, BackSteps(user, amount, p))
  {
    var steps := BackSteps(user, amount, p);
    Unroll(env, w, steps, 0);
    var w1 := RunStep(env, w, steps[0]).w;
    Unroll(env, w1, steps, 1);
    var w2 := RunStep(env, w1, steps[1]).w;
    Unroll(env, w2, steps, 2);
    hide RunSteps, TransferPToX, ImportAccepted, Balance, Inv, Quiet, Apply, ServedStep;
    assert w2.ledger == w1.ledger;
    CrossingPToX(env, w, user.p, user.x, amount);
    if !ImportAccepted(env, w, user.p, user.x, amount) {
      LostBalances(env.fees, w.ledger, user, p, toX, amount);
      assert false;
    }
    OkStepServed(env, w, steps[0]);
    OkRunServed(env, w1, steps[1..]);
  }

  lemma LostBalances(fees: Fees, l: Accounts, user: Wallet, p: nat, toX: nat, amount: nat)
    requires Owns(l, user, 0, p, 0, toX) && fees.transfer == 0 && Apply(fees, l, ExportP(user.p, user.x, amount)).Some?
    ensures var m := Apply(fees, l, ExportP(user.p, user.x, amount)).value;
            amount > 0 && Balance(m, OnX(user.x)) == 0 && Balance(m, OnP(user.p)) == p - amount
  {
  }

  lemma ReturnServed(env: Env, w: World, s: Script, toX1: nat, toX2: nat)
    requires Calm(w) && Apart(s.staker, s.delegator) && env.fees == Fees(0, 0)
    requires 0 < s.stake <= s.seed && 0 < s.delegation <= s.seed
    requires Owns(w.ledger, s.staker, 0, s.seed - s.stake, 0, toX1)
    requires Owns(w.ledger, s.delegator, 0, s.seed - s.delegation, 0, toX2)
    requires RunSteps(env, w, ReturnSteps(s)).Ok?
    ensures Served(env, w, ReturnSteps(s))
  {
    hide BackSteps, RunSteps, Served;
    var left := s.StakerLeft();
    assert left == s.seed - s.stake && s.DelegatorLeft() == s.seed - s.delegation;
    var first, second := BackSteps(s.staker, left, left), BackSteps(s.delegator, left, s.DelegatorLeft());
    RunAppend(env, w, first, second);
    ServedAppend(env, w, first, second);
    FirstBack(env, w, s.staker, s.delegator, left, toX1);
    BackServed(env, RunSteps(env, w, first).w, s.delegator, s.seed - s.delegation, toX2, left);
  }

  /** Bringing the first user's money back leaves the other's alone. */
  lemma FirstBack(env: Env, w: World, user: Wallet, other: Wallet, p: nat, toX: nat)
    requires Calm(w) && Apart(user, other) && env.fees.transfer == 0
    requires Owns(w.ledger, user, 0, p, 0, toX) && RunSteps(env, w, BackSteps(user, p, p)).Ok?
    ensures Served(env, w, BackSteps(user, p, p))
    ensures var w1 := RunSteps(env, w, BackSteps(user, p, p)).w; Calm(w1) && Untouched(w.ledger, w1.ledger, other)
  {
    hide BackSteps, RunSteps, RunBooks, Owns, Untouched, Calm, Served;
    BackServed(env, w, user, p, toX, p);
    ServedRun(env, w, BackSteps(user, p, p));
    BackBooks(env.fees, BooksOf(w), user, other, 0, p, 0, toX, p, p);
  }

  lemma StakingServed(env: Env, w: World, s: Script)
    requires RunSteps(env, w, StakingSteps(s)).Ok?
    ensures Served(env, w, StakingSteps(s))
  {
    forall t | t in StakingSteps(s) ensures !t.PToX? {
    }
    OkRunServed(env, w, StakingSteps(s));
  }

  /**
   * On any network and from any accounts, the test passes exactly when the network serves the run, there are no fees,
   * the genesis user can pay twice the seed, both users start with nothing, five validators and no delegators exist,
   * and stake and delegation are equal, positive and below the seed.
   */
  lemma WorkflowVerdict(env: Env, w: World, s: Script)
    requires Calm(w)
    requires Apart(s.staker, s.delegator) && s.genesis.x != s.staker.x && s.genesis.x != s.delegator.x
    ensures Execute(env, w, s).Ok? <==>
              && Served(env, w, StakingSteps(s) + ReturnSteps(s))
              && env.fees == Fees(0, 0)
              && Balance(w.ledger, OnX(s.genesis.x)) >= 2 * s.seed
              && Fresh(w.ledger, s.staker) && Fresh(w.ledger, s.delegator)
              && w.validators == 5 && w.delegators == 0
              && s.stake == s.delegation && 0 < s.stake < s.seed
  {
    RunAppend(env, w, StakingSteps(s), ReturnSteps(s));
    ServedAppend(env, w, StakingSteps(s), ReturnSteps(s));
    StakingBooks(env.fees, BooksOf(w), s);
    hide StakingSteps, ReturnSteps, RunSteps, RunBooks, Calm, Balance;
    var r := RunSteps(env, w, StakingSteps(s));
    if r.Ok? {
      StakingServed(env, w, s);
    }
    if Served(env, w, StakingSteps(s)) {
      ServedRun(env, w, StakingSteps(s));
      if r.Ok? {
        HalfWay(env, w, r.w, s);
      }
    }
  }

  /** What the second half makes of the first. */
  lemma HalfWay(env: Env, w: World, half: World, s: Script)
    requires Calm(half) && Apart(s.staker, s.delegator) && env.fees == Fees(0, 0)
    requires 0 < s.stake <= s.seed && 0 < s.delegation <= s.seed
    requires Owns(half.ledger, s.staker, 0, s.seed - s.stake, 0, Balance(w.ledger, ToX(s.staker.x)))
    requires Owns(half.ledger, s.delegator, 0, s.seed - s.delegation, 0, Balance(w.ledger, ToX(s.delegator.x)))
    ensures RunSteps(env, half, ReturnSteps(s)).Ok? <==>
              && Served(env, half, ReturnSteps(s)) && s.stake == s.delegation && s.stake < s.seed
              && Balance(w.ledger, ToX(s.staker.x)) == Balance(w.ledger, ToX(s.delegator.x)) == 0
  {
    hide ReturnSteps, RunSteps, RunBooks, Calm, Balance, Owns;
    var toX1, toX2 := Balance(w.ledger, ToX(s.staker.x)), Balance(w.ledger, ToX(s.delegator.x));
    ReturnBooks(env.fees, BooksOf(half), s, toX1, toX2);
    if RunSteps(env, half, ReturnSteps(s)).Ok? {
      ReturnServed(env, half, s, toX1, toX2);
    }
    if Served(env, half, ReturnSteps(s)) {
      ServedRun(env, half, ReturnSteps(s));
    }
  }

  /** However late a network accepts, the test passes on it once the amounts are right, and only then. */
  lemma PassesDespiteDelay(d: nat, w: World, s: Script)
    requires Calm(w) && OnTime(d, w)
    requires Apart(s.staker, s.delegator) && s.genesis.x != s.staker.x && s.genesis.x != s.delegator.x
    ensures Execute(Delayed(d, Fees(0, 0)), w, s).Ok? <==>
              && Balance(w.ledger, OnX(s.genesis.x)) >= 2 * s.seed
              && Fresh(w.ledger, s.staker) && Fresh(w.ledger, s.delegator)
              && w.validators == 5 && w.delegators == 0
              && s.stake == s.delegation && 0 < s.stake < s.seed
  {
    WorkflowVerdict(Delayed(d, Fees(0, 0)), w, s);
    DelayedServes(d, Fees(0, 0), w, StakingSteps(s) + ReturnSteps(s));
  }

  // ---- What a passing test has asked for ----

  /** Twelve operations in this order, both stakes on the staker's node, and nothing else. */
  lemma WorkflowAsks(env: Env, w: World, s: Script)
    requires Execute(env, w, s).Ok?
    ensures var left := s.StakerLeft();
            Bares(Attempts(Execute(env, w, s).w.log)) == Bares(Attempts(w.log)) +
              [Send(s.genesis.x, s.staker.x, s.seed), Send(s.genesis.x, s.delegator.x, s.seed),
               ExportX(s.staker.x, s.staker.p, s.seed), ImportP(s.staker.p),
               AddValidator(s.staker.p, s.stake, Term(s.stakerNode, 0, 0), 2),
               ExportX(s.delegator.x, s.delegator.p, s.seed), ImportP(s.delegator.p),
               AddDelegator(s.delegator.p, s.delegation, Term(s.stakerNode, 0, 0)),
               ExportP(s.staker.p, s.staker.x, left), ImportX(s.staker.x),
               ExportP(s.delegator.p, s.delegator.x, left), ImportX(s.delegator.x)]
  {
    hide *;
    ExecuteRuns(env, w, s);
    RunAsks(env, w, StakingSteps(s) + ReturnSteps(s));
    ScriptOpsAppend(StakingSteps(s), ReturnSteps(s));
    StakingOps(s);
    ReturnOps(s);
  }

  lemma ExecuteRuns(env: Env, w: World, s: Script)
    ensures Execute(env, w, s) == RunSteps(env, w, StakingSteps(s) + ReturnSteps(s))
  {
  }

  lemma StakingOps(s: Script)
    ensures ScriptOps(StakingSteps(s)) ==
              [Send(s.genesis.x, s.staker.x, s.seed), Send(s.genesis.x, s.delegator.x, s.seed),
               ExportX(s.staker.x, s.staker.p, s.seed), ImportP(s.staker.p),
               AddValidator(s.staker.p, s.stake, Term(s.stakerNode, 0, 0), 2),
               ExportX(s.delegator.x, s.delegator.p, s.seed), ImportP(s.delegator.p),
               AddDelegator(s.delegator.p, s.delegation, Term(s.stakerNode, 0, 0))]
  {
    hide FundSteps, ValidatorSteps, DelegatorSteps, ScriptOps;
    ScriptOpsAppend(FundSteps(s) + ValidatorSteps(s), DelegatorSteps(s));
    ScriptOpsAppend(FundSteps(s), ValidatorSteps(s));
    FundOps(s);
    ValidatorOps(s);
    DelegatorOps(s);
  }

  lemma ReturnOps(s: Script)
    ensures ScriptOps(ReturnSteps(s)) ==
              [ExportP(s.staker.p, s.staker.x, s.StakerLeft()), ImportX(s.staker.x),
               ExportP(s.delegator.p, s.delegator.x, s.StakerLeft()), ImportX(s.delegator.x)]
  {
    hide BackSteps, ScriptOps;
    var left := s.StakerLeft();
    ScriptOpsAppend(BackSteps(s.staker, left, left), BackSteps(s.delegator, left, s.DelegatorLeft()));
    BackOps(s.staker, left, left);
    BackOps(s.delegator, left, s.DelegatorLeft());
  }

  predicate IsCheck(s: Step) {
    s.ExpectX? || s.ExpectP? || s.ExpectNodes?
  }

  lemma {:induction false} ChecksAskNothing(steps: seq<Step>)
    requires forall s :: s in steps ==> IsCheck(s)
    ensures ScriptOps(steps) == []
    decreases |steps|
  {
    if steps != [] {
      assert IsCheck(steps[0]);
      ChecksAskNothing(steps[1..]);
    }
  }

  /** One step and the checks on it. */
  lemma OnlyFirst(steps: seq<Step>)
    requires steps != [] && forall s :: s in steps[1..] ==> IsCheck(s)
    ensures ScriptOps(steps) == StepOps(steps[0])
  {
    hide StepOps;
    ChecksAskNothing(steps[1..]);
  }

  lemma FundOps(s: Script)
    ensures ScriptOps(FundSteps(s)) ==
            [Send(s.genesis.x, s.staker.x, s.seed), Send(s.genesis.x, s.delegator.x, s.seed)]
  {
    OnlyFirst(FundSteps(s));
  }

  lemma ValidatorOps(s: Script)
    ensures ScriptOps(ValidatorSteps(s)) ==
            [ExportX(s.staker.x, s.staker.p, s.seed), ImportP(s.staker.p),
             AddValidator(s.staker.p, s.stake, Term(s.stakerNode, 0, 0), 2)]
  {
    ScriptOpsAppend(CrossSteps(s.staker, s.seed), StakeSteps(s));
    OnlyFirst(CrossSteps(s.staker, s.seed));
    OnlyFirst(StakeSteps(s));
  }

  lemma DelegatorOps(s: Script)
    ensures ScriptOps(DelegatorSteps(s)) ==
            [ExportX(s.delegator.x, s.delegator.p, s.seed), ImportP(s.delegator.p),
             AddDelegator(s.delegator.p, s.delegation, Term(s.stakerNode, 0, 0))]
  {
    ScriptOpsAppend(CrossSteps(s.delegator, s.seed), DelegateSteps(s));
    OnlyFirst(CrossSteps(s.delegator, s.seed));
    OnlyFirst(DelegateSteps(s));
  }

  lemma BackOps(user: Wallet, amount: nat, expected: nat)
    ensures ScriptOps(BackSteps(user, amount, expected)) == [ExportP(user.p, user.x, amount), ImportX(user.x)]
  {
    OnlyFirst(BackSteps(user, amount, expected));
  }
}
