/** Seeding a user from the X-chain and staking: when it succeeds, and what it does to the accounts. */
module StartValidation {
  import opened Options
  import opened TwoChain
  import opened Polling
  import opened Runner
  import opened Serving

  /** Seeding and staking as two steps of a script. */
  function SeedAndStake(wallet: Wallet, node: string, seed: nat, stake: nat): seq<Step> {
    [XToP(wallet.x, wallet.p, seed), Validate(wallet.p, node, stake)]
  }

  /** The wallet can pay for the seed's way to the P-chain and then for the stake. */
  ghost predicate CanPay(fees: Fees, l: Accounts, wallet: Wallet, seed: nat, stake: nat) {
    var arriving := Balance(l, ToP(wallet.p)) + seed - fees.transfer;
    && seed > 0 && Balance(l, OnX(wallet.x)) >= seed + fees.transfer && arriving > 0
    && stake > 0 && Balance(l, OnP(wallet.p)) + arriving >= stake + fees.stake
  }

  /** The seed has left the X-chain, the stake is staked, the rest is on the P-chain, and nobody else is touched. */
  ghost predicate HasStaked(fees: Fees, l: Accounts, m: Accounts, wallet: Wallet, seed: nat, stake: nat) {
    && Balance(m, OnX(wallet.x)) == Balance(l, OnX(wallet.x)) - seed - fees.transfer
    && Balance(m, ToP(wallet.p)) == 0
    && Balance(m, Staked(wallet.p)) == Balance(l, Staked(wallet.p)) + stake
    && Balance(m, OnP(wallet.p)) ==
       Balance(l, OnP(wallet.p)) + Balance(l, ToP(wallet.p)) + seed - fees.transfer - stake - fees.stake
    && (forall a :: a !in {OnX(wallet.x), ToP(wallet.p), Staked(wallet.p), OnP(wallet.p), Burned} ==> Balance(m, a) == Balance(l, a))
  }

  lemma ScriptOf(env: Env, w: World, wallet: Wallet, node: string, seed: nat, stake: nat)
    ensures StartValidating(env, w, wallet, node, seed, stake) == RunSteps(env, w, SeedAndStake(wallet, node, seed, stake))
  {
    hide TransferXToP, Stake, ValidatorOp;
    var steps := SeedAndStake(wallet, node, seed, stake);
    assert steps[1..][1..] == [];
    var r := TransferXToP(env, w, wallet.x, wallet.p, seed);
    assert r.Ok? ==> RunSteps(env, r.w, steps[1..]) == RunStep(env, r.w, steps[1]);
  }

  lemma OnBooks(fees: Fees, b: Books, wallet: Wallet, node: string, seed: nat, stake: nat)
    ensures var steps := SeedAndStake(wallet, node, seed, stake);
            var m := StepBooks(fees, b, steps[0]);
            RunBooks(fees, b, steps) == match m case None => None case Some(c) => StepBooks(fees, c, steps[1])
  {
    hide StepBooks;
    var steps := SeedAndStake(wallet, node, seed, stake);
    assert steps[1..][1..] == [];
    var m := StepBooks(fees, b, steps[0]);
    assert m.Some? ==> RunBooks(fees, m.value, steps[1..]) == StepBooks(fees, m.value, steps[1]);
  }

  lemma Crossed(fees: Fees, l: Accounts, wallet: Wallet, seed: nat)
    ensures var m := Then(Apply(fees, l, ExportX(wallet.x, wallet.p, seed)), fees, ImportP(wallet.p));
            && (m.Some? <==> seed > 0 && Balance(l, OnX(wallet.x)) >= seed + fees.transfer &&
                             Balance(l, ToP(wallet.p)) + seed > fees.transfer)
            && (m.Some? ==>
                  && Balance(m.value, OnX(wallet.x)) == Balance(l, OnX(wallet.x)) - seed - fees.transfer
                  && Balance(m.value, ToP(wallet.p)) == 0
                  && Balance(m.value, OnP(wallet.p)) ==
                     Balance(l, OnP(wallet.p)) + Balance(l, ToP(wallet.p)) + seed - fees.transfer
                  && (forall a :: a !in {OnX(wallet.x), ToP(wallet.p), OnP(wallet.p), Burned} ==>
                        Balance(m.value, a) == Balance(l, a)))
  {
  }

  lemma Bound(fees: Fees, l: Accounts, wallet: Wallet, node: string, stake: nat)
    ensures var m := Apply(fees, l, AddValidator(wallet.p, stake, Term(node, 0, 0), 0));
            && (m.Some? <==> stake > 0 && Balance(l, OnP(wallet.p)) >= stake + fees.stake)
            && (m.Some? ==>
                  && Balance(m.value, OnP(wallet.p)) == Balance(l, OnP(wallet.p)) - stake - fees.stake
                  && Balance(m.value, Staked(wallet.p)) == Balance(l, Staked(wallet.p)) + stake
                  && (forall a :: a !in {OnP(wallet.p), Staked(wallet.p), Burned} ==> Balance(m.value, a) == Balance(l, a)))
  {
  }

  lemma BooksIff(fees: Fees, b: Books, wallet: Wallet, node: string, seed: nat, stake: nat)
    ensures var r := RunBooks(fees, b, SeedAndStake(wallet, node, seed, stake));
            && (r.Some? <==> CanPay(fees, b.ledger, wallet, seed, stake))
            && (r.Some? ==> && HasStaked(fees, b.ledger, r.value.ledger, wallet, seed, stake)
                            && r.value.validators == b.validators + 1 && r.value.delegators == b.delegators)
  {
    OnBooks(fees, b, wallet, node, seed, stake);
    Crossed(fees, b.ledger, wallet, seed);
    hide Balance, Apply, Then, RunBooks;
    var m := StepBooks(fees, b, SeedAndStake(wallet, node, seed, stake)[0]);
    if m.Some? {
      Bound(fees, m.value.ledger, wallet, node, stake);
    }
  }

  /**
   * From a quiet beginning it succeeds exactly when the network serves the three operations and the wallet can pay;
   * then there is one validator more and only the wallet's accounts have changed.
   */
  lemma StartValidatingIff(env: Env, w: World, wallet: Wallet, node: string, seed: nat, stake: nat)
    requires Calm(w)
    ensures var r := StartValidating(env, w, wallet, node, seed, stake);
            && (r.Ok? <==> && Served(env, w, SeedAndStake(wallet, node, seed, stake))
                           && CanPay(env.fees, w.ledger, wallet, seed, stake))
            && (r.Ok? ==> && Calm(r.w) && HasStaked(env.fees, w.ledger, r.w.ledger, wallet, seed, stake)
                          && r.w.validators == w.validators + 1 && r.w.delegators == w.delegators)
  {
    ScriptOf(env, w, wallet, node, seed, stake);
    BooksIff(env.fees, BooksOf(w), wallet, node, seed, stake);
    hide StartValidating, RunSteps, RunBooks, Served, Calm, CanPay, HasStaked;
    var steps := SeedAndStake(wallet, node, seed, stake);
    if RunSteps(env, w, steps).Ok? {
      OkRunServed(env, w, steps);
    }
    if Served(env, w, steps) {
      ServedRun(env, w, steps);
    }
  }
}
