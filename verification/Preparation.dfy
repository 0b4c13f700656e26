/** What the bombard test asks of the network before it issues anything. */
module Preparation {
  import opened Options
  import opened Sets
  import opened TwoChain
  import opened Polling
  import opened Runner
  import opened Serving
  import opened Confirmation

  /** Each client's balance is checked and its outputs are listed. */
  function Gathered(env: Env, w: World, addresses: seq<Address>, seed: nat): Outcome
    decreases |addresses|
  {
    if addresses == [] then Ok(w)
    else
      var w1 :- CheckX(env, w, addresses[0], seed);
      var w2 :- Checked(env, w1, true);
      Gathered(env, w2, addresses[1..], seed)
  }

  /** One call for each client's key. */
  function Exported(env: Env, w: World, n: nat): Outcome
    decreases n
  {
    if n == 0 then Ok(w)
    else
      var w1 :- Checked(env, w, true);
      Exported(env, w1, n - 1)
  }

  lemma ExportedStep(env: Env, w: World, n: nat)
    ensures Exported(env, w, n) ==
            if n == 0 then Ok(w)
            else if Checked(env, w, true).Ok? then Exported(env, Checked(env, w, true).w, n - 1)
            else Checked(env, w, true)
  {
  }

  /** Funding from the genesis account, checking and listing, exporting the keys. */
  function Prepared(env: Env, w: World, genesis: Address, addresses: seq<Address>, seed: nat): Outcome {
    var w1 :- FundX(env, w, genesis, addresses, seed);
    var w2 :- Gathered(env, w1, addresses, seed);
    Exported(env, w2, |addresses|)
  }

  /** A call whose answer is data that the model takes as given. */
  method Query(network: Network) returns (ok: bool)
    modifies network
    ensures Checked(network.env, old(network.w), true) == if ok then Ok(network.w) else Err(network.w)
  {
    ok := !network.env.rpcFails(network.w.calls);
    network.w := Called(network.env, network.w);
  }

  // ---- When the preparation succeeds ----

  ghost predicate Answered(env: Env, from: nat, n: nat) {
    forall k :: from <= k < from + n ==> !env.rpcFails(k)
  }

  /** So many calls later, and nothing else has happened. */
  predicate OnlyCalls(w: World, later: World, n: nat) {
    later == w.(now := later.now, calls := w.calls + n)
  }

  /** Every client must hold exactly the seed, and both calls for each must be answered. */
  lemma {:induction false} GatheredIff(env: Env, w: World, addresses: seq<Address>, seed: nat)
    ensures var r := Gathered(env, w, addresses, seed);
            && (r.Ok? <==> && Answered(env, w.calls, 2 * |addresses|)
                           && forall i :: 0 <= i < |addresses| ==> Balance(w.ledger, OnX(addresses[i])) == seed)
            && (r.Ok? ==> OnlyCalls(w, r.w, 2 * |addresses|))
            && r.w.ledger == w.ledger
    decreases |addresses|
  {
    hide Balance;
    if addresses != [] {
      var r1 := CheckX(env, w, addresses[0], seed);
      if r1.Ok? {
        var r2 := Checked(env, r1.w, true);
        if r2.Ok? {
          GatheredIff(env, r2.w, addresses[1..], seed);
          AnsweredTwo(env, w.calls, 2 * |addresses|);
        } else {
          assert env.rpcFails(w.calls + 1);
        }
      }
    }
  }

  lemma AnsweredTwo(env: Env, from: nat, n: nat)
    requires n >= 2
    ensures Answered(env, from, n) <==> !env.rpcFails(from) && !env.rpcFails(from + 1) && Answered(env, from + 2, n - 2)
  {
  }

  lemma {:induction false} ExportedIff(env: Env, w: World, n: nat)
    ensures var r := Exported(env, w, n);
            && (r.Ok? <==> Answered(env, w.calls, n))
            && (r.Ok? ==> OnlyCalls(w, r.w, n))
            && r.w.ledger == w.ledger
    decreases n
  {
    if n > 0 && !env.rpcFails(w.calls) {
      ExportedIff(env, Called(env, w), n - 1);
    }
  }

  // ---- Funding ----

  /** Sending to others can be paid for exactly when amounts and fees are covered; each address gains the amount. */
  lemma {:induction false} SendsIff(fees: Fees, l: Accounts, src: Address, addresses: seq<Address>, amount: nat)
    requires NoDup(addresses) && src !in addresses
    ensures var m := AfterSends(fees, l, src, addresses, amount);
            && (m.Some? <==> addresses == [] || (amount > 0 && Balance(l, OnX(src)) >= |addresses| * (amount + fees.transfer)))
            && (m.Some? ==> && (forall i :: 0 <= i < |addresses| ==>
                                  Balance(m.value, OnX(addresses[i])) == Balance(l, OnX(addresses[i])) + amount)
                            && (forall a :: a !in addresses && a != src ==> Balance(m.value, OnX(a)) == Balance(l, OnX(a))))
    decreases |addresses|
  {
    if addresses != [] {
      var m := Apply(fees, l, Send(src, addresses[0], amount));
      OneSend(fees, l, src, addresses[0], amount);
      TimesStep(|addresses|, amount + fees.transfer);
      assert addresses[0] !in addresses[1..];
      hide Apply, Balance;
      if m.Some? {
        SendsIff(fees, m.value, src, addresses[1..], amount);
      }
    }
  }

  lemma OneSend(fees: Fees, l: Accounts, src: Address, dst: Address, amount: nat)
    requires src != dst
    ensures var m := Apply(fees, l, Send(src, dst, amount));
            && (m.Some? <==> amount > 0 && Balance(l, OnX(src)) >= amount + fees.transfer)
            && (m.Some? ==> && Balance(m.value, OnX(src)) == Balance(l, OnX(src)) - (amount + fees.transfer)
                            && Balance(m.value, OnX(dst)) == Balance(l, OnX(dst)) + amount
                            && forall a :: a != src && a != dst ==> Balance(m.value, OnX(a)) == Balance(l, OnX(a)))
  {
  }

  /** Funding succeeds exactly when the network serves it and the sender can pay. */
  lemma FundIff(env: Env, w: World, src: Address, addresses: seq<Address>, amount: nat)
    requires Calm(w) && NoDup(addresses) && src !in addresses
    ensures var r := FundX(env, w, src, addresses, amount);
            && (r.Ok? <==> && ServedFund(env, w, src, addresses, amount)
                           && (addresses == [] ||
                               (amount > 0 && Balance(w.ledger, OnX(src)) >= |addresses| * (amount + env.fees.transfer))))
            && (r.Ok? ==> forall i :: 0 <= i < |addresses| ==>
                            Balance(r.w.ledger, OnX(addresses[i])) == Balance(w.ledger, OnX(addresses[i])) + amount)
  {
    SendsIff(env.fees, w.ledger, src, addresses, amount);
    hide FundX, ServedFund, Calm, Balance, AfterSends;
    if FundX(env, w, src, addresses, amount).Ok? {
      OkFundServed(env, w, src, addresses, amount);
    }
    if ServedFund(env, w, src, addresses, amount) {
      ServedFundKeeps(env, w, src, addresses, amount);
    }
  }

  /**
   * The preparation succeeds exactly when funding is served and paid for, nobody held anything on the X-chain before,
   * and the three calls for each client are answered.
   */
  lemma PreparedIff(env: Env, w: World, genesis: Address, addresses: seq<Address>, seed: nat)
    requires Calm(w) && NoDup(addresses) && genesis !in addresses
    ensures Prepared(env, w, genesis, addresses, seed).Ok? <==>
              && ServedFund(env, w, genesis, addresses, seed)
              && (addresses == [] ||
                  (seed > 0 && Balance(w.ledger, OnX(genesis)) >= |addresses| * (seed + env.fees.transfer)))
              && (forall i :: 0 <= i < |addresses| ==> Balance(w.ledger, OnX(addresses[i])) == 0)
              && Answered(env, FundX(env, w, genesis, addresses, seed).w.calls, 3 * |addresses|)
  {
    FundIff(env, w, genesis, addresses, seed);
    hide FundX, Calm, ServedFund, Gathered, Exported, Balance;
    var r1 := FundX(env, w, genesis, addresses, seed);
    if r1.Ok? {
      GatheredIff(env, r1.w, addresses, seed);
      var r2 := Gathered(env, r1.w, addresses, seed);
      if r2.Ok? {
        ExportedIff(env, r2.w, |addresses|);
      }
    }
  }

  // ---- Later answers do not matter ----

  lemma {:induction false} SameWait(env: Env, k0: nat, tx: TxId, start: int, w: World)
    requires Wait(env, X, tx, start, w).w.calls <= k0
    ensures Wait(RejectingFrom(env, k0), X, tx, start, w) == Wait(env, X, tx, start, w)
    ensures w.calls <= Wait(env, X, tx, start, w).w.calls
    decreases if w.now - start < env.timeout then start + env.timeout - w.now else 0
  {
    CallsGrow(env, tx, start, w);
    if w.now - start < env.timeout && env.Judge(X, tx, w.calls) == Pending {
      var w1 := Slept(env, Queried(env, X, tx, w));
      CallsGrow(env, tx, start, w1);
      SameWait(env, k0, tx, start, w1);
    }
  }

  lemma {:induction false} CallsGrow(env: Env, tx: TxId, start: int, w: World)
    ensures Wait(env, X, tx, start, w).w.calls >= w.calls
    ensures w.now - start < env.timeout ==> Wait(env, X, tx, start, w).w.calls > w.calls
    decreases if w.now - start < env.timeout then start + env.timeout - w.now else 0
  {
    if w.now - start < env.timeout && env.Judge(X, tx, w.calls) == Pending {
      CallsGrow(env, tx, start, Slept(env, Queried(env, X, tx, w)));
    }
  }

  lemma FundCallsGrow(env: Env, w: World, src: Address, addresses: seq<Address>, amount: nat)
    ensures FundX(env, w, src, addresses, amount).w.calls >= w.calls
    decreases |addresses|
  {
    if addresses != [] {
      var i := Issue(env, w, Send(src, addresses[0], amount));
      if i.tx.Some? {
        CallsGrow(env, i.tx.value, i.w.now, i.w);
      }
      FundCallsGrow(env, IssueAndWait(env, X, w, Send(src, addresses[0], amount)).w, src, addresses[1..], amount);
    }
  }

  lemma {:induction false} SameFund(env: Env, k0: nat, w: World, src: Address, addresses: seq<Address>, amount: nat)
    requires FundX(env, w, src, addresses, amount).w.calls <= k0
    ensures FundX(RejectingFrom(env, k0), w, src, addresses, amount) == FundX(env, w, src, addresses, amount)
    decreases |addresses|
  {
    if addresses != [] {
      var op := Send(src, addresses[0], amount);
      var i := Issue(env, w, op);
      assert Issue(RejectingFrom(env, k0), w, op) == i;
      var r := IssueAndWait(env, X, w, op);
      FundCallsGrow(env, r.w, src, addresses[1..], amount);
      if i.tx.Some? {
        SameWait(env, k0, i.tx.value, i.w.now, i.w);
      }
      if r.Ok? {
        SameFund(env, k0, r.w, src, addresses[1..], amount);
      }
    }
  }

  lemma {:induction false} SameGathered(env: Env, k0: nat, w: World, addresses: seq<Address>, seed: nat)
    ensures Gathered(RejectingFrom(env, k0), w, addresses, seed) == Gathered(env, w, addresses, seed)
    ensures Gathered(env, w, addresses, seed).w.calls >= w.calls
    decreases |addresses|
  {
    if addresses != [] {
      var w1 := CheckX(env, w, addresses[0], seed).w;
      assert CheckX(RejectingFrom(env, k0), w, addresses[0], seed) == CheckX(env, w, addresses[0], seed);
      assert Checked(RejectingFrom(env, k0), w1, true) == Checked(env, w1, true);
      SameGathered(env, k0, Checked(env, w1, true).w, addresses[1..], seed);
    }
  }

  lemma {:induction false} SameExported(env: Env, k0: nat, w: World, n: nat)
    ensures Exported(RejectingFrom(env, k0), w, n) == Exported(env, w, n)
    ensures Exported(env, w, n).w.calls >= w.calls
    decreases n
  {
    if n > 0 {
      SameExported(env, k0, Checked(env, w, true).w, n - 1);
    }
  }

  /** A network that turns against the test only after its preparation serves the preparation all the same. */
  lemma SamePrepared(env: Env, w: World, genesis: Address, addresses: seq<Address>, seed: nat)
    ensures var r := Prepared(env, w, genesis, addresses, seed);
            Prepared(RejectingFrom(env, r.w.calls), w, genesis, addresses, seed) == r
  {
    var k0 := Prepared(env, w, genesis, addresses, seed).w.calls;
    var r1 := FundX(env, w, genesis, addresses, seed);
    if r1.Ok? {
      SameGathered(env, k0, r1.w, addresses, seed);
      var r2 := Gathered(env, r1.w, addresses, seed);
      if r2.Ok? {
        SameExported(env, k0, r2.w, |addresses|);
      }
    }
    SameFund(env, k0, w, genesis, addresses, seed);
  }
}
