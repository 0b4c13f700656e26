/** The funds on the X-chain and the P-chain, between them, staked and burned. */
module TwoChain {
  import opened Options
  import opened Sets

  type Address = string

  datatype Account =
    | OnX(a: Address) | OnP(a: Address)
    | ToP(a: Address) | ToX(a: Address)
    | Staked(a: Address) | Burned

  type Accounts = map<Account, nat>

  datatype Fees = Fees(transfer: nat, stake: nat)

  datatype Op =
    | Send(src: Address, dst: Address, amount: nat)
    | ExportX(src: Address, dst: Address, amount: nat)
    | ImportP(dst: Address)
    | ExportP(src: Address, dst: Address, amount: nat)
    | ImportX(dst: Address)
    | AddValidator(src: Address, amount: nat, term: Term, feeRate: nat)
    | AddDelegator(src: Address, amount: nat, term: Term)

  /** On which node, and from when to when in whole seconds, an amount is staked. */
  datatype Term = Term(node: string, start: nat, end: nat)

  function Balance(l: Accounts, a: Account): nat {
    if a in l then l[a] else 0
  }

  function Move(l: Accounts, src: Account, dst: Account, amount: nat): Accounts
    requires src != dst && Balance(l, src) >= amount
  {
    l[src := Balance(l, src) - amount][dst := Balance(l, dst) + amount]
  }

  /** Pays `amount` and the fee; nothing moves for a zero amount or with too little money. */
  function Pay(l: Accounts, src: Account, dst: Account, amount: nat, fee: nat): Option<Accounts>
    requires src != dst && src != Burned && dst != Burned
  {
    if amount == 0 || Balance(l, src) < amount + fee then None
    else Some(Move(Move(l, src, Burned, fee), src, dst, amount))
  }

  /** An import collects everything in flight to the address and pays the fee out of it. */
  function Collect(l: Accounts, src: Account, dst: Account, fee: nat): Option<Accounts>
    requires src != dst && src != Burned && dst != Burned
  {
    if Balance(l, src) <= fee then None else Pay(l, src, dst, Balance(l, src) - fee, fee)
  }

  function Apply(fees: Fees, l: Accounts, op: Op): Option<Accounts> {
    match op
    case Send(src, dst, amount) =>
      if src == dst then (if amount == 0 || Balance(l, OnX(src)) < amount + fees.transfer then None
                          else Some(Move(l, OnX(src), Burned, fees.transfer)))
      else Pay(l, OnX(src), OnX(dst), amount, fees.transfer)
    case ExportX(src, dst, amount) => Pay(l, OnX(src), ToP(dst), amount, fees.transfer)
    case ImportP(dst) => Collect(l, ToP(dst), OnP(dst), fees.transfer)
    case ExportP(src, dst, amount) => Pay(l, OnP(src), ToX(dst), amount, fees.transfer)
    case ImportX(dst) => Collect(l, ToX(dst), OnX(dst), fees.transfer)
    case AddValidator(src, amount, _, _) => Pay(l, OnP(src), Staked(src), amount, fees.stake)
    case AddDelegator(src, amount, _) => Pay(l, OnP(src), Staked(src), amount, fees.stake)
  }

  // ---- Conservation ----

  lemma SumUpdate(l: Accounts, a: Account, n: nat)
    ensures Sum(l[a := n]) == Sum(l) - Balance(l, a) + n
  {
    SumWithout(l[a := n], a);
    assert l[a := n] - {a} == l - {a};
    if a in l {
      SumWithout(l, a);
    } else {
      assert l - {a} == l;
    }
  }

  lemma MoveConserves(l: Accounts, src: Account, dst: Account, amount: nat)
    requires src != dst && Balance(l, src) >= amount
    ensures Sum(Move(l, src, dst, amount)) == Sum(l)
  {
    SumUpdate(l, src, Balance(l, src) - amount);
    SumUpdate(l[src := Balance(l, src) - amount], dst, Balance(l, dst) + amount);
  }

  lemma PayConserves(l: Accounts, src: Account, dst: Account, amount: nat, fee: nat)
    requires src != dst && src != Burned && dst != Burned && Pay(l, src, dst, amount, fee).Some?
    ensures Sum(Pay(l, src, dst, amount, fee).value) == Sum(l)
  {
    MoveConserves(l, src, Burned, fee);
    MoveConserves(Move(l, src, Burned, fee), src, dst, amount);
  }

  /** No operation makes or loses money. */
  lemma ApplyConserves(fees: Fees, l: Accounts, op: Op)
    requires Apply(fees, l, op).Some?
    ensures Sum(Apply(fees, l, op).value) == Sum(l)
  {
    match op
    case Send(src, dst, amount) =>
      if src == dst {
        MoveConserves(l, OnX(src), Burned, fees.transfer);
      } else {
        PayConserves(l, OnX(src), OnX(dst), amount, fees.transfer);
      }
    case ExportX(src, dst, amount) => PayConserves(l, OnX(src), ToP(dst), amount, fees.transfer);
    case ImportP(dst) => PayConserves(l, ToP(dst), OnP(dst), Balance(l, ToP(dst)) - fees.transfer, fees.transfer);
    case ExportP(src, dst, amount) => PayConserves(l, OnP(src), ToX(dst), amount, fees.transfer);
    case ImportX(dst) => PayConserves(l, ToX(dst), OnX(dst), Balance(l, ToX(dst)) - fees.transfer, fees.transfer);
    case AddValidator(src, amount, _, _) => PayConserves(l, OnP(src), Staked(src), amount, fees.stake);
    case AddDelegator(src, amount, _) => PayConserves(l, OnP(src), Staked(src), amount, fees.stake);
  }
}
