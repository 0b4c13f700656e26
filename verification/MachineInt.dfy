/** Go's uint64: values below 2^64, with arithmetic that wraps around. */
module MachineInt {
  const TWO64: int := 0x1_0000_0000_0000_0000

  type u64 = x: int | 0 <= x < 0x1_0000_0000_0000_0000

  /** The uint64 a mathematical integer wraps to. */
  function Wrap(x: int): u64 {
    x % 0x1_0000_0000_0000_0000
  }

  /** Wrapping early or late makes no difference: a run of wrapped subtractions is one wrapped difference. */
  lemma WrapSub(a: int, b: int)
    ensures Wrap(Wrap(a) - b) == Wrap(a - b)
  {
  }

  lemma WrapUnique(x: int, q: int, r: u64)
    requires x == q * TWO64 + r
    ensures Wrap(x) == r
  {
  }
}
