/** Shared vocabulary of the three contracts: optional values, account owners,
    chain identifiers and the saturating arithmetic on amounts and counters. */
module Common {

  datatype Option<T> = None | Some(value: T)

  /** An account owner. `Reserved(n)` is the runtime's reserved owner with tag n
      (the defaults of the dice records use them as placeholders); every real
      account is an `Address`. */
  datatype Owner = Reserved(tag: nat) | Address(id: nat)

  /** A chain identifier. */
  type ChainId = nat

  /** `Amount` is a count of attos held in an unsigned 128-bit integer. */
  const AMOUNT_MAX: nat := 0xFFFF_FFFF_FFFF_FFFF_FFFF_FFFF_FFFF_FFFF

  /** Largest `u32`. */
  const U32_MAX: nat := 0xFFFF_FFFF

  /** `saturating_add` on an unsigned integer whose largest value is `max`. */
  function SaturatingAdd(a: nat, b: nat, max: nat): (r: nat)
    ensures r <= max || r == a + b
    ensures a + b <= max ==> r == a + b
    ensures a + b > max ==> r == max
  {
    if a + b <= max then a + b else max
  }

  /** `saturating_sub` on an unsigned integer: never below zero. */
  function SaturatingSub(a: nat, b: nat): (r: nat)
    ensures r <= a
    ensures b <= a ==> r + b == a
    ensures b >= a ==> r == 0
  {
    if b <= a then a - b else 0
  }

  function Max(a: int, b: int): int { if a >= b then a else b }

  function Min(a: int, b: int): int { if a <= b then a else b }

  /** The sum of a sequence (`iter().sum()`). */
  function Sum(s: seq<nat>): nat
  {
    if s == [] then 0 else Sum(s[..|s| - 1]) + s[|s| - 1]
  }
}
