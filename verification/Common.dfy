/** Shared vocabulary: optional values and the saturating 64-bit arithmetic the core uses. */
module Common {
  datatype Option<+T> = None | Some(value: T)

  const U64_MAX: nat := 0xFFFF_FFFF_FFFF_FFFF

  type u64 = n: int | 0 <= n <= U64_MAX

  type byte = n: int | 0 <= n < 256

  function Min(a: int, b: int): int { if a < b then a else b }

  function Max(a: int, b: int): int { if a < b then b else a }

  /** Rust's `u64::saturating_add`. */
  function SatAdd(a: u64, b: u64): u64 { if a + b > U64_MAX then U64_MAX else a + b }

  /** Rust's `u64::saturating_sub`. */
  function SatSub(a: u64, b: u64): u64 { if a < b then 0 else a - b }

  /** The smallest key of a non-empty ordered map. */
  ghost function First(keys: set<u64>): (k: u64)
    requires keys != {}
    ensures k in keys && forall x :: x in keys ==> k <= x
  {
    var x :| x in keys;
    if keys == {x} then x else
    var rest := First(keys - {x});
    assert forall z :: z in keys ==> z == x || z in keys - {x};
    if x < rest then x else rest
  }

  /** A quotient with a small enough remainder is the only one. */
  lemma QuotientUnique(d: int, q: int, p: int, r: int, s: int)
    requires 0 <= r < d && 0 <= s < d && d * q + r == d * p + s
    ensures q == p
  {
    if p < q { ScaledGap(d, q - p); }
    if q < p { ScaledGap(d, p - q); }
  }

  lemma ScaledGap(d: int, k: int)
    requires d > 0 && k > 0
    ensures d * k >= d
  {
  }
}
