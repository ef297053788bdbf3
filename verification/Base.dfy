/** Types and arithmetic shared by every module: optional values, error results, byte strings
    with Go's `bytes.Compare` order, and the fixed-width conversions the node relies on. */
module Base {

  datatype Option<+T> = None | Some(value: T)

  datatype Result<+T, +E> = Success(value: T) | Failure(error: E) {
    predicate IsFailure() { Failure? }
    function PropagateFailure<U>(): Result<U, E> requires Failure? { Failure(error) }
    function Extract(): T requires Success? { value }
  }

  newtype Byte = x: int | 0 <= x < 256

  type Bytes = seq<Byte>

  /** A 20-byte address, read as a big-endian number. */
  type Address = nat

  /** A 32-byte transaction hash, read as a big-endian number. */
  type Hash = nat

  const AMOUNT_PER_POWER: nat := 1_000_000_000_000_000_000
  const TWO63: nat := 0x8000_0000_0000_0000
  const TWO64: nat := 0x1_0000_0000_0000_0000
  const TWO191: nat := 0x8000000000000000_0000000000000000_0000000000000000
  const TWO255: nat := 0x8000000000000000_0000000000000000_0000000000000000_0000000000000000
  const TWO256: nat := 0x1_0000000000000000_0000000000000000_0000000000000000_0000000000000000

  /** The amount that one unit of voting power is worth, times `power`. */
  function PowerToAmount(power: int): int { power * AMOUNT_PER_POWER }

  /** Go's conversion of an unsigned 64-bit word to int64. */
  function ToInt64(u: nat): int
    requires u < TWO64
  {
    if u < TWO63 then u else u - TWO64
  }

  /** int64 arithmetic: the sum or product `x`, reduced to 64 bits. */
  function Wrap64(x: int): (r: int)
    ensures -(TWO63 as int) <= x < TWO63 ==> r == x
  {
    ToInt64(x % TWO64)
  }

  /** Go's conversion to int32. */
  function Wrap32(x: int): (r: int)
    ensures -0x8000_0000 <= x < 0x8000_0000 ==> r == x
  {
    (x + 0x8000_0000) % 0x1_0000_0000 - 0x8000_0000
  }

  function Add64(a: int, b: int): int { Wrap64(a + b) }

  /** Go's integer division, which truncates toward zero. */
  function GoDiv(a: int, b: int): int
    requires b != 0
  {
    if a >= 0 then a / b else -((-a) / b)
  }

  /** A percentage computed in int64: the product is reduced before it is divided. */
  function Percent64(x: int, rate: int): int { GoDiv(Wrap64(x * rate), 100) }

  /** For a non-negative product the percentage is right if and only if the product fits int64. */
  lemma PercentExactIff(x: int, rate: int)
    requires x * rate >= 0
    ensures Percent64(x, rate) == x * rate / 100 <==> x * rate < TWO63
  {
    WrappedQuotient(x * rate);
  }

  lemma WrappedQuotient(p: nat)
    ensures GoDiv(Wrap64(p), 100) == p / 100 <==> p < TWO63
  {
  }

  lemma PercentWithin(x: int, rate: int)
    requires 0 <= x && 100 * x < TWO63 && 0 <= rate <= 100
    ensures 0 <= Percent64(x, rate) == x * rate / 100 <= x
  {
    hide Percent64;
    PartOf(x, rate);
    PercentExactIff(x, rate);
  }

  lemma PartOf(x: int, rate: int)
    requires 0 <= x && 0 <= rate <= 100
    ensures 0 <= x * rate <= x * 100 && 0 <= x * rate / 100 <= x
  {
    RateWithin(x, rate);
    Hundredth(x * rate, x);
  }

  lemma RateWithin(x: int, rate: int)
    requires 0 <= x && 0 <= rate <= 100
    ensures 0 <= x * rate <= x * 100
  {
    var rest := 100 - rate;
    assert x * rest >= 0 && x * 100 == x * rate + x * rest;
  }

  lemma Hundredth(p: int, x: int)
    requires 0 <= p <= x * 100
    ensures 0 <= p / 100 <= x
  {
  }

  /** A power of 2^60 at a rate of 10 percent: the product becomes negative. */
  lemma PercentWraps()
    ensures Percent64(0x1000_0000_0000_0000, 10) < 0
  {
  }

  // ----- uint256 arithmetic

  function Add256(a: nat, b: nat): nat { (a + b) % TWO256 }

  function Sub256(a: nat, b: nat): nat { (a - b) % TWO256 }

  function Mul256(a: nat, b: nat): nat { (a * b) % TWO256 }

  /** uint256's `Sign() < 0`: the top bit is set. */
  predicate Negative(a: nat) { a % TWO256 >= TWO255 }

  function Lookup<K, V>(m: map<K, V>, k: K): Option<V> { if k in m then Some(m[k]) else None }

  lemma SameLookups<K(!new), V>(a: map<K, V>, b: map<K, V>)
    requires forall k :: Lookup(a, k) == Lookup(b, k)
    ensures a == b
  {
    forall k ensures k in a <==> k in b { assert Lookup(a, k) == Lookup(b, k); }
    forall k | k in a ensures a[k] == b[k] { assert Lookup(a, k) == Lookup(b, k); }
  }

  /** `bytes.Compare`: lexicographic, shorter first on a common prefix. */
  function Compare(a: Bytes, b: Bytes): int {
    if a == [] then (if b == [] then 0 else -1)
    else if b == [] then 1
    else if a[0] < b[0] then -1
    else if a[0] > b[0] then 1
    else Compare(a[1..], b[1..])
  }

  lemma {:induction false} CompareIsZeroIffEqual(a: Bytes, b: Bytes)
    ensures Compare(a, b) == 0 <==> a == b
  {
    if a != [] && b != [] && a[0] == b[0] {
      CompareIsZeroIffEqual(a[1..], b[1..]);
      assert a == [a[0]] + a[1..] && b == [b[0]] + b[1..];
    }
  }

  lemma {:induction false} CompareIsAntisymmetric(a: Bytes, b: Bytes)
    ensures Compare(a, b) == -Compare(b, a)
  {
    if a != [] && b != [] && a[0] == b[0] {
      CompareIsAntisymmetric(a[1..], b[1..]);
    }
  }

  lemma {:induction false} CompareIsTransitive(a: Bytes, b: Bytes, c: Bytes)
    requires Compare(a, b) < 0 && Compare(b, c) < 0
    ensures Compare(a, c) < 0
  {
    if a != [] && b != [] && c != [] && a[0] == b[0] == c[0] {
      CompareIsTransitive(a[1..], b[1..], c[1..]);
    }
  }
}
