/// The finite fields a coding stack works in, as far as the model needs
/// them: how many bits an element takes, how elements are packed into the
/// field's `value_type`, the largest element, and field addition. The
/// field arithmetic library itself is not part of this model.
module FiniteField {

  /// `fifi::binary`, `fifi::binary8`, `fifi::binary16`, `fifi::prime2325`.
  datatype Field = Binary | Binary8 | Binary16 | Prime2325

  /// The prime of `prime2325`: 2^32 - 5.
  const PRIME2325: nat := 0xFFFF_FFFB

  /// Bits of one element.
  function ElementBits(f: Field): nat
  {
    match f
    case Binary => 1
    case Binary8 => 8
    case Binary16 => 16
    case Prime2325 => 32
  }

  /// Bytes of one `value_type`.
  function ValueBytes(f: Field): nat
  {
    match f
    case Binary => 1
    case Binary8 => 1
    case Binary16 => 2
    case Prime2325 => 4
  }

  /// `field_type::max_value`: the largest element.
  function MaxValue(f: Field): nat
  {
    match f
    case Binary => 1
    case Binary8 => 0xFF
    case Binary16 => 0xFFFF
    case Prime2325 => PRIME2325 - 1
  }

  /// `elements_to_length`: the `value_type`s holding `n` elements; the
  /// binary field packs eight elements into each byte.
  function ElementsToLength(f: Field, n: nat): nat
  {
    if f == Binary then (n + 7) / 8 else n
  }

  /// `elements_to_size`: the bytes holding `n` elements.
  function ElementsToSize(f: Field, n: nat): nat
  {
    ElementsToLength(f, n) * ValueBytes(f)
  }

  /// The size is the least number of whole bytes holding `n` elements,
  /// and it is positive exactly when `n` is.
  lemma SizeIsLeast(f: Field, n: nat)
    ensures 8 * ElementsToSize(f, n) >= n * ElementBits(f)
    ensures ElementsToSize(f, n) > 0 ==> 8 * (ElementsToSize(f, n) - 1) < n * ElementBits(f)
    ensures ElementsToSize(f, n) > 0 <==> n > 0
    ensures ElementsToLength(f, n) > 0 <==> n > 0
  {
  }

  /// `2^k`.
  function Pow2(k: nat): nat
  {
    if k == 0 then 1 else 2 * Pow2(k - 1)
  }

  /// Bitwise exclusive or of two naturals, lowest bit first.
  function Xor(a: nat, b: nat): nat
    decreases a + b
  {
    if a == 0 then b
    else if b == 0 then a
    else 2 * Xor(a / 2, b / 2) + (if a % 2 == b % 2 then 0 else 1)
  }

  /// Exclusive or of two `k`-bit values is a `k`-bit value.
  lemma {:induction false} XorBelow(a: nat, b: nat, k: nat)
    requires a < Pow2(k) && b < Pow2(k)
    ensures Xor(a, b) < Pow2(k)
    decreases k
  {
    if a != 0 && b != 0 {
      XorBelow(a / 2, b / 2, k - 1);
    }
  }

  /// Exclusive or is commutative.
  lemma {:induction false} XorCommutes(a: nat, b: nat)
    ensures Xor(a, b) == Xor(b, a)
    decreases a + b
  {
    if a != 0 && b != 0 {
      XorCommutes(a / 2, b / 2);
    }
  }

  /// Field addition: bitwise exclusive or in the binary fields, addition
  /// modulo the prime in `prime2325`.
  function Add(f: Field, a: nat, b: nat): (r: nat)
    requires a <= MaxValue(f) && b <= MaxValue(f)
    ensures r <= MaxValue(f)
  {
    match f
    case Prime2325 => (a + b) % PRIME2325
    case Binary => if a == b then 0 else 1
    case Binary8 => XorBelow(a, b, 8); Xor(a, b)
    case Binary16 => XorBelow(a, b, 16); Xor(a, b)
  }

  /// Zero is the neutral element of addition.
  lemma AddZero(f: Field, a: nat)
    requires a <= MaxValue(f)
    ensures Add(f, 0, a) == a && Add(f, a, 0) == a
  {
  }

  /// Addition is commutative.
  lemma AddCommutes(f: Field, a: nat, b: nat)
    requires a <= MaxValue(f) && b <= MaxValue(f)
    ensures Add(f, a, b) == Add(f, b, a)
  {
    XorCommutes(a, b);
  }
}
