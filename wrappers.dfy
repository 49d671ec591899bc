/// Small shared datatypes: an optional value, and the byte and bit types
/// used by every buffer in the model.
module Wrappers {

  /// A value that may be absent (Python's None, C++'s null pointer,
  /// an empty lookup).
  datatype Option<T> = None | Some(value: T)

  /// An unsigned 8-bit byte, as stored in every kodo buffer.
  type Byte = bv8

  /// The largest value a C++ uint32_t holds, plus one.
  const UINT32_LIMIT: int := 0x1_0000_0000

  predicate IsUint32(x: int)
  {
    0 <= x < UINT32_LIMIT
  }

  function Min(a: int, b: int): (r: int)
    ensures r <= a && r <= b
    ensures r == a || r == b
  {
    if a < b then a else b
  }

  function Max(a: int, b: int): (r: int)
    ensures r >= a && r >= b
    ensures r == a || r == b
  {
    if a < b then b else a
  }

  /// Number of true entries of a flag vector.
  function Count(bits: seq<bool>): (n: nat)
    ensures n <= |bits|
  {
    if bits == [] then 0 else (if bits[0] then 1 else 0) + Count(bits[1..])
  }

  lemma {:induction false} CountAppend(a: seq<bool>, b: seq<bool>)
    ensures Count(a + b) == Count(a) + Count(b)
  {
    if a == [] {
      assert a + b == b;
    } else {
      assert (a + b)[1..] == a[1..] + b;
      CountAppend(a[1..], b);
    }
  }

  /// Setting one false flag to true raises the count by exactly one.
  lemma {:induction false} CountSetTrue(bits: seq<bool>, i: nat)
    requires i < |bits| && !bits[i]
    ensures Count(bits[i := true]) == Count(bits) + 1
  {
    if i == 0 {
      assert bits[i := true][1..] == bits[1..];
    } else {
      assert bits[i := true][1..] == bits[1..][i - 1 := true];
      CountSetTrue(bits[1..], i - 1);
    }
  }

  /// Setting one true flag to false lowers the count by exactly one.
  lemma {:induction false} CountSetFalse(bits: seq<bool>, i: nat)
    requires i < |bits| && bits[i]
    ensures Count(bits[i := false]) + 1 == Count(bits)
  {
    if i == 0 {
      assert bits[i := false][1..] == bits[1..];
    } else {
      assert bits[i := false][1..] == bits[1..][i - 1 := false];
      CountSetFalse(bits[1..], i - 1);
    }
  }

  /// All flags set: the count is the length.
  lemma {:induction false} CountAllTrue(bits: seq<bool>)
    requires forall i :: 0 <= i < |bits| ==> bits[i]
    ensures Count(bits) == |bits|
  {
    if bits != [] {
      CountAllTrue(bits[1..]);
    }
  }

  /// No flag set: the count is zero.
  lemma {:induction false} CountAllFalse(bits: seq<bool>)
    requires forall i :: 0 <= i < |bits| ==> !bits[i]
    ensures Count(bits) == 0
  {
    if bits != [] {
      CountAllFalse(bits[1..]);
    }
  }

  /// A count equal to the length means every flag is set.
  lemma {:induction false} CountFullMeansAll(bits: seq<bool>, i: nat)
    requires Count(bits) == |bits| && i < |bits|
    ensures bits[i]
  {
    if i > 0 {
      CountFullMeansAll(bits[1..], i - 1);
    }
  }

  /// The count of a flag vector equals its length exactly when every
  /// flag is set.
  lemma CountFull(flags: seq<bool>)
    ensures Count(flags) == |flags| <==> forall i :: 0 <= i < |flags| ==> flags[i]
  {
    if Count(flags) == |flags| {
      forall i | 0 <= i < |flags|
        ensures flags[i]
      {
        CountFullMeansAll(flags, i);
      }
    }
    if forall i :: 0 <= i < |flags| ==> flags[i] {
      CountAllTrue(flags);
    }
  }

  function Repeat<T>(x: T, n: nat): (r: seq<T>)
    ensures |r| == n && forall i :: 0 <= i < n ==> r[i] == x
  {
    seq(n, _ => x)
  }

  /// The all-zero vector of `n` elements.
  function Zeros(n: nat): (r: seq<nat>)
    ensures |r| == n && forall j :: 0 <= j < n ==> r[j] == 0
  {
    seq(n, _ => 0)
  }

  /// A flag vector contained in another has no larger count.
  lemma {:induction false} CountSubset(a: seq<bool>, b: seq<bool>)
    requires |a| == |b| && forall k :: 0 <= k < |a| && a[k] ==> b[k]
    ensures Count(a) <= Count(b)
  {
    if a != [] {
      CountSubset(a[1..], b[1..]);
    }
  }

  /// Multiplication by a natural number is monotone.
  lemma MulMonotone(b: nat, x: nat, y: nat)
    requires x <= y
    ensures b * x <= b * y
  {
    assert b * y == b * x + b * (y - x);
  }

  /// Multiplying by a positive factor keeps the order both ways.
  lemma MulOrder(b: nat, x: nat, y: nat)
    requires b > 0
    ensures b * x <= b * y <==> x <= y
  {
    if x <= y {
      MulMonotone(b, x, y);
    } else {
      MulMonotone(b, y + 1, x);
    }
  }
}
