/// The `forward_coefficient_iterator` layer: an iterator over a coding
/// coefficient vector from a start index up to and including a stop
/// index, front to back.
module ForwardCoefficientIterator {
  import opened Wrappers

  /// The nested `iterator`.
  class CoefficientIterator {
    /// The vector's elements (`m_coefficients`).
    const coefficients: seq<nat>
    /// `m_start_index`, `m_stop_index`, `m_offset`.
    const start: nat
    const stop: nat
    var offset: nat

    /// The constructor: the source asserts `start <= stop`.
    constructor(coefficients: seq<nat>, start: nat, stop: nat)
      requires start <= stop
      ensures this.coefficients == coefficients && this.start == start && this.stop == stop
      ensures offset == 0 && Index() == start && !AtEnd()
    {
      this.coefficients := coefficients;
      this.start := start;
      this.stop := stop;
      offset := 0;
    }

    /// `at_end`: the index has passed the stop index.
    predicate AtEnd()
      reads this
    {
      start + offset > stop
    }

    /// `index`.
    function Index(): nat
      reads this
    {
      start + offset
    }

    /// `value`: the element at the current index.
    function Value(): nat
      reads this
      requires Index() < |coefficients|
    {
      coefficients[Index()]
    }

    /// `advance`: the source asserts the iterator is not at its end.
    method Advance()
      requires !AtEnd()
      modifies this
      ensures Index() == old(Index()) + 1
      ensures AtEnd() <==> old(Index()) == stop
    {
      offset := offset + 1;
    }
  }

  /// `max_index`: forward, the larger index is the later one.
  function MaxIndex(a: nat, b: nat): (r: nat)
    ensures r >= a && r >= b && (r == a || r == b)
  {
    Max(a, b)
  }

  /// `min_index`: forward, the smaller index is the earlier one.
  function MinIndex(a: nat, b: nat): (r: nat)
    ensures r <= a && r <= b && (r == a || r == b)
  {
    Min(a, b)
  }

  /// Running an iterator to its end visits every index from the start
  /// to the stop index once, in increasing order, and reads the element
  /// there.
  method Visit(it: CoefficientIterator) returns (indices: seq<nat>, values: seq<nat>)
    requires it.offset == 0 && it.start <= it.stop < |it.coefficients|
    modifies it
    ensures it.AtEnd()
    ensures |indices| == |values| == it.stop - it.start + 1
    ensures forall k :: 0 <= k < |indices| ==> indices[k] == it.start + k
    ensures forall k :: 0 <= k < |values| ==> values[k] == it.coefficients[it.start + k]
  {
    indices := [];
    values := [];
    while !it.AtEnd()
      invariant it.offset <= it.stop - it.start + 1
      invariant |indices| == |values| == it.offset
      invariant forall k :: 0 <= k < |indices| ==> indices[k] == it.start + k
      invariant forall k :: 0 <= k < |values| ==> values[k] == it.coefficients[it.start + k]
      decreases it.stop + 1 - it.Index()
    {
      indices := indices + [it.Index()];
      values := values + [it.Value()];
      it.Advance();
    }
  }

  /// The bounds `coefficient_iterator(coefficients)` passes to the
  /// iterator as written: start `symbols`, stop 0.
  function WholeVectorBoundsAsWritten(symbols: nat): (nat, nat)
  {
    (symbols, 0)
  }

  /// The bounds `coefficient_iterator(coefficients, start_index)` passes
  /// as written: start `symbols`, stop `start_index`.
  function FromIndexBoundsAsWritten(symbols: nat, startIndex: nat): (nat, nat)
  {
    (symbols, startIndex)
  }

  /// As written, either factory breaks the iterator's own assertion
  /// `start <= stop` for every vector with symbols: the source asserts
  /// `start_index < symbols`, so the stop is always below the start.
  lemma {:induction false} BoundsAsWrittenAreReversed(symbols: nat, startIndex: nat)
    requires startIndex < symbols
    ensures WholeVectorBoundsAsWritten(symbols).0 > WholeVectorBoundsAsWritten(symbols).1
    ensures FromIndexBoundsAsWritten(symbols, startIndex).0 > FromIndexBoundsAsWritten(symbols, startIndex).1
  {
  }

  /// `coefficient_iterator(coefficients)` as intended: the indices
  /// `0 .. symbols - 1` of the vector.
  method WholeVectorIterator(coefficients: seq<nat>, symbols: nat) returns (it: CoefficientIterator)
    requires 0 < symbols <= |coefficients|
    ensures fresh(it) && it.coefficients == coefficients
    ensures it.start == 0 && it.stop == symbols - 1 && it.offset == 0
  {
    it := new CoefficientIterator(coefficients, 0, symbols - 1);
  }

  /// `coefficient_iterator(coefficients, start_index)` as intended: the
  /// indices `start_index .. symbols - 1`; the source asserts
  /// `start_index < symbols`.
  method FromIndexIterator(coefficients: seq<nat>, symbols: nat, startIndex: nat) returns (it: CoefficientIterator)
    requires startIndex < symbols <= |coefficients|
    ensures fresh(it) && it.coefficients == coefficients
    ensures it.start == startIndex && it.stop == symbols - 1 && it.offset == 0
  {
    it := new CoefficientIterator(coefficients, startIndex, symbols - 1);
  }

  /// With ten symbols, the intended whole-vector iterator visits all ten
  /// indices, while the bounds as written are (10, 0), which the
  /// iterator's constructor rejects.
  method TenSymbolExample() returns (visited: seq<nat>, asWritten: (nat, nat))
    ensures visited == [0, 1, 2, 3, 4, 5, 6, 7, 8, 9]
    ensures asWritten == (10, 0) && asWritten.0 > asWritten.1
  {
    var coefficients := Repeat(1, 10);
    var it := WholeVectorIterator(coefficients, 10);
    var values;
    visited, values := Visit(it);
    asWritten := WholeVectorBoundsAsWritten(10);
  }
}
