/// The `elimination_coefficient_value_access` layer: a decoder working on
/// `symbols` elements after an elimination offset sees index `i` of its
/// vector at element `i + offset` of the whole coefficient vector.
module EliminationCoefficientValueAccess {

  /// The element of the whole vector that index `index` addresses.
  function ElementIndex(offset: nat, index: nat): nat
  {
    index + offset
  }

  /// `coefficient_value`: the source asserts `index < symbols`; the whole
  /// vector holds the `offset + symbols` elements.
  function CoefficientValue(coefficients: seq<nat>, symbols: nat, offset: nat, index: nat): nat
    requires index < symbols && offset + symbols <= |coefficients|
  {
    coefficients[ElementIndex(offset, index)]
  }

  /// `set_coefficient_value`: writes the element at `index + offset` and
  /// nothing else, so the skipped elements keep their values and reading
  /// the same index back gives the value written.
  method SetCoefficientValue(coefficients: array<nat>, symbols: nat, offset: nat, index: nat, value: nat)
    requires index < symbols && offset + symbols <= coefficients.Length
    modifies coefficients
    ensures coefficients[..] == old(coefficients[..])[ElementIndex(offset, index) := value]
    ensures CoefficientValue(coefficients[..], symbols, offset, index) == value
    ensures View(coefficients[..], symbols, offset) == View(old(coefficients[..]), symbols, offset)[index := value]
    ensures forall p :: 0 <= p < offset ==> coefficients[p] == old(coefficients[p])
    ensures forall j :: 0 <= j < symbols && j != index ==>
      CoefficientValue(coefficients[..], symbols, offset, j) == CoefficientValue(old(coefficients[..]), symbols, offset, j)
  {
    coefficients[ElementIndex(offset, index)] := value;
  }

  /// The vector as the layer sees it, index by index: exactly the
  /// `symbols` elements after the offset of the whole vector.
  function View(coefficients: seq<nat>, symbols: nat, offset: nat): (v: seq<nat>)
    requires offset + symbols <= |coefficients|
    ensures v == coefficients[offset..offset + symbols]
  {
    seq(symbols, i requires 0 <= i < symbols => CoefficientValue(coefficients, symbols, offset, i))
  }

  /// The value access test: with 10 symbols after an offset of 2, index
  /// 4 reads and writes element 6.
  lemma ValueAccessExample()
    ensures ElementIndex(2, 4) == 6
    ensures CoefficientValue([0, 0, 0, 0, 0, 0, 5, 0, 0, 0, 0, 0], 10, 2, 4) == 5
  {
  }
}
