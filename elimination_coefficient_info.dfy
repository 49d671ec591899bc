/// The `elimination_coefficient_info` layer: a coefficient vector holds
/// one element per skipped position and one per symbol decoded; its
/// length (in `value_type`s) and size (in bytes) follow from that count.
module EliminationCoefficientInfo {
  import opened FiniteField

  class CoefficientInfo {
    const field: Field
    /// `m_coefficients_length`, `m_coefficients_size`.
    var length: nat
    var size: nat

    /// The constructor: both zero until `initialize`.
    constructor(field: Field)
      ensures this.field == field && length == 0 && size == 0
    {
      this.field := field;
      length := 0;
      size := 0;
    }

    /// `initialize`: the vector has `symbols + offset` elements, no more
    /// than `max_symbols`; the source asserts that length and size are
    /// positive, so at least one element.
    method Initialize(symbols: nat, offset: nat, maxSymbols: nat)
      requires symbols + offset <= maxSymbols
      requires symbols + offset > 0
      modifies this
      ensures length == ElementsToLength(field, symbols + offset)
      ensures size == ElementsToSize(field, symbols + offset)
      ensures length > 0 && size > 0
      ensures 8 * size >= (symbols + offset) * ElementBits(field)
      ensures 8 * (size - 1) < (symbols + offset) * ElementBits(field)
    {
      SizeIsLeast(field, symbols + offset);
      length := ElementsToLength(field, symbols + offset);
      size := ElementsToSize(field, symbols + offset);
    }

    /// `coefficient_vector_length`.
    function CoefficientVectorLength(): nat
      reads this
      requires length > 0
    {
      length
    }

    /// `coefficient_vector_size`.
    function CoefficientVectorSize(): nat
      reads this
      requires size > 0
    {
      size
    }
  }

  /// The info tests: in the binary field 10 symbols after an offset of 6
  /// take 2 bytes and then 5 symbols take 1; in `binary8` one byte per
  /// element, 16 and then 5.
  method InfoExample() returns (binary: seq<nat>, binary8: seq<nat>)
    ensures binary == [2, 2, 1, 1]
    ensures binary8 == [16, 16, 5, 5]
  {
    var info := new CoefficientInfo(Binary);
    info.Initialize(10, 6, 16);
    var l1, s1 := info.CoefficientVectorLength(), info.CoefficientVectorSize();
    info.Initialize(5, 0, 16);
    binary := [l1, s1, info.CoefficientVectorLength(), info.CoefficientVectorSize()];
    var info8 := new CoefficientInfo(Binary8);
    info8.Initialize(10, 6, 16);
    var l2, s2 := info8.CoefficientVectorLength(), info8.CoefficientVectorSize();
    info8.Initialize(5, 0, 16);
    binary8 := [l2, s2, info8.CoefficientVectorLength(), info8.CoefficientVectorSize()];
  }
}
