/// The `elimination_coefficient_offset` layer: a decoder that eliminates
/// only part of a coefficient vector skips its first `offset` elements;
/// the factory holds the offset to use and every `initialize` copies it.
module EliminationCoefficientOffset {

  class OffsetFactory {
    const maxSymbols: nat
    /// `m_offset` of the factory.
    var offset: nat

    /// `factory_base(max_symbols, max_symbol_size)`: no offset.
    constructor(maxSymbols: nat)
      ensures this.maxSymbols == maxSymbols && offset == 0
    {
      this.maxSymbols := maxSymbols;
      offset := 0;
    }

    /// `set_elimination_offset`: the offset must leave at least one
    /// element of a maximal vector.
    method SetEliminationOffset(offset: nat)
      requires offset < maxSymbols
      modifies this
      ensures this.offset == offset
    {
      this.offset := offset;
    }
  }

  class EliminationOffset {
    /// `m_offset` of the coder.
    var offset: nat

    /// The constructor: no offset.
    constructor()
      ensures offset == 0
    {
      offset := 0;
    }

    /// `initialize`: the coder takes the factory's offset; the offset and
    /// the symbols to decode together fit in a maximal vector.
    method Initialize(factory: OffsetFactory, symbols: nat)
      requires factory.offset + symbols <= factory.maxSymbols
      modifies this
      ensures offset == factory.offset
      ensures offset + symbols <= factory.maxSymbols
    {
      offset := factory.offset;
    }

    /// `elimination_offset`.
    function EliminationOffset(): nat
      reads this
    {
      offset
    }
  }

  /// The offset test: the factory starts without an offset, and each
  /// `initialize` takes the offset set at that time.
  method OffsetExample() returns (first: nat, second: nat, factoryOffset: nat)
    ensures first == 6 && second == 0 && factoryOffset == 0
  {
    var factory := new OffsetFactory(18);
    assert factory.offset == 0;
    factory.SetEliminationOffset(6);
    var stack := new EliminationOffset();
    stack.Initialize(factory, 10);
    first := stack.EliminationOffset();
    factory.SetEliminationOffset(0);
    stack.Initialize(factory, 10);
    second := stack.EliminationOffset();
    factoryOffset := factory.offset;
  }
}
