/// The `fulcrum_nested_stack_info` layer: it stores the nested stack's
/// symbols and symbol size at `initialize`, where the older layer of the
/// same name computes them on demand; both give the same values.
module FulcrumNestedStackInfo {
  import FulcrumNestedStack

  class NestedInfoFactory {
    /// `m_max_nested_symbols`, `m_max_nested_symbol_size`.
    const nestedMaxSymbols: nat
    const nestedMaxSymbolSize: nat

    /// `factory_base(max_symbols, max_symbol_size)`: the source asserts
    /// both maxima are positive.
    constructor(maxSymbols: nat, maxSymbolSize: nat, maxExpansion: nat)
      requires maxSymbols + maxExpansion > 0 && maxSymbolSize > 0
      ensures nestedMaxSymbols == FulcrumNestedStack.NestedMaxSymbols(maxSymbols, maxExpansion)
      ensures nestedMaxSymbolSize == FulcrumNestedStack.NestedMaxSymbolSize(maxSymbolSize)
      ensures nestedMaxSymbols > 0 && nestedMaxSymbolSize > 0
    {
      nestedMaxSymbols := maxSymbols + maxExpansion;
      nestedMaxSymbolSize := maxSymbolSize;
    }
  }

  class NestedInfo {
    /// `m_nested_symbols`, `m_nested_symbol_size`.
    var nestedSymbols: nat
    var nestedSymbolSize: nat

    constructor()
    {
      nestedSymbols := 0;
      nestedSymbolSize := 0;
    }

    /// `initialize`: the factory's symbols plus expansion, and its symbol
    /// size; the source asserts both are positive.
    method Initialize(symbols: nat, expansion: nat, symbolSize: nat)
      requires symbols + expansion > 0 && symbolSize > 0
      modifies this
      ensures nestedSymbols == FulcrumNestedStack.NestedSymbols(symbols, expansion)
      ensures nestedSymbolSize == FulcrumNestedStack.NestedSymbolSize(symbolSize)
      ensures nestedSymbols > 0 && nestedSymbolSize > 0
    {
      nestedSymbols := symbols + expansion;
      nestedSymbolSize := symbolSize;
    }

    /// `nested_symbols`.
    function NestedSymbols(): nat
      reads this
    {
      nestedSymbols
    }

    /// `nested_symbol_size`.
    function NestedSymbolSize(): nat
      reads this
    {
      nestedSymbolSize
    }
  }

  /// The nested-info test: ten symbols of ten bytes, expansion four;
  /// the nested stack has fourteen symbols of ten bytes.
  method NestedInfoExample() returns (symbols: nat, symbolSize: nat)
    ensures symbols == 14 && symbolSize == 10
  {
    var info := new NestedInfo();
    info.Initialize(10, 4, 10);
    symbols := info.NestedSymbols();
    symbolSize := info.NestedSymbolSize();
  }
}
