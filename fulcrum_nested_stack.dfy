/// The older `fulcrum_nested_stack_info`, which computes the nested
/// stack's parameters on demand: the nested (inner) code works on the
/// source symbols plus the expansion, with the same symbol size.
module FulcrumNestedStack {
  import FulcrumInfo

  /// Factory `nested_max_symbols`.
  function NestedMaxSymbols(maxSymbols: nat, maxExpansion: nat): nat
  {
    maxSymbols + maxExpansion
  }

  /// Factory `nested_max_symbol_size`.
  function NestedMaxSymbolSize(maxSymbolSize: nat): nat
  {
    maxSymbolSize
  }

  /// `nested_symbols`.
  function NestedSymbols(symbols: nat, expansion: nat): nat
  {
    symbols + expansion
  }

  /// `nested_symbol_size`.
  function NestedSymbolSize(symbolSize: nat): nat
  {
    symbolSize
  }

  /// Over a fulcrum coder initialized from its factory, the nested
  /// stack's maximum is the factory's maximal inner symbols, its symbols
  /// are the coder's inner symbols and fit that maximum, and its symbol
  /// size fits the factory's maximal symbol size.
  lemma NestedFits(factory: FulcrumInfo.FulcrumFactory, coder: FulcrumInfo.FulcrumCoder)
    requires factory.Valid()
    requires coder.expansion == factory.expansion && coder.innerSymbols == coder.expansion + factory.symbols
    ensures NestedMaxSymbols(factory.maxSymbols, factory.MaxExpansion()) == factory.maxInnerSymbols
    ensures NestedSymbols(factory.symbols, coder.Expansion()) == coder.InnerSymbols()
    ensures coder.InnerSymbols() <= NestedMaxSymbols(factory.maxSymbols, factory.MaxExpansion())
    ensures NestedSymbolSize(factory.symbolSize) <= NestedMaxSymbolSize(factory.maxSymbolSize)
  {
  }
}
