/// The `fulcrum_info` layer: a fulcrum code adds `expansion` outer-code
/// symbols to the `symbols` source symbols, so its inner code works on
/// `symbols + expansion` symbols. `MaxExpansion` and `DefaultExpansion`
/// are the layer's template parameters.
module FulcrumInfo {

  class FulcrumFactory {
    const maxSymbols: nat
    const maxSymbolSize: nat
    /// `MaxExpansion`.
    const maxExpansion: nat
    /// `m_max_inner_symbols`.
    const maxInnerSymbols: nat
    /// `m_expansion` of the factory.
    var expansion: nat
    /// The `symbols()` and `symbol_size()` the layers below are set to.
    var symbols: nat
    var symbolSize: nat

    /// The expansion fits the maximum and the symbols fit theirs.
    predicate Valid()
      reads this
    {
      expansion <= maxExpansion && symbols <= maxSymbols && symbolSize <= maxSymbolSize &&
      maxInnerSymbols == maxSymbols + maxExpansion
    }

    /// `factory_base(max_symbols, max_symbol_size)`: the default
    /// expansion; the source asserts there is at least one inner symbol.
    constructor(maxSymbols: nat, maxSymbolSize: nat, maxExpansion: nat, defaultExpansion: nat)
      requires maxSymbols + maxExpansion > 0
      ensures this.maxSymbols == maxSymbols && this.maxSymbolSize == maxSymbolSize
      ensures this.maxExpansion == maxExpansion && expansion == defaultExpansion
      ensures maxInnerSymbols == maxSymbols + maxExpansion && maxInnerSymbols > 0
      ensures symbols == maxSymbols && symbolSize == maxSymbolSize
      ensures defaultExpansion <= maxExpansion ==> Valid()
    {
      this.maxSymbols := maxSymbols;
      this.maxSymbolSize := maxSymbolSize;
      this.maxExpansion := maxExpansion;
      maxInnerSymbols := maxSymbols + maxExpansion;
      expansion := defaultExpansion;
      symbols := maxSymbols;
      symbolSize := maxSymbolSize;
    }

    /// `max_expansion`: always the template parameter.
    function MaxExpansion(): nat
    {
      maxExpansion
    }

    /// `set_expansion`: the source asserts it does not exceed the
    /// maximum.
    method SetExpansion(expansion: nat)
      requires expansion <= maxExpansion
      modifies this
      ensures this.expansion == expansion && symbols == old(symbols) && symbolSize == old(symbolSize)
      ensures old(Valid()) ==> Valid()
    {
      this.expansion := expansion;
    }

    /// `set_symbols` of the layers below: no more than the maximum.
    method SetSymbols(symbols: nat)
      requires symbols <= maxSymbols
      modifies this
      ensures this.symbols == symbols && expansion == old(expansion) && symbolSize == old(symbolSize)
      ensures old(Valid()) ==> Valid()
    {
      this.symbols := symbols;
    }

    /// `set_symbol_size` of the layers below: no more than the maximum.
    method SetSymbolSize(symbolSize: nat)
      requires symbolSize <= maxSymbolSize
      modifies this
      ensures this.symbolSize == symbolSize && expansion == old(expansion) && symbols == old(symbols)
      ensures old(Valid()) ==> Valid()
    {
      this.symbolSize := symbolSize;
    }
  }

  class FulcrumCoder {
    const maxExpansion: nat
    /// `m_expansion`, `m_inner_symbols`.
    var expansion: nat
    var innerSymbols: nat

    constructor(maxExpansion: nat)
      ensures this.maxExpansion == maxExpansion
    {
      this.maxExpansion := maxExpansion;
      expansion := 0;
      innerSymbols := 0;
    }

    /// `initialize`: the factory's expansion, and that many inner
    /// symbols beyond the source symbols, never more than the factory's
    /// maximum inner symbols.
    method Initialize(factory: FulcrumFactory)
      requires factory.Valid()
      modifies this
      ensures expansion == factory.expansion && innerSymbols == expansion + factory.symbols
      ensures innerSymbols <= factory.maxInnerSymbols
    {
      expansion := factory.expansion;
      innerSymbols := expansion + factory.symbols;
    }

    /// `max_expansion`.
    function MaxExpansion(): nat
    {
      maxExpansion
    }

    /// `expansion`.
    function Expansion(): nat
      reads this
    {
      expansion
    }

    /// `inner_symbols`.
    function InnerSymbols(): nat
      reads this
    {
      innerSymbols
    }
  }
}
