/// The `systematic_precoder` layer of the fulcrum encoder: the nested
/// (inner) encoder's first `symbols` symbols are the source symbols
/// themselves, and each of the `expansion` symbols after them is an outer
/// code symbol, encoded from the source symbols with the coefficients the
/// mapper gives that inner index.
module SystematicPrecoder {
  import opened Wrappers
  import opened FiniteField
  import opened SystematicCoefficientMapper
  import opened FulcrumExpansionStorage

  class Precoder {
    const maxExpansion: nat
    const maxSymbolSize: nat
    /// `m_expansion_symbols`: the encoded expansion symbols.
    var expansionSymbols: seq<seq<Byte>>

    /// `construct`: `max_expansion` buffers of `max_symbol_size` bytes.
    constructor(maxExpansion: nat, maxSymbolSize: nat)
      ensures this.maxExpansion == maxExpansion && this.maxSymbolSize == maxSymbolSize
      ensures |expansionSymbols| == maxExpansion
      ensures forall j :: 0 <= j < maxExpansion ==> |expansionSymbols[j]| == maxSymbolSize
    {
      this.maxExpansion := maxExpansion;
      this.maxSymbolSize := maxSymbolSize;
      expansionSymbols := Repeat(Repeat(0, maxSymbolSize), maxExpansion);
    }

    /// `precode`, given whether the outer encoder's symbols are set and
    /// its `encode_symbol`, here a function from an outer coefficient
    /// vector to the symbol it encodes. The source asserts the nested
    /// encoder has the coder's symbol size and inner symbols and no
    /// symbols yet, and that the outer symbols are set; setting an inner
    /// symbol needs its index below the nested encoder's symbols.
    method Precode(nested: NestedCoder, mapper: CoefficientMapper, symbolSize: nat,
                   outerInitialized: bool, encode: seq<nat> -> seq<Byte>)
      requires nested.Valid() && mapper.Valid() && nested.symbolSize == symbolSize
      requires !nested.IsSymbolsInitialized() && outerInitialized
      requires nested.symbols == mapper.symbols + mapper.expansion
      requires mapper.expansion <= |expansionSymbols|
      modifies this, nested
      ensures nested.Valid() && nested.IsSymbolsInitialized()
      ensures forall i :: 0 <= i < nested.symbols ==> nested.storage[i] == Some(InnerSource(mapper.symbols, i))
      ensures nested.setSymbolCalls == old(nested.setSymbolCalls) + Indices(nested.symbols)
      ensures |expansionSymbols| == |old(expansionSymbols)|
      ensures forall j :: 0 <= j < mapper.expansion ==> expansionSymbols[j] == encode(mapper.lookup[j])
      ensures forall j :: mapper.expansion <= j < |expansionSymbols| ==> expansionSymbols[j] == old(expansionSymbols[j])
    {
      var symbols := mapper.symbols;
      var i := 0;
      while i < symbols
        invariant 0 <= i <= symbols && nested.Valid()
        invariant nested.setSymbolCalls == old(nested.setSymbolCalls) + Indices(i)
        invariant forall k :: 0 <= k < i ==> nested.storage[k] == Some(InnerSource(symbols, k))
        invariant expansionSymbols == old(expansionSymbols)
      {
        nested.SetSymbol(i, OuterSymbol(i));
        i := i + 1;
      }
      var j := 0;
      while j < mapper.expansion
        invariant 0 <= j <= mapper.expansion && nested.Valid() && i == symbols + j
        invariant nested.setSymbolCalls == old(nested.setSymbolCalls) + Indices(i)
        invariant forall k :: 0 <= k < i ==> nested.storage[k] == Some(InnerSource(symbols, k))
        invariant |expansionSymbols| == |old(expansionSymbols)|
        invariant forall k :: 0 <= k < j ==> expansionSymbols[k] == encode(mapper.lookup[k])
        invariant forall k :: j <= k < |expansionSymbols| ==> expansionSymbols[k] == old(expansionSymbols[k])
      {
        var coefficients := mapper.MapSymbolToOuter(i);
        expansionSymbols := expansionSymbols[j := encode(coefficients)];
        nested.SetSymbol(i, ExpansionSymbol(j));
        i := i + 1;
        j := j + 1;
      }
    }
  }

  /// What the precoded inner symbol `i` holds, given the source symbols,
  /// the mapper's lookup vectors and the outer encoder.
  function PrecodedSymbol(source: seq<seq<Byte>>, lookup: seq<seq<nat>>, encode: seq<nat> -> seq<Byte>, i: nat): seq<Byte>
    requires i < |source| + |lookup|
  {
    if i < |source| then source[i] else encode(lookup[i - |source|])
  }

  /// Every inner symbol the precoder sets holds the outer encoding of the
  /// very coefficient vector the decoder's `map_to_outer` gives that
  /// inner symbol's unit vector: a source symbol is its own unit vector,
  /// an expansion symbol is encoded with its lookup vector. So the outer
  /// decoder, handed a mapped inner symbol, receives a consistent outer
  /// symbol.
  lemma PrecodedMatchesMapping(mapper: CoefficientMapper, source: seq<seq<Byte>>,
                               encode: seq<nat> -> seq<Byte>, i: nat)
    requires mapper.Valid() && |source| == mapper.symbols && i < mapper.symbols + mapper.expansion
    requires forall k :: 0 <= k < |source| ==> encode(UnitVector(mapper.symbols, k)) == source[k]
    ensures PrecodedSymbol(source, mapper.lookup[..mapper.expansion], encode, i) ==
      encode(Combine(mapper.field, Systematic(UnitBits(mapper.symbols + mapper.expansion, i), mapper.symbols),
                     mapper.lookup, UnitBits(mapper.symbols + mapper.expansion, i), mapper.symbols, mapper.expansion))
  {
    mapper.OverloadsAgree(i);
  }
}
