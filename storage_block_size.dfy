/// The `storage_block_size` layer: the factory keeps the maximal and the
/// current symbol count and symbol size; a codec copies the current pair
/// when it is initialised.
module StorageBlockSize {

  class BlockSizeFactory {
    const maxSymbols: nat
    const maxSymbolSize: nat
    var symbols: nat
    var symbolSize: nat

    /// The current pair is positive and within the maxima.
    predicate Valid()
      reads this
    {
      0 < symbols <= maxSymbols && 0 < symbolSize <= maxSymbolSize
    }

    /// The factory starts at the maxima.
    constructor(maxSymbols: nat, maxSymbolSize: nat)
      requires maxSymbols > 0 && maxSymbolSize > 0
      ensures Valid()
      ensures this.maxSymbols == maxSymbols && this.maxSymbolSize == maxSymbolSize
      ensures symbols == maxSymbols && symbolSize == maxSymbolSize
    {
      this.maxSymbols := maxSymbols;
      this.maxSymbolSize := maxSymbolSize;
      symbols := maxSymbols;
      symbolSize := maxSymbolSize;
    }

    /// The largest block any codec of this factory can hold: no current
    /// setting gives a larger block.
    function MaxBlockSize(): (r: nat)
      reads this
      requires Valid()
      ensures r >= symbols * symbolSize && r > 0
    {
      BlockSizeBound(symbols, symbolSize, maxSymbols, maxSymbolSize);
      maxSymbols * maxSymbolSize
    }

    method SetSymbols(s: nat)
      requires Valid() && 0 < s <= maxSymbols
      modifies this
      ensures Valid() && symbols == s && symbolSize == old(symbolSize)
    {
      symbols := s;
    }

    method SetSymbolSize(s: nat)
      requires Valid() && 0 < s <= maxSymbolSize
      modifies this
      ensures Valid() && symbolSize == s && symbols == old(symbols)
    {
      symbolSize := s;
    }
  }

  /// Helper for `MaxBlockSize`: a product of two values bounded by two
  /// maxima is bounded by the product of the maxima.
  lemma BlockSizeBound(s: nat, z: nat, maxS: nat, maxZ: nat)
    requires s <= maxS && z <= maxZ
    ensures s * z <= maxS * maxZ
  {
    assert s * z <= maxS * z;
    assert maxS * z <= maxS * maxZ;
  }

  /// The codec side of the layer.
  class BlockSizeLayer {
    var symbols: nat
    var symbolSize: nat

    constructor()
      ensures symbols == 0 && symbolSize == 0
    {
      symbols := 0;
      symbolSize := 0;
    }

    /// Copies the factory's current pair.
    method Initialize(f: BlockSizeFactory)
      requires f.Valid()
      modifies this
      ensures symbols == f.symbols && symbolSize == f.symbolSize
      ensures 0 < symbols && 0 < symbolSize
    {
      symbols := f.symbols;
      symbolSize := f.symbolSize;
    }

    function BlockSize(): nat
      reads this
    {
      symbols * symbolSize
    }
  }

  /// After `initialize`, the codec's block size is the factory's current
  /// symbols times symbol size, and fits in the factory's largest block.
  lemma InitializedBlockSize(f: BlockSizeFactory, c: BlockSizeLayer)
    requires f.Valid() && c.symbols == f.symbols && c.symbolSize == f.symbolSize
    ensures 0 < c.BlockSize() <= f.MaxBlockSize()
  {
  }
}
