/// The `partitioning` layer of the object codecs: its factory remembers
/// the symbol count and size a block may use and can say how large a
/// buffer an object needs; its codec side builds the partitioning scheme
/// when initialised and answers every per-block question from it.
module Partitioning {
  import opened PartitioningScheme

  class PartitioningFactory {
    const symbols: nat
    const symbolSize: nat

    constructor(symbols: nat, symbolSize: nat)
      requires symbols > 0 && symbolSize > 0
      ensures this.symbols == symbols && this.symbolSize == symbolSize
    {
      this.symbols := symbols;
      this.symbolSize := symbolSize;
    }

    /// The buffer an object of `objectSize` bytes needs: the total block
    /// size of a scheme built for it, never smaller than the object and
    /// short of one more symbol.
    method TotalBlockSize(objectSize: nat) returns (r: nat)
      requires symbols > 0 && symbolSize > 0 && objectSize > 0
      ensures r == SchemeOf(symbols, symbolSize, objectSize).TotalBlockSize()
      ensures objectSize <= r < objectSize + symbolSize
    {
      var p := NewScheme(symbols, symbolSize, objectSize);
      r := p.totalSymbols * p.maxSymbolSize;
    }
  }

  /// The codec side. The forwarding accessors (`blocks`, `symbols`,
  /// `symbol_size`, `bytes_used`, `byte_offset`, `block_size`) are the
  /// scheme's own functions, reached through `scheme`.
  class PartitioningLayer {
    var scheme: Scheme

    constructor()
      ensures scheme == Scheme(0, 0, 0, 0, 0, 0)
    {
      scheme := Scheme(0, 0, 0, 0, 0, 0);
    }

    /// Builds the scheme from the factory's symbols and symbol size and
    /// the object size.
    method Initialize(symbols: nat, symbolSize: nat, objectSize: nat)
      requires symbols > 0 && symbolSize > 0 && objectSize > 0
      modifies this
      ensures scheme == SchemeOf(symbols, symbolSize, objectSize)
      ensures scheme.Valid() && scheme.Blocks() > 0
    {
      scheme := NewScheme(symbols, symbolSize, objectSize);
    }
  }
}
