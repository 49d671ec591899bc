/// The `deep_symbol_storage` layer: the coding block lives in one buffer
/// owned by the layer, symbol `i` occupying bytes [i * symbol_size,
/// (i + 1) * symbol_size). Data is copied in and out of it.
module DeepSymbolStorage {
  import opened Wrappers
  import opened SakStorage

  /// Copying data of at most one symbol into symbol `i` puts it at the
  /// start of that symbol.
  lemma SetSymbolReadsBack(buf: seq<Byte>, size: nat, count: nat, i: nat, src: seq<Byte>)
    requires count * size <= |buf| && i < count && |src| <= size
    ensures (i + 1) * size <= |buf|
    ensures SymbolAt(Overwrite(buf, i * size, src), size, i)[..|src|] == src
  {
    SymbolInBlock(size, count, i);
    var after := Overwrite(buf, i * size, src);
    assert SymbolAt(after, size, i)[..|src|] == after[i * size..i * size + |src|];
  }

  class DeepStorage {
    const maxSymbols: nat
    const maxSymbolSize: nat
    /// The current `symbols()` and `symbol_size()` of the layers below.
    var symbols: nat
    var symbolSize: nat
    /// The layer's buffer, sized once to the factory's `max_block_size`.
    const data: array<Byte>

    predicate Valid()
      reads this
    {
      data.Length == maxSymbols * maxSymbolSize &&
      symbols <= maxSymbols && symbolSize <= maxSymbolSize &&
      symbols * symbolSize <= data.Length
    }

    /// `construct`: a zeroed buffer of `max_block_size` bytes. The block
    /// starts out at its maximal size, as the factory's defaults do.
    constructor(maxSymbols: nat, maxSymbolSize: nat)
      requires maxSymbols > 0 && maxSymbolSize > 0
      ensures Valid() && fresh(data)
      ensures this.maxSymbols == maxSymbols && this.maxSymbolSize == maxSymbolSize
      ensures symbols == maxSymbols && symbolSize == maxSymbolSize
      ensures forall k :: 0 <= k < data.Length ==> data[k] == 0
    {
      this.maxSymbols := maxSymbols;
      this.maxSymbolSize := maxSymbolSize;
      symbols := maxSymbols;
      symbolSize := maxSymbolSize;
      data := new Byte[maxSymbols * maxSymbolSize](_ => 0);
    }

    /// The layers below take a new block size; the buffer is kept.
    method Initialize(symbols: nat, symbolSize: nat)
      requires Valid()
      requires 0 < symbols <= maxSymbols && 0 < symbolSize <= maxSymbolSize
      modifies this
      ensures Valid() && this.symbols == symbols && this.symbolSize == symbolSize
    {
      this.symbols := symbols;
      this.symbolSize := symbolSize;
      MulMonotone(symbolSize, symbols, maxSymbols);
      MulMonotone(maxSymbols, symbolSize, maxSymbolSize);
    }

    function BlockSize(): nat
      reads this
    {
      symbols * symbolSize
    }

    /// `symbol_storage(i)`: the bytes of symbol `i`.
    function Symbol(i: nat): (r: seq<Byte>)
      reads this, data
      requires Valid() && i < symbols
      ensures |r| == symbolSize
    {
      MulMonotone(symbolSize, i + 1, symbols);
      SymbolAt(data[..], symbolSize, i)
    }

    /// `set_symbols`: at most a block of data is copied to the start of
    /// the buffer.
    method SetSymbols(src: seq<Byte>)
      requires Valid() && 0 < |src| <= BlockSize()
      modifies data
      ensures data[..] == Overwrite(old(data[..]), 0, src)
      ensures data[..|src|] == src
    {
      CopyStorage(data, 0, src);
    }

    /// `set_symbol`: up to one symbol of data is copied to the start of
    /// symbol `index`; every other symbol is unchanged.
    method SetSymbol(index: nat, src: seq<Byte>)
      requires Valid() && index < symbols && 0 < |src| <= symbolSize
      modifies data
      ensures index * symbolSize + |src| <= data.Length
      ensures data[..] == Overwrite(old(data[..]), index * symbolSize, src)
      ensures Symbol(index)[..|src|] == src
      ensures forall j :: 0 <= j < symbols && j != index ==> Symbol(j) == old(Symbol(j))
    {
      ghost var before := data[..];
      SetSymbolReadsBack(before, symbolSize, symbols, index, src);
      CopyStorage(data, index * symbolSize, src);
      forall j | 0 <= j < symbols && j != index
        ensures Symbol(j) == SymbolAt(before, symbolSize, j)
      {
        SymbolKept(before, symbolSize, symbols, index, src, j);
      }
    }

    /// `copy_symbols`: min(dest size, block size) bytes from the start of
    /// the buffer.
    method CopySymbols(dest: array<Byte>)
      requires Valid() && dest.Length > 0 && dest != data
      modifies dest
      ensures Min(dest.Length, BlockSize()) <= data.Length
      ensures dest[..] == Overwrite(old(dest[..]), 0, data[..Min(dest.Length, BlockSize())])
    {
      var n := Min(dest.Length, BlockSize());
      CopyStorage(dest, 0, data[..n]);
    }

    /// `copy_symbol`: min(dest size, symbol size) bytes of symbol `index`,
    /// which read back what `set_symbol` stored there.
    method CopySymbol(index: nat, dest: array<Byte>)
      requires Valid() && index < symbols && dest.Length > 0 && dest != data
      modifies dest
      ensures dest[..] == Overwrite(old(dest[..]), 0, Symbol(index)[..Min(dest.Length, symbolSize)])
    {
      var n := Min(dest.Length, symbolSize);
      CopyStorage(dest, 0, Symbol(index)[..n]);
    }

    /// `copy_into_symbols`: for deep storage, the same as `set_symbols`.
    method CopyIntoSymbols(src: seq<Byte>)
      requires Valid() && 0 < |src| <= BlockSize()
      modifies data
      ensures data[..] == Overwrite(old(data[..]), 0, src)
    {
      SetSymbols(src);
    }

    /// `copy_into_symbol`: for deep storage, the same as `set_symbol`.
    method CopyIntoSymbol(index: nat, src: seq<Byte>)
      requires Valid() && index < symbols && 0 < |src| <= symbolSize
      modifies data
      ensures index * symbolSize + |src| <= data.Length
      ensures data[..] == Overwrite(old(data[..]), index * symbolSize, src)
    {
      SetSymbol(index, src);
    }
  }
}
