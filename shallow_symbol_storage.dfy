/// The `shallow_symbol_storage` layer and its mutable variant: the layer
/// keeps no data of its own, only a pointer per symbol into memory the
/// user owns. Pointers are byte offsets into that memory, `None` being the
/// null pointer.
module ShallowSymbolStorage {
  import opened Wrappers
  import opened CodecStack
  import opened SakStorage

  class ShallowStorage {
    const maxSymbols: nat
    const maxSymbolSize: nat
    /// The current `symbols()` and `symbol_size()` of the layers below.
    var symbols: nat
    var symbolSize: nat
    /// `m_mapping`: where each symbol lives in the user's memory.
    var mapping: seq<Option<nat>>

    predicate Valid()
      reads this
    {
      |mapping| == maxSymbols &&
      0 < symbols <= maxSymbols && 0 < symbolSize <= maxSymbolSize
    }

    /// `construct`: `max_symbols` null pointers. The block starts out at
    /// its maximal size.
    constructor(maxSymbols: nat, maxSymbolSize: nat)
      requires maxSymbols > 0 && maxSymbolSize > 0
      ensures Valid()
      ensures this.maxSymbols == maxSymbols && this.maxSymbolSize == maxSymbolSize
      ensures symbols == maxSymbols && symbolSize == maxSymbolSize
      ensures mapping == Repeat(None, maxSymbols)
    {
      this.maxSymbols := maxSymbols;
      this.maxSymbolSize := maxSymbolSize;
      symbols := maxSymbols;
      symbolSize := maxSymbolSize;
      mapping := Repeat(None, maxSymbols);
    }

    /// `initialize`: every pointer is nulled.
    method Initialize(symbols: nat, symbolSize: nat)
      requires Valid()
      requires 0 < symbols <= maxSymbols && 0 < symbolSize <= maxSymbolSize
      modifies this
      ensures Valid() && this.symbols == symbols && this.symbolSize == symbolSize
      ensures mapping == Repeat(None, maxSymbols)
    {
      this.symbols := symbols;
      this.symbolSize := symbolSize;
      mapping := Repeat(None, maxSymbols);
    }

    function BlockSize(): nat
      reads this
    {
      symbols * symbolSize
    }

    /// `symbol(i)`: the pointer of symbol `i`.
    function Symbol(index: nat): Option<nat>
      reads this
      requires Valid() && index < symbols
    {
      mapping[index]
    }

    /// `set_symbol`: symbol `index` now points at a whole symbol of user
    /// data; no other pointer changes.
    method SetSymbol(index: nat, symbol: Storage)
      requires Valid() && index < symbols
      requires symbol.data.Some? && symbol.size == symbolSize
      modifies this
      ensures Valid() && symbols == old(symbols) && symbolSize == old(symbolSize)
      ensures mapping == old(mapping)[index := symbol.data]
    {
      mapping := mapping[index := symbol.data];
    }

    /// `set_symbols`: the storage is cut into `symbols` whole symbols and
    /// symbol `i` is pointed at piece `i`. (The piece count must equal the
    /// symbol count and `set_symbol` accepts only whole symbols, so the
    /// storage holds exactly a block.)
    method SetSymbols(storage: Storage)
      requires Valid() && storage.data.Some? && storage.size == symbols * symbolSize
      modifies this
      ensures Valid() && symbols == old(symbols) && symbolSize == old(symbolSize)
      ensures |SplitStorage(storage, symbolSize)| == symbols
      ensures forall i :: 0 <= i < symbols ==>
        mapping[i] == SplitStorage(storage, symbolSize)[i].data == Some(storage.data.value + i * symbolSize)
      ensures forall i :: symbols <= i < maxSymbols ==> mapping[i] == old(mapping[i])
    {
      var pieces := SplitStorage(storage, symbolSize);
      SplitStorageFullCount(storage, symbolSize, symbols);
      var i := 0;
      while i < symbols
        invariant 0 <= i <= symbols && Valid()
        invariant symbols == old(symbols) && symbolSize == old(symbolSize)
        invariant forall k :: 0 <= k < i ==>
          mapping[k] == pieces[k].data == Some(storage.data.value + k * symbolSize)
        invariant forall k :: i <= k < maxSymbols ==> mapping[k] == old(mapping[k])
      {
        SplitStorageFull(storage, symbolSize, symbols, i);
        SetSymbol(i, pieces[i]);
        i := i + 1;
      }
    }

    /// Every symbol of the block points at a whole symbol inside `memory`.
    predicate Mapped(memory: seq<Byte>)
      reads this
    {
      Valid() &&
      forall i :: 0 <= i < symbols ==>
        mapping[i].Some? && mapping[i].value + symbolSize <= |memory|
    }

    /// The bytes symbol `index` points at.
    function SymbolData(memory: seq<Byte>, index: nat): (r: seq<Byte>)
      reads this
      requires Mapped(memory) && index < symbols
      ensures |r| == symbolSize
    {
      memory[mapping[index].value..mapping[index].value + symbolSize]
    }

    /// The block as the pointers see it, symbol by symbol.
    function Block(memory: seq<Byte>): (r: seq<seq<Byte>>)
      reads this
      requires Mapped(memory)
      ensures |r| == symbols && forall i :: 0 <= i < symbols ==> r[i] == SymbolData(memory, i)
    {
      BlockFrom(memory, mapping, symbols, symbolSize)
    }

    /// `copy_symbols`: min(dest size, block size) bytes of the block,
    /// copied symbol by symbol from wherever the symbols point.
    method CopySymbols(memory: array<Byte>, dest: array<Byte>)
      requires Mapped(memory[..]) && dest.Length > 0 && dest != memory
      modifies dest
      ensures Min(dest.Length, BlockSize()) <= |Flatten(Block(memory[..]))|
      ensures dest[..] == Overwrite(old(dest[..]), 0, Flatten(Block(memory[..]))[..Min(dest.Length, BlockSize())])
    {
      CopySymbolChunks(dest, Block(memory[..]), symbolSize);
    }

    /// `symbol(i)` of the mutable variant: symbol `i` must have been set.
    function MutableSymbol(index: nat): (r: nat)
      reads this
      requires Valid() && index < symbols && mapping[index].Some?
      ensures Some(r) == Symbol(index)
    {
      mapping[index].value
    }

    /// The symbols of the block point at pairwise disjoint ranges.
    predicate Disjoint()
      reads this
      requires Valid()
    {
      forall i, j :: 0 <= i < j < symbols && mapping[i].Some? && mapping[j].Some? ==>
        mapping[i].value + symbolSize <= mapping[j].value ||
        mapping[j].value + symbolSize <= mapping[i].value
    }

    /// `copy_into_symbol`: a whole symbol of data is copied to where
    /// symbol `index` points; the pointer itself stays.
    method CopyIntoSymbol(memory: array<Byte>, index: nat, src: seq<Byte>)
      requires Valid() && index < symbols && |src| == symbolSize
      requires mapping[index].Some? && mapping[index].value + symbolSize <= memory.Length
      modifies memory
      ensures memory[..] == Overwrite(old(memory[..]), mapping[index].value, src)
    {
      CopyStorage(memory, MutableSymbol(index), src);
    }

    /// Copying a symbol's worth of data to where symbol `i` points
    /// leaves it readable there, and leaves every symbol that does not
    /// overlap it as it was.
    lemma CopyIntoKeepsOthers(memory: seq<Byte>, i: nat, src: seq<Byte>)
      requires Mapped(memory) && i < symbols && |src| == symbolSize
      ensures Mapped(Overwrite(memory, mapping[i].value, src))
      ensures SymbolData(Overwrite(memory, mapping[i].value, src), i) == src
      ensures Disjoint() ==> forall k :: 0 <= k < symbols && k != i ==>
        SymbolData(Overwrite(memory, mapping[i].value, src), k) == SymbolData(memory, k)
    {
      var after := Overwrite(memory, mapping[i].value, src);
      if Disjoint() {
        forall k | 0 <= k < symbols && k != i
          ensures SymbolData(after, k) == SymbolData(memory, k)
        {
          OverwriteOutside(memory, mapping[i].value, src, mapping[k].value, mapping[k].value + symbolSize);
        }
      }
    }

    /// `copy_into_symbols`: the data is cut into `symbols` whole symbols
    /// and piece `i` copied to where symbol `i` points. When the symbols
    /// do not overlap, each reads back its piece.
    method CopyIntoSymbols(memory: array<Byte>, src: seq<Byte>)
      requires Mapped(memory[..]) && |src| == symbols * symbolSize
      modifies memory
      ensures Mapped(memory[..])
      ensures Disjoint() ==> forall i :: 0 <= i < symbols ==>
        SymbolData(memory[..], i) == SymbolAt(src, symbolSize, i)
    {
      var i := 0;
      while i < symbols
        invariant 0 <= i <= symbols && Mapped(memory[..])
        invariant Disjoint() ==> forall k :: 0 <= k < i ==>
          SymbolData(memory[..], k) == SymbolAt(src, symbolSize, k)
      {
        SymbolInBlock(symbolSize, symbols, i);
        var piece := SymbolAt(src, symbolSize, i);
        ghost var before := memory[..];
        CopyIntoSymbol(memory, i, piece);
        CopyIntoKeepsOthers(before, i, piece);
        i := i + 1;
      }
    }
  }

  /// The first `count` symbols that `mapping` points at in `memory`.
  function BlockFrom(memory: seq<Byte>, mapping: seq<Option<nat>>, count: nat, size: nat): (r: seq<seq<Byte>>)
    requires count <= |mapping|
    requires forall i :: 0 <= i < count ==> mapping[i].Some? && mapping[i].value + size <= |memory|
    ensures |r| == count
    ensures forall i :: 0 <= i < count ==> r[i] == memory[mapping[i].value..mapping[i].value + size]
  {
    seq(count, i requires 0 <= i < count => memory[mapping[i].value..mapping[i].value + size])
  }
}
