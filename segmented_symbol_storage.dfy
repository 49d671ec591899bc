/// The `segmented_symbol_storage` layer: every symbol has a buffer of its
/// own, so symbols can be swapped by exchanging buffers. The layer counts
/// the symbols that have been given data.
module SegmentedSymbolStorage {
  import opened Wrappers
  import opened SakStorage

  /// The count of a flag vector whose flags from `n` on are clear is the
  /// count of its first `n` flags.
  lemma CountClearTail(flags: seq<bool>, n: nat)
    requires n <= |flags| && forall i :: n <= i < |flags| ==> !flags[i]
    ensures Count(flags) == Count(flags[..n])
  {
    assert flags == flags[..n] + flags[n..];
    CountAppend(flags[..n], flags[n..]);
    CountAllFalse(flags[n..]);
  }

  /// The first `n` bytes of each of the first `k` buffers.
  function Prefixes(buffers: seq<seq<Byte>>, n: nat, k: nat): (r: seq<seq<Byte>>)
    requires k <= |buffers| && forall i :: 0 <= i < k ==> n <= |buffers[i]|
    ensures |r| == k && forall i :: 0 <= i < k ==> r[i] == buffers[i][..n]
  {
    seq(k, i requires 0 <= i < k => buffers[i][..n])
  }

  class SegmentedStorage {
    const maxSymbols: nat
    const maxSymbolSize: nat
    /// The current `symbols()` and `symbol_size()` of the layers below.
    var symbols: nat
    var symbolSize: nat
    /// One buffer of `max_symbol_size` bytes per possible symbol.
    var segments: seq<seq<Byte>>
    /// Which symbols have been set since `initialize`, and how many.
    var setFlags: seq<bool>
    var count: nat

    /// The sizes the layer's vectors always have.
    predicate Shape()
      reads this
    {
      |segments| == maxSymbols && |setFlags| == maxSymbols &&
      (forall i :: 0 <= i < maxSymbols ==> |segments[i]| == maxSymbolSize) &&
      0 < symbols <= maxSymbols && 0 < symbolSize <= maxSymbolSize
    }

    /// Only symbols of the block are flagged, and the count is the number
    /// of flagged symbols.
    predicate Valid()
      reads this
    {
      Shape() &&
      (forall i :: symbols <= i < maxSymbols ==> !setFlags[i]) &&
      count == Count(setFlags)
    }

    /// `construct`: `max_symbols` zeroed buffers of `max_symbol_size`
    /// bytes and clear flags. The block starts out at its maximal size.
    constructor(maxSymbols: nat, maxSymbolSize: nat)
      requires maxSymbols > 0 && maxSymbolSize > 0
      ensures Valid()
      ensures this.maxSymbols == maxSymbols && this.maxSymbolSize == maxSymbolSize
      ensures symbols == maxSymbols && symbolSize == maxSymbolSize
      ensures segments == Repeat(Repeat(0, maxSymbolSize), maxSymbols)
      ensures setFlags == Repeat(false, maxSymbols) && count == 0
    {
      this.maxSymbols := maxSymbols;
      this.maxSymbolSize := maxSymbolSize;
      symbols := maxSymbols;
      symbolSize := maxSymbolSize;
      segments := Repeat(Repeat(0, maxSymbolSize), maxSymbols);
      setFlags := Repeat(false, maxSymbols);
      count := 0;
      new;
      CountAllFalse(setFlags);
    }

    /// `initialize`: the buffers of the block's symbols are zeroed, all
    /// flags cleared and the count reset; buffers beyond the block keep
    /// their contents.
    method Initialize(symbols: nat, symbolSize: nat)
      requires Shape()
      requires 0 < symbols <= maxSymbols && 0 < symbolSize <= maxSymbolSize
      modifies this
      ensures Valid() && this.symbols == symbols && this.symbolSize == symbolSize
      ensures forall i :: 0 <= i < symbols ==> segments[i] == Repeat(0, maxSymbolSize)
      ensures forall i :: symbols <= i < maxSymbols ==> segments[i] == old(segments[i])
      ensures setFlags == Repeat(false, maxSymbols) && count == 0
    {
      this.symbols := symbols;
      this.symbolSize := symbolSize;
      var i := 0;
      while i < symbols
        invariant 0 <= i <= symbols && Shape()
        invariant this.symbols == symbols && this.symbolSize == symbolSize
        invariant forall k :: 0 <= k < i ==> segments[k] == Repeat(0, maxSymbolSize)
        invariant forall k :: i <= k < maxSymbols ==> segments[k] == old(segments[k])
      {
        segments := segments[i := Repeat(0, |segments[i]|)];
        i := i + 1;
      }
      setFlags := Repeat(false, maxSymbols);
      count := 0;
      CountAllFalse(setFlags);
    }

    function BlockSize(): nat
      reads this
    {
      symbols * symbolSize
    }

    /// `symbol(i)`: the bytes of symbol `i`, at the start of its buffer.
    function Symbol(index: nat): (r: seq<Byte>)
      reads this
      requires Shape() && index < symbols
      ensures |r| == symbolSize
    {
      segments[index][..symbolSize]
    }

    /// The block, symbol by symbol.
    function Symbols(): (r: seq<seq<Byte>>)
      reads this
      requires Shape()
      ensures |r| == symbols && forall i :: 0 <= i < symbols ==> r[i] == Symbol(i)
    {
      Prefixes(segments, symbolSize, symbols)
    }

    /// `set_symbol`: a whole symbol of data is copied into the buffer of
    /// symbol `index`, which is counted the first time only.
    method SetSymbol(index: nat, src: seq<Byte>)
      requires Shape() && index < symbols && |src| == symbolSize
      modifies this
      ensures Shape() && symbols == old(symbols) && symbolSize == old(symbolSize)
      ensures segments == old(segments)[index := Overwrite(old(segments[index]), 0, src)]
      ensures Symbol(index) == src
      ensures setFlags == old(setFlags)[index := true]
      ensures count == if old(setFlags[index]) then old(count) else old(count) + 1
      ensures old(Valid()) ==> Valid()
    {
      segments := segments[index := Overwrite(segments[index], 0, src)];
      if !setFlags[index] {
        if count == Count(setFlags) {
          CountSetTrue(setFlags, index);
        }
        count := count + 1;
        setFlags := setFlags[index := true];
      } else {
        assert setFlags[index := true] == setFlags;
      }
    }

    /// `set_symbols`: the block is cut into whole symbols, symbol `i` of
    /// the data going to symbol `i`; afterwards every symbol is set.
    method SetSymbols(src: seq<Byte>)
      requires Valid() && |src| == symbols * symbolSize
      modifies this
      ensures Valid() && symbols == old(symbols) && symbolSize == old(symbolSize)
      ensures forall i :: 0 <= i < symbols ==> Symbol(i) == SymbolAt(src, symbolSize, i)
      ensures forall i :: symbols <= i < maxSymbols ==> segments[i] == old(segments[i])
      ensures forall i :: 0 <= i < symbols ==> setFlags[i]
      ensures count == symbols
    {
      var i := 0;
      while i < symbols
        invariant 0 <= i <= symbols && Valid()
        invariant symbols == old(symbols) && symbolSize == old(symbolSize)
        invariant forall k :: 0 <= k < i ==> Symbol(k) == SymbolAt(src, symbolSize, k)
        invariant forall k :: i <= k < maxSymbols ==> segments[k] == old(segments[k])
        invariant forall k :: 0 <= k < i ==> setFlags[k]
      {
        SymbolInBlock(symbolSize, symbols, i);
        SetSymbol(i, SymbolAt(src, symbolSize, i));
        i := i + 1;
      }
      AllSetMeansFull();
    }

    /// With every symbol of the block flagged, the count is full.
    lemma AllSetMeansFull()
      requires Valid() && forall i :: 0 <= i < symbols ==> setFlags[i]
      ensures count == symbols
    {
      CountClearTail(setFlags, symbols);
      CountAllTrue(setFlags[..symbols]);
    }

    /// The buffer contents exchange of `swap_symbols`: the user's vector
    /// receives the block's symbols and the block receives the vector's
    /// contents, symbol by symbol. Flags and count are left as they are.
    method SwapData(user: array<Byte>)
      requires Shape() && user.Length == symbols * symbolSize
      modifies this, user
      ensures Shape() && symbols == old(symbols) && symbolSize == old(symbolSize)
      ensures setFlags == old(setFlags) && count == old(count)
      ensures forall i :: 0 <= i < symbols ==>
        Symbol(i) == SymbolAt(old(user[..]), symbolSize, i) &&
        SymbolAt(user[..], symbolSize, i) == old(Symbol(i))
      ensures forall i :: symbols <= i < maxSymbols ==> segments[i] == old(segments[i])
    {
      var temp := user[..];
      var i := 0;
      while i < symbols
        invariant 0 <= i <= symbols && Shape()
        invariant symbols == old(symbols) && symbolSize == old(symbolSize)
        invariant setFlags == old(setFlags) && count == old(count)
        invariant forall k :: 0 <= k < i ==> Symbol(k) == SymbolAt(temp, symbolSize, k)
        invariant forall k :: 0 <= k < i ==> SymbolAt(user[..], symbolSize, k) == old(Symbol(k))
        invariant forall k :: i <= k < maxSymbols ==> segments[k] == old(segments[k])
      {
        SymbolInBlock(symbolSize, symbols, i);
        SwapOne(user, temp, i);
        i := i + 1;
      }
    }

    /// One step of `swap_symbols`: symbol `i` goes to the user's vector
    /// and the saved user data of symbol `i` into its buffer.
    method SwapOne(user: array<Byte>, temp: seq<Byte>, i: nat)
      requires Shape() && i < symbols && user.Length == symbols * symbolSize && |temp| == user.Length
      modifies this, user
      ensures Shape() && symbols == old(symbols) && symbolSize == old(symbolSize)
      ensures setFlags == old(setFlags) && count == old(count)
      ensures (i + 1) * symbolSize <= user.Length
      ensures segments == old(segments)[i := Overwrite(old(segments[i]), 0, SymbolAt(temp, symbolSize, i))]
      ensures SymbolAt(user[..], symbolSize, i) == old(Symbol(i))
      ensures forall k :: 0 <= k < symbols && k != i ==>
        SymbolAt(user[..], symbolSize, k) == SymbolAt(old(user[..]), symbolSize, k)
    {
      SymbolInBlock(symbolSize, symbols, i);
      ghost var before := user[..];
      CopyStorage(user, i * symbolSize, Symbol(i));
      forall k | 0 <= k < symbols && k != i
        ensures SymbolAt(user[..], symbolSize, k) == SymbolAt(before, symbolSize, k)
      {
        SymbolKept(before, symbolSize, symbols, i, old(Symbol(i)), k);
      }
      segments := segments[i := Overwrite(segments[i], 0, SymbolAt(temp, symbolSize, i))];
    }

    /// `swap_symbols` as written: the data is exchanged and the count set
    /// to `symbols`, but the flags are left as they were.
    method SwapSymbolsAsWritten(user: array<Byte>)
      requires Shape() && user.Length == symbols * symbolSize
      modifies this, user
      ensures Shape() && symbols == old(symbols) && symbolSize == old(symbolSize)
      ensures forall i :: 0 <= i < symbols ==>
        Symbol(i) == SymbolAt(old(user[..]), symbolSize, i) &&
        SymbolAt(user[..], symbolSize, i) == old(Symbol(i))
      ensures setFlags == old(setFlags) && count == symbols
    {
      SwapData(user);
      count := symbols;
    }

    /// `swap_symbols` with the flags kept in step with the count: every
    /// symbol of the block now holds data and is flagged.
    method SwapSymbols(user: array<Byte>)
      requires Valid() && user.Length == symbols * symbolSize
      modifies this, user
      ensures Valid() && symbols == old(symbols) && symbolSize == old(symbolSize)
      ensures forall i :: 0 <= i < symbols ==>
        Symbol(i) == SymbolAt(old(user[..]), symbolSize, i) &&
        SymbolAt(user[..], symbolSize, i) == old(Symbol(i))
      ensures forall i :: 0 <= i < symbols ==> setFlags[i]
      ensures count == symbols
    {
      SwapData(user);
      setFlags := Repeat(true, symbols) + Repeat(false, maxSymbols - symbols);
      count := symbols;
      CountClearTail(setFlags, symbols);
      assert setFlags[..symbols] == Repeat(true, symbols);
      CountAllTrue(setFlags[..symbols]);
    }

    /// `swap_segments`: the buffers of two symbols of the block change
    /// places; every other buffer, the flags and the count are unchanged.
    method SwapSegments(first: nat, second: nat)
      requires Shape() && first < symbols && second < symbols
      modifies this
      ensures Shape() && symbols == old(symbols) && symbolSize == old(symbolSize)
      ensures segments[first] == old(segments[second]) && segments[second] == old(segments[first])
      ensures forall i :: 0 <= i < maxSymbols && i != first && i != second ==> segments[i] == old(segments[i])
      ensures setFlags == old(setFlags) && count == old(count)
      ensures old(Valid()) ==> Valid()
    {
      segments := segments[first := segments[second]][second := segments[first]];
    }

    /// `copy_symbols`: min(dest size, block size) bytes of the block,
    /// copied symbol by symbol.
    method CopySymbols(dest: array<Byte>)
      requires Shape() && dest.Length > 0
      modifies dest
      ensures Min(dest.Length, BlockSize()) <= |Flatten(Symbols())|
      ensures dest[..] == Overwrite(old(dest[..]), 0, Flatten(Symbols())[..Min(dest.Length, BlockSize())])
    {
      CopySymbolChunks(dest, Symbols(), symbolSize);
    }

    /// `copy_symbol`: min(dest size, symbol size) bytes of symbol `index`.
    method CopySymbol(index: nat, dest: array<Byte>)
      requires Shape() && index < symbols && dest.Length > 0
      modifies dest
      ensures dest[..] == Overwrite(old(dest[..]), 0, Symbol(index)[..Min(dest.Length, symbolSize)])
    {
      CopyStorage(dest, 0, Symbol(index)[..Min(dest.Length, symbolSize)]);
    }

    /// `symbols_available` and `symbols_initialized`: the count.
    function SymbolsAvailable(): (r: nat)
      reads this
      requires Valid()
      ensures r <= symbols
    {
      CountClearTail(setFlags, symbols);
      count
    }

    /// `is_symbols_available` and `is_symbols_initialized`: the count
    /// equals the number of symbols, which in a valid layer means every
    /// symbol of the block has been set.
    function IsSymbolsAvailable(): (r: bool)
      reads this
      requires Shape()
      ensures r <==> count == symbols
      ensures Valid() ==> (r <==> forall i :: 0 <= i < symbols ==> setFlags[i])
    {
      if Valid() then
        CountClearTail(setFlags, symbols);
        CountFull(setFlags[..symbols]);
        count == symbols
      else
        count == symbols
    }

    /// `is_symbol_available`: every symbol has a non-empty buffer.
    function IsSymbolAvailable(index: nat): (r: bool)
      reads this
      requires Shape() && index < maxSymbols
      ensures r
    {
      |segments[index]| != 0
    }
  }

  /// `swap_symbols` as written, on a fresh one-symbol layer, followed by
  /// `set_symbol(0)`: the count reaches 2 for a block of 1 symbol, so the
  /// layer no longer reports its symbols available although it holds all
  /// of them.
  method SwapThenSetOvercounts() returns (count: nat, available: bool)
    ensures count == 2 && !available
  {
    var layer := new SegmentedStorage(1, 1);
    var user := new Byte[1](_ => 7);
    layer.SwapSymbolsAsWritten(user);
    layer.SetSymbol(0, [9]);
    count := layer.count;
    available := layer.IsSymbolsAvailable();
  }
}
