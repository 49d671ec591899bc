/// The `partial_shallow_symbol_storage` layer: lets a shallow storage take
/// a block whose last symbol is short. The short last symbol is copied
/// into a buffer of the layer, which the storage below uses in its place;
/// `restore_partial_symbol` copies it back to the user once decoded.
module PartialShallowSymbolStorage {
  import opened Wrappers
  import opened CodecStack
  import opened SakStorage

  /// Where a symbol handed to the storage below lives.
  datatype Region = User(storage: Storage) | Internal

  /// `std::vector<uint8_t>::resize`: keeps the first `n` bytes and pads
  /// with zeros.
  function ResizeBytes(buf: seq<Byte>, n: nat): (r: seq<Byte>)
    ensures |r| == n
    ensures forall i :: 0 <= i < n ==> r[i] == if i < |buf| then buf[i] else 0
  {
    if n <= |buf| then buf[..n] else buf + Repeat(0, n - |buf|)
  }

  class PartialStorage {
    const maxSymbolSize: nat
    /// The current `symbols()` and `symbol_size()` of the layers below.
    var symbols: nat
    var symbolSize: nat
    /// The buffer standing in for a short last symbol.
    var internal: seq<Byte>
    var hasPartial: bool
    /// The user's short last symbol, once there is one.
    var partial: Storage
    /// The `set_symbol` calls made on the storage below, in order.
    var lowerCalls: seq<(nat, Region)>

    predicate Valid()
      reads this
    {
      0 < symbols && 0 < symbolSize <= maxSymbolSize && |internal| == symbolSize &&
      (partial.data.None? ==> partial.size == 0) &&
      (hasPartial ==> partial.data.Some? && partial.size < symbolSize)
    }

    /// `construct`: no buffer contents yet; the block starts out at the
    /// factory's maxima. The source leaves `m_has_partial_symbol`
    /// uninitialised until `initialize` clears it; the model starts it
    /// cleared, so a layer used before `initialize` is not modelled.
    constructor(maxSymbols: nat, maxSymbolSize: nat)
      requires maxSymbols > 0 && maxSymbolSize > 0
      ensures Valid() && this.maxSymbolSize == maxSymbolSize
      ensures symbols == maxSymbols && symbolSize == maxSymbolSize
      ensures !hasPartial && partial == Storage(None, 0) && lowerCalls == []
    {
      this.maxSymbolSize := maxSymbolSize;
      symbols := maxSymbols;
      symbolSize := maxSymbolSize;
      internal := Repeat(0, maxSymbolSize);
      hasPartial := false;
      partial := Storage(None, 0);
      lowerCalls := [];
    }

    /// `initialize`: the buffer is resized to the symbol size and the
    /// partial flag cleared.
    method Initialize(symbols: nat, symbolSize: nat)
      requires 0 < symbols && 0 < symbolSize <= maxSymbolSize
      requires partial.data.None? ==> partial.size == 0
      modifies this
      ensures Valid() && this.symbols == symbols && this.symbolSize == symbolSize
      ensures internal == ResizeBytes(old(internal), symbolSize) && !hasPartial
      ensures partial == old(partial) && lowerCalls == old(lowerCalls)
    {
      this.symbols := symbols;
      this.symbolSize := symbolSize;
      internal := ResizeBytes(internal, symbolSize);
      hasPartial := false;
    }

    /// `set_symbols`: the storage is cut into symbol-sized pieces, one per
    /// symbol. Every piece but the last goes to the storage below with
    /// its index. A short last piece is copied into the internal buffer,
    /// which goes below in its place, and is remembered as the partial
    /// symbol; a whole last piece goes below directly.
    method SetSymbols(memory: array<Byte>, storage: Storage)
      requires Valid() && storage.data.Some?
      requires |SplitStorage(storage, symbolSize)| == symbols
      requires storage.data.value + storage.size <= memory.Length
      modifies this
      ensures Valid() && symbols == old(symbols) && symbolSize == old(symbolSize)
      ensures var pieces := SplitStorage(storage, symbolSize);
        var last := pieces[symbols - 1];
        |lowerCalls| == |old(lowerCalls)| + symbols &&
        lowerCalls[..|old(lowerCalls)|] == old(lowerCalls) &&
        (forall i :: 0 <= i < symbols - 1 ==> lowerCalls[|old(lowerCalls)| + i] == (i, User(pieces[i]))) &&
        last.data.Some? && last.data.value + last.size <= memory.Length &&
        if last.size < symbolSize then
          lowerCalls[|lowerCalls| - 1] == (symbols - 1, Internal) &&
          hasPartial && partial == last &&
          internal[..last.size] == memory[last.data.value..last.data.value + last.size]
        else
          lowerCalls[|lowerCalls| - 1] == (symbols - 1, User(last)) &&
          hasPartial == old(hasPartial) && partial == old(partial) && internal == old(internal)
    {
      var pieces := SplitStorage(storage, symbolSize);
      var lastIndex := symbols - 1;
      var i := 0;
      while i < lastIndex
        invariant 0 <= i <= lastIndex && Valid()
        invariant symbols == old(symbols) && symbolSize == old(symbolSize)
        invariant internal == old(internal) && hasPartial == old(hasPartial) && partial == old(partial)
        invariant |lowerCalls| == |old(lowerCalls)| + i && lowerCalls[..|old(lowerCalls)|] == old(lowerCalls)
        invariant forall k :: 0 <= k < i ==> lowerCalls[|old(lowerCalls)| + k] == (k, User(pieces[k]))
      {
        lowerCalls := lowerCalls + [(i, User(pieces[i]))];
        i := i + 1;
      }
      var last := pieces[lastIndex];
      SplitStoragePiece(storage, symbolSize, lastIndex);
      if last.size < symbolSize {
        internal := Overwrite(internal, 0, memory[last.data.value..last.data.value + last.size]);
        lowerCalls := lowerCalls + [(lastIndex, Internal)];
        hasPartial := true;
        partial := last;
      } else {
        lowerCalls := lowerCalls + [(lastIndex, User(last))];
      }
    }

    /// `restore_partial_symbol`: as many bytes as the partial symbol has
    /// are copied from the internal buffer back to it.
    method RestorePartialSymbol(memory: array<Byte>)
      requires partial.data.None? ==> partial.size == 0
      requires partial.size <= |internal|
      requires partial.data.Some? ==> partial.data.value + partial.size <= memory.Length
      modifies memory
      ensures partial.data.Some? ==>
        memory[..] == Overwrite(old(memory[..]), partial.data.value, internal[..partial.size])
      ensures partial.data.None? ==> memory[..] == old(memory[..])
    {
      if partial.data.Some? {
        CopyStorage(memory, partial.data.value, internal[..partial.size]);
      }
    }
  }

  /// Restoring right after `set_symbols`, before anything is decoded into
  /// the internal buffer, gives the user back exactly the bytes they had.
  lemma RestoreUndoesCopy(memory: seq<Byte>, internal: seq<Byte>, partial: Storage)
    requires partial.data.Some? && partial.data.value + partial.size <= |memory|
    requires partial.size <= |internal|
    requires internal[..partial.size] == memory[partial.data.value..partial.data.value + partial.size]
    ensures Overwrite(memory, partial.data.value, internal[..partial.size]) == memory
  {
    OverwriteSame(memory, partial.data.value, partial.size);
  }
}
