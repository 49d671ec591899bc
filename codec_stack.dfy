/// The parts of a codec stack that the object layers touch. The stacks
/// themselves are built by lower layers that are not part of this model;
/// here a stack only records what is done to it.
module CodecStack {
  import opened Wrappers

  /// A sak storage descriptor: a pointer (`None` for null) and a size in
  /// bytes. Pointers are byte offsets into the user's object buffer.
  datatype Storage = Storage(data: Option<nat>, size: nat)

  /// A built encoder or decoder.
  class Stack {
    var symbols: nat
    var symbolSize: nat
    /// Every storage handed to `set_symbols`, in call order.
    var setSymbolsCalls: seq<Storage>
    /// The value of the last `set_bytes_used`, if any.
    var bytesUsed: Option<nat>
    /// The block index the completion callback is bound to, if any.
    var completeCallback: Option<nat>

    constructor(symbols: nat, symbolSize: nat)
      ensures this.symbols == symbols && this.symbolSize == symbolSize
      ensures setSymbolsCalls == [] && bytesUsed == None && completeCallback == None
    {
      this.symbols := symbols;
      this.symbolSize := symbolSize;
      setSymbolsCalls := [];
      bytesUsed := None;
      completeCallback := None;
    }

    method SetSymbols(data: Storage)
      modifies this
      ensures setSymbolsCalls == old(setSymbolsCalls) + [data]
      ensures symbols == old(symbols) && symbolSize == old(symbolSize)
      ensures bytesUsed == old(bytesUsed) && completeCallback == old(completeCallback)
    {
      setSymbolsCalls := setSymbolsCalls + [data];
    }

    method SetBytesUsed(n: nat)
      modifies this
      ensures bytesUsed == Some(n)
      ensures symbols == old(symbols) && symbolSize == old(symbolSize)
      ensures setSymbolsCalls == old(setSymbolsCalls) && completeCallback == old(completeCallback)
    {
      bytesUsed := Some(n);
    }

    method SetIsCompleteCallback(index: nat)
      modifies this
      ensures completeCallback == Some(index)
      ensures symbols == old(symbols) && symbolSize == old(symbolSize)
      ensures setSymbolsCalls == old(setSymbolsCalls) && bytesUsed == old(bytesUsed)
    {
      completeCallback := Some(index);
    }
  }
}
