/// The `restore_partial_symbol_decoder` layer: after every decode call it
/// checks whether decoding is complete and, if the storage below holds a
/// short last symbol in its internal buffer, copies it back to the user
/// once.
module RestorePartialSymbolDecoder {
  import opened Wrappers
  import opened SakStorage
  import opened PartialShallowSymbolStorage

  class RestoreDecoder {
    /// The partial shallow storage of the same stack.
    const storage: PartialStorage
    var restored: bool

    constructor(storage: PartialStorage)
      ensures this.storage == storage && !restored
    {
      this.storage := storage;
      restored := false;
    }

    /// `initialize`: the restore may happen again.
    method Initialize()
      modifies this
      ensures !restored
    {
      restored := false;
    }

    /// `decode(payload)`, `decode_symbol(data, coefficients)` and
    /// `decode_symbol(data, index)`: the decoder below first consumes the
    /// symbol, after which it is complete or not (`complete`); then the
    /// partial symbol is restored (`restore_on_decode`) if decoding is
    /// complete, there is a partial symbol, and it has not been restored
    /// yet.
    method Decode(memory: array<Byte>, complete: bool)
      requires storage.Valid()
      requires storage.hasPartial ==> storage.partial.data.value + storage.partial.size <= memory.Length
      modifies this, memory
      ensures restored == (old(restored) || (complete && storage.hasPartial))
      ensures if complete && storage.hasPartial && !old(restored) then
          memory[..] == Overwrite(old(memory[..]), storage.partial.data.value,
            storage.internal[..storage.partial.size])
        else
          memory[..] == old(memory[..])
    {
      if !complete {
        return;
      }
      if !storage.hasPartial {
        return;
      }
      if !restored {
        restored := true;
        storage.RestorePartialSymbol(memory);
      }
    }
  }
}
