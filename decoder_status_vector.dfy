/// The `decoder_status_vector` layer: the same seen/decoded/missing
/// tri-state as `symbol_decoding_status_bitset` (its setters, queries and
/// counts are the shared `SymbolDecodingStatus.StatusBitset`), plus a
/// one-bit-per-symbol summary sent back to the encoder.
module DecoderStatusVector {
  import opened Wrappers
  import opened DynamicBitset
  import opened SymbolDecodingStatus

  class DecoderStatus {
    /// The tri-state bitsets this layer keeps.
    const status: StatusBitset

    predicate Valid()
      reads this, status
    {
      status.Valid() && status.seen.size == status.decoded.size
    }

    constructor(maxSymbols: nat)
      ensures Valid() && fresh(status) && status.Exclusive()
      ensures status.seen == Cleared(maxSymbols) && status.decoded == Cleared(maxSymbols)
    {
      status := new StatusBitset(maxSymbols);
    }

    /// `decoder_status_len`: the blocks covering `max_symbols` bits.
    function DecoderStatusLen(): nat
      reads this, status
    {
      Blocks(status.seen.size)
    }

    /// `get_decoder_status`: the blocks of `seen | decoded`.
    function GetDecoderStatus(): (r: seq<Byte>)
      reads this, status
      requires Valid()
      ensures |r| == DecoderStatusLen()
    {
      ToBlockRange(Or(status.seen, status.decoded))
    }

    /// Bit `i` of the summary is set exactly when symbol `i` is seen or
    /// decoded, that is when it is not missing; its padding is clear when
    /// both bitsets' padding is.
    lemma StatusBitIsNotMissing(i: nat)
      requires Valid() && i < status.seen.size
      ensures Unpack(GetDecoderStatus())[i] == !status.IsSymbolMissing(i)
      ensures status.seen.Clean() && status.decoded.Clean() ==>
        forall k :: status.seen.size <= k < 8 * DecoderStatusLen() ==> !Unpack(GetDecoderStatus())[k]
    {
      UnpackPack(Or(status.seen, status.decoded).bits);
    }
  }
}
