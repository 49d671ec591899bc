/// The `encoder_status_vector` layer: the encoder keeps the summary a
/// decoder sent with `get_decoder_status`, one bit per symbol the decoder
/// has seen or decoded.
module EncoderStatusVector {
  import opened Wrappers
  import opened DynamicBitset
  import opened SymbolDecodingStatus
  import opened DecoderStatusVector

  /// Under exclusivity, the set bits of `a | b` are those of `a` plus
  /// those of `b`.
  lemma {:induction false} CountOrExclusive(a: seq<bool>, b: seq<bool>, r: seq<bool>)
    requires |a| == |b| == |r|
    requires forall i :: 0 <= i < |a| ==> !(a[i] && b[i]) && r[i] == (a[i] || b[i])
    ensures Count(r) == Count(a) + Count(b)
  {
    if a != [] {
      CountOrExclusive(a[1..], b[1..], r[1..]);
    }
  }

  class EncoderStatus {
    /// `m_decoder_symbols`.
    var decoderSymbols: Bitset

    predicate Valid()
      reads this
    {
      decoderSymbols.Valid()
    }

    /// `construct`: `max_symbols` clear bits.
    constructor(maxSymbols: nat)
      ensures Valid() && decoderSymbols == Cleared(maxSymbols)
    {
      decoderSymbols := Cleared(maxSymbols);
    }

    /// `initialize`: every bit cleared.
    method Initialize()
      requires Valid()
      modifies this
      ensures Valid() && decoderSymbols == Reset(old(decoderSymbols))
      ensures DecoderSymbols() == 0
    {
      decoderSymbols := Reset(decoderSymbols);
    }

    /// `decoder_has_symbol`: bit `index`.
    predicate DecoderHasSymbol(index: nat)
      reads this
      requires Valid() && index < decoderSymbols.size
    {
      decoderSymbols.bits[index]
    }

    /// `decoder_symbols`: the population count of the bitset's blocks.
    function DecoderSymbols(): nat
      reads this
    {
      CountBits(decoderSymbols)
    }

    /// `decoder_status_len`: the blocks covering `max_symbols` bits.
    function DecoderStatusLen(): nat
      reads this
    {
      Blocks(decoderSymbols.size)
    }

    /// `set_decoder_status`: `decoder_status_len()` blocks of `data` are
    /// copied over the bitset's blocks.
    method SetDecoderStatus(data: seq<Byte>)
      requires Valid() && DecoderStatusLen() <= |data|
      modifies this
      ensures Valid() && decoderSymbols.size == old(decoderSymbols.size)
      ensures decoderSymbols == FromBlockRange(data[..DecoderStatusLen()], old(decoderSymbols))
      ensures forall i :: 0 <= i < decoderSymbols.size ==>
        (DecoderHasSymbol(i) <==> Bit(data[i / 8], i % 8))
    {
      var len := Blocks(decoderSymbols.size);
      decoderSymbols := FromBlockRange(data[..len], decoderSymbols);
      forall i | 0 <= i < decoderSymbols.size
        ensures DecoderHasSymbol(i) <==> Bit(data[i / 8], i % 8)
      {
        BlocksCover(decoderSymbols.size);
        UnpackAt(data[..len], i);
      }
    }
  }

  /// A decoder's summary read into an encoder of the same `max_symbols`:
  /// the encoder has symbol `i` exactly when the decoder saw or decoded
  /// it, and `decoder_symbols` is the decoder's seen plus decoded count.
  lemma DecoderStatusReceived(decoder: DecoderStatus, into: Bitset)
    requires decoder.Valid() && decoder.status.Exclusive()
    requires decoder.status.seen.Clean() && decoder.status.decoded.Clean()
    requires into.size == decoder.status.seen.size
    ensures forall i :: 0 <= i < into.size ==>
      FromBlockRange(decoder.GetDecoderStatus(), into).bits[i] == !decoder.status.IsSymbolMissing(i)
    ensures CountBits(FromBlockRange(decoder.GetDecoderStatus(), into)) ==
      decoder.status.SymbolsSeen() + decoder.status.SymbolsDecoded()
  {
    var seen := decoder.status.seen;
    var decoded := decoder.status.decoded;
    var both := Or(seen, decoded);
    BlockRoundTrip(both, into);
    forall i | 0 <= i < into.size
      ensures FromBlockRange(decoder.GetDecoderStatus(), into).bits[i] == !decoder.status.IsSymbolMissing(i)
    {
      decoder.StatusBitIsNotMissing(i);
    }
    CountOrExclusive(seen.bits, decoded.bits, both.bits);
  }
}
