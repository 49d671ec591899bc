/// The `payload_encoder` layer: a payload is the symbol data followed by
/// the symbol id (the coding header), so that the data starts at the
/// front of the buffer, where it is best aligned.
module PayloadEncoder {
  import opened Wrappers
  import opened SakStorage

  /// The sizes the layer reads from the layers below it: the factory's
  /// maxima and the coder's current symbol size and header size.
  class PayloadCoder {
    /// `max_symbol_size()` and `max_header_size()` of the factory.
    const maxSymbolSize: nat
    const maxHeaderSize: nat
    /// `symbol_size()` and `header_size()` of the coder.
    var symbolSize: nat
    var headerSize: nat

    /// The current sizes never exceed the factory's maxima.
    predicate Valid()
      reads this
    {
      symbolSize <= maxSymbolSize && headerSize <= maxHeaderSize
    }

    /// A coder built by the factory starts at the maximal sizes.
    constructor(maxSymbolSize: nat, maxHeaderSize: nat)
      ensures this.maxSymbolSize == maxSymbolSize && this.maxHeaderSize == maxHeaderSize
      ensures symbolSize == maxSymbolSize && headerSize == maxHeaderSize
      ensures Valid()
    {
      this.maxSymbolSize := maxSymbolSize;
      this.maxHeaderSize := maxHeaderSize;
      symbolSize := maxSymbolSize;
      headerSize := maxHeaderSize;
    }

    /// `factory_base::max_payload_size`.
    function MaxPayloadSize(): nat
    {
      maxSymbolSize + maxHeaderSize
    }

    /// `payload_size`: the symbol and a header. While the sizes fit their
    /// maxima it never exceeds the factory's maximal payload size, so a
    /// buffer of that size holds any payload of the coder.
    function PayloadSize(): (r: nat)
      reads this
      ensures symbolSize <= r
      ensures Valid() ==> r <= MaxPayloadSize()
    {
      symbolSize + headerSize
    }

    /// `encode(payload)`: the layer below writes the symbol data at the
    /// start of the payload and the symbol id right after it, returning
    /// the id's length; the layer returns all bytes used, id plus data,
    /// which never exceed the payload size.
    method Encode(payload: array<Byte>, symbolData: seq<Byte>, id: seq<Byte>) returns (used: nat)
      requires |symbolData| == symbolSize && |id| <= headerSize && PayloadSize() <= payload.Length
      modifies payload
      ensures used == symbolSize + |id| <= PayloadSize()
      ensures Valid() ==> used <= MaxPayloadSize()
      ensures payload[..symbolSize] == symbolData
      ensures payload[symbolSize..used] == id
      ensures payload[used..] == old(payload[used..])
    {
      CopyStorage(payload, 0, symbolData);
      ghost var withData := payload[..];
      CopyStorage(payload, |symbolData|, id);
      OverwriteOutside(withData, |symbolData|, id, 0, |symbolData|);
      used := |id| + |symbolData|;
    }
  }
}
