/// The `payload_rank_writer` layer: the encoder's rank is written in
/// front of the payload, so the payload grows by the size of a rank.
module PayloadRankWriter {
  import opened Wrappers
  import opened SakStorage
  import PayloadEncoder

  /// `sizeof(rank_type)`: ranks are 32-bit unsigned integers.
  const RANK_SIZE: nat := 4

  /// `factory::max_payload_size`: the lower maximum plus a rank.
  function MaxPayloadSize(lower: PayloadEncoder.PayloadCoder): nat
  {
    lower.MaxPayloadSize() + RANK_SIZE
  }

  /// `payload_size`: the lower payload size plus a rank. It always holds
  /// a rank and a whole symbol, and while the lower sizes fit their
  /// maxima it stays within the stack's maximal payload size.
  function PayloadSize(lower: PayloadEncoder.PayloadCoder): (r: nat)
    reads lower
    ensures RANK_SIZE + lower.symbolSize <= r
    ensures lower.Valid() ==> r <= MaxPayloadSize(lower)
  {
    lower.PayloadSize() + RANK_SIZE
  }

  /// `write_rank`: the layer below writes the rank at the start of the
  /// payload and must report exactly a rank's worth of bytes.
  method WriteRank(payload: array<Byte>, rankBytes: seq<Byte>) returns (written: nat)
    requires |rankBytes| == RANK_SIZE <= payload.Length
    modifies payload
    ensures written == RANK_SIZE
    ensures payload[..RANK_SIZE] == rankBytes
    ensures payload[RANK_SIZE..] == old(payload[RANK_SIZE..])
  {
    CopyStorage(payload, 0, rankBytes);
    written := |rankBytes|;
  }
}
