/// The `partial_decoding_tracker` layer: after each decode it compares the
/// decoder's rank with the rank the encoder had; when they match, Gaussian
/// elimination has fully decoded every symbol the decoder has seen, so
/// those are marked decoded, and the layer reports whether any symbol
/// became decoded in this call.
module PartialDecodingTracker {
  import opened Wrappers
  import opened DynamicBitset
  import opened SymbolDecodingStatus

  class PartialTracker {
    /// The decoding status kept by the layers below.
    const status: StatusBitset
    /// `m_partial_complete`.
    var partialComplete: bool

    predicate Valid()
      reads this, status
    {
      status.Valid() && status.Exclusive() && status.symbols <= status.seen.size == status.decoded.size
    }

    /// The constructor: not partially complete.
    constructor(maxSymbols: nat)
      ensures Valid() && fresh(status) && !partialComplete
      ensures status.maxSymbols == maxSymbols && status.symbols == maxSymbols
      ensures status.seen == Cleared(maxSymbols) && status.decoded == Cleared(maxSymbols)
    {
      status := new StatusBitset(maxSymbols);
      partialComplete := false;
    }

    /// `is_partial_complete`.
    predicate IsPartialComplete()
      reads this
    {
      partialComplete
    }

    /// The stack's `initialize` as written: the layer's own reset is
    /// spelled `inititalize`, so it is never called and only the layers
    /// below are initialised; the flag keeps its old value.
    method InitializeAsWritten(symbols: nat)
      requires Valid() && symbols <= status.maxSymbols && symbols <= status.seen.size
      modifies status
      ensures Valid() && status.symbols == symbols
      ensures status.seen == Reset(old(status.seen)) && status.decoded == Reset(old(status.decoded))
      ensures partialComplete == old(partialComplete)
    {
      status.Initialize(symbols);
    }

    /// `initialize` as intended: the layers below are initialised and the
    /// flag is cleared.
    method Initialize(symbols: nat)
      requires Valid() && symbols <= status.maxSymbols && symbols <= status.seen.size
      modifies this, status
      ensures Valid() && status.symbols == symbols && !IsPartialComplete()
      ensures status.seen == Reset(old(status.seen)) && status.decoded == Reset(old(status.decoded))
    {
      status.Initialize(symbols);
      partialComplete := false;
    }

    /// `decode`: the layers below decode the payload, leaving the status
    /// `lowerSeen`/`lowerDecoded`, the decoder's `rank` and the encoder's
    /// `seenEncoderRank`. If the ranks match, every seen symbol of the
    /// block is marked decoded. The layer then reports whether the decoded
    /// count rose; the source asserts it did not fall, which the layers
    /// below guarantee by never undoing a decoded symbol.
    method Decode(lowerSeen: Bitset, lowerDecoded: Bitset, rank: nat, seenEncoderRank: nat)
      requires Valid()
      requires lowerSeen.Valid() && lowerDecoded.Valid()
      requires lowerSeen.size == status.seen.size && lowerDecoded.size == status.decoded.size
      requires forall i :: 0 <= i < |lowerSeen.bits| ==> !(lowerSeen.bits[i] && lowerDecoded.bits[i])
      requires CountBits(lowerDecoded) >= status.SymbolsDecoded()
      modifies this, status
      ensures Valid() && status.symbols == old(status.symbols)
      ensures status.seen.size == lowerSeen.size && status.decoded.size == lowerDecoded.size
      ensures status.SymbolsDecoded() >= old(status.SymbolsDecoded())
      ensures IsPartialComplete() <==> status.SymbolsDecoded() > old(status.SymbolsDecoded())
      ensures rank != seenEncoderRank ==> status.seen == lowerSeen && status.decoded == lowerDecoded
      ensures rank == seenEncoderRank ==> forall i :: 0 <= i < status.symbols ==>
        !status.IsSymbolSeen(i) && (status.IsSymbolDecoded(i) <==> lowerSeen.bits[i] || lowerDecoded.bits[i])
      ensures forall i :: status.symbols <= i < |status.seen.bits| ==>
        status.seen.bits[i] == lowerSeen.bits[i] && status.decoded.bits[i] == lowerDecoded.bits[i]
    {
      var symbolsDecoded := status.SymbolsDecoded();
      status.seen := lowerSeen;
      status.decoded := lowerDecoded;
      if rank == seenEncoderRank {
        var i := 0;
        while i < status.symbols
          invariant Valid() && 0 <= i <= status.symbols == old(status.symbols)
          invariant status.seen.size == lowerSeen.size && status.decoded.size == lowerDecoded.size
          invariant status.SymbolsDecoded() >= symbolsDecoded
          invariant forall k :: 0 <= k < i ==>
            !status.seen.bits[k] && (status.decoded.bits[k] <==> lowerSeen.bits[k] || lowerDecoded.bits[k])
          invariant forall k :: i <= k < |status.seen.bits| ==>
            status.seen.bits[k] == lowerSeen.bits[k] && status.decoded.bits[k] == lowerDecoded.bits[k]
        {
          if status.IsSymbolSeen(i) {
            CountSetTrue(status.decoded.bits, i);
            status.SetSymbolDecoded(i);
          }
          i := i + 1;
        }
      }
      partialComplete := status.SymbolsDecoded() > symbolsDecoded;
    }
  }

  /// A decode that completes a symbol, followed by the stack's
  /// `initialize` as written, leaves the new block reported as partially
  /// complete; the intended `initialize` reports it as not.
  method InitializeKeepsStaleFlag() returns (asWritten: bool, intended: bool)
    ensures asWritten && !intended
  {
    var tracker := new PartialTracker(1);
    var seenOne := Bitset([true] + Repeat(false, 7), 1);
    CountAllFalse(Repeat(false, 8));
    tracker.Decode(seenOne, Cleared(1), 1, 1);
    assert tracker.status.decoded.bits[0];
    assert tracker.status.decoded.bits == [true] + tracker.status.decoded.bits[1..];
    CountAllFalse(tracker.status.decoded.bits[1..]);
    tracker.InitializeAsWritten(1);
    asWritten := tracker.IsPartialComplete();
    tracker.Initialize(1);
    intended := tracker.IsPartialComplete();
  }
}
