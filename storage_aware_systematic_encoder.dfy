/// The `storage_aware_systematic_encoder` layer: while fewer symbols have
/// been sent uncoded than the encoder holds, it sends, uncoded, the lowest
/// symbol that is in storage and has not been sent uncoded yet; otherwise
/// it sends a coded symbol.
module StorageAwareSystematicEncoder {
  import opened Wrappers

  /// Symbol `i` is in storage and not yet sent uncoded.
  predicate Available(sent: seq<bool>, stored: seq<bool>, i: nat)
    requires |sent| == |stored| && i < |sent|
  {
    !sent[i] && stored[i]
  }

  /// `(~sent & stored).find_first()`, searching from index `from`.
  function FindFirstAvailable(sent: seq<bool>, stored: seq<bool>, from: nat): (r: Option<nat>)
    requires |sent| == |stored| && from <= |sent|
    decreases |sent| - from
    ensures r.Some? ==> from <= r.value < |sent| && Available(sent, stored, r.value)
    ensures r.Some? ==> forall j :: from <= j < r.value ==> !Available(sent, stored, j)
    ensures r.None? <==> forall j :: from <= j < |sent| ==> !Available(sent, stored, j)
  {
    if from == |sent| then None
    else if Available(sent, stored, from) then Some(from)
    else FindFirstAvailable(sent, stored, from + 1)
  }

  /// How `encode` sends the next symbol.
  datatype Encoded = NonSystematic | Systematic(index: nat)

  /// Every symbol sent uncoded is in storage, and the rank counts the
  /// stored symbols: then, in the systematic phase, a symbol is always
  /// left to send.
  lemma {:induction false} SomeSymbolLeft(sent: seq<bool>, stored: seq<bool>)
    requires |sent| == |stored|
    requires forall i :: 0 <= i < |sent| && sent[i] ==> stored[i]
    requires Count(sent) < Count(stored)
    ensures exists i :: 0 <= i < |sent| && Available(sent, stored, i)
  {
    if Available(sent, stored, 0) {
    } else {
      SomeSymbolLeft(sent[1..], stored[1..]);
      var i :| 0 <= i < |sent| - 1 && Available(sent[1..], stored[1..], i);
      assert Available(sent, stored, i + 1);
    }
  }

  class SystematicEncoder {
    /// `m_systematic_symbols`: the symbols already sent uncoded.
    var sent: seq<bool>

    /// `construct`: `max_symbols` symbols, none sent.
    constructor(maxSymbols: nat)
      ensures sent == Repeat(false, maxSymbols)
    {
      sent := Repeat(false, maxSymbols);
    }

    /// `initialize`: no symbol sent uncoded.
    method Initialize()
      modifies this
      ensures sent == Repeat(false, |old(sent)|) && Count(sent) == 0
    {
      sent := Repeat(false, |sent|);
      CountAllFalse(sent);
    }

    /// The systematic phase: fewer symbols sent uncoded than the rank.
    predicate InSystematicPhase(rank: nat)
      reads this
    {
      Count(sent) < rank
    }

    /// `encode`, given the layers below' `is_systematic_on()`, `rank()`
    /// and storage status. The source indexes the found symbol without a
    /// check, so in the systematic phase one must be available.
    method Encode(systematicOn: bool, rank: nat, stored: seq<bool>) returns (r: Encoded)
      requires |stored| == |sent|
      requires systematicOn && InSystematicPhase(rank) ==>
        exists i :: 0 <= i < |sent| && Available(sent, stored, i)
      modifies this
      ensures |sent| == |old(sent)|
      ensures !systematicOn || !old(InSystematicPhase(rank)) ==> r == NonSystematic && sent == old(sent)
      ensures systematicOn && old(InSystematicPhase(rank)) ==>
        r.Systematic? && r.index < |sent| && Available(old(sent), stored, r.index) &&
        (forall j :: 0 <= j < r.index ==> !Available(old(sent), stored, j)) &&
        sent == old(sent)[r.index := true] && Count(sent) == old(Count(sent)) + 1
    {
      if !systematicOn || !InSystematicPhase(rank) {
        return NonSystematic;
      }
      var next := FindFirstAvailable(sent, stored, 0);
      CountSetTrue(sent, next.value);
      sent := sent[next.value := true];
      r := Systematic(next.value);
    }
  }

  /// `encode` keeps every symbol sent uncoded in storage, so with the
  /// rank counting the stored symbols no symbol is ever sent uncoded
  /// twice and the phase ends after exactly `rank` uncoded symbols.
  lemma SendKeepsSentStored(sent: seq<bool>, stored: seq<bool>, i: nat)
    requires |sent| == |stored| && i < |sent| && Available(sent, stored, i)
    requires forall k :: 0 <= k < |sent| && sent[k] ==> stored[k]
    ensures forall k :: 0 <= k < |sent| && sent[i := true][k] ==> stored[k]
    ensures Count(sent[i := true]) == Count(sent) + 1 <= Count(stored)
  {
    CountSetTrue(sent, i);
    CountSubset(sent[i := true], stored);
  }
}
