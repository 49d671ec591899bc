/// The `fulcrum_two_stage_decoder` layer. A coded inner symbol goes to
/// the stage-one decoder, which eliminates the expansion part of the
/// coefficients; if that adds no rank, the reduced symbol goes to the
/// stage-two decoder over all inner symbols. Once the two ranks together
/// reach the number of source symbols, every pivot row of either stage
/// not yet handed over is mapped to the outer code and decoded there,
/// stage two first. The stage decoders are modelled by their pivot flags
/// (their rank is the number of pivots) and the outer decoder by the
/// sequence of symbols handed to it.
module FulcrumTwoStageDecoder {
  import opened Wrappers

  /// A symbol handed to the outer decoder: a systematic source symbol, or
  /// a pivot row of stage one or stage two mapped to the outer code.
  datatype Delivery = Systematic(index: nat) | FromStageOne(index: nat) | FromStageTwo(index: nat)

  /// Factory `build_stage_one`: the stage-one decoder has `expansion`
  /// symbols and eliminates from coefficient offset `symbols`.
  function StageOneSymbols(symbols: nat, expansion: nat): nat
  {
    expansion
  }

  function StageOneOffset(symbols: nat, expansion: nat): nat
  {
    symbols
  }

  /// Factory `build_stage_two`: the stage-two decoder has all
  /// `symbols + expansion` inner symbols.
  function StageTwoSymbols(symbols: nat, expansion: nat): nat
  {
    symbols + expansion
  }

  /// Both stage factories are built for `max_expansion + max_symbols`
  /// symbols; the stage-one decoder's coefficients are exactly the
  /// expansion part of the stage-two decoder's, and both fit their
  /// factories whenever the symbols and the expansion fit theirs.
  lemma StageDecodersFit(symbols: nat, expansion: nat, maxSymbols: nat, maxExpansion: nat)
    requires symbols <= maxSymbols && expansion <= maxExpansion
    ensures StageOneOffset(symbols, expansion) + StageOneSymbols(symbols, expansion) == StageTwoSymbols(symbols, expansion)
    ensures StageTwoSymbols(symbols, expansion) <= maxExpansion + maxSymbols
    ensures StageOneSymbols(symbols, expansion) <= maxExpansion
    ensures StageTwoSymbols(symbols, expansion) - StageOneOffset(symbols, expansion) == expansion
  {
  }

  /// The copied flags once the first `n` rows are handed over: a pivot
  /// row is marked copied, every other flag is kept.
  function Marked(copied: seq<bool>, pivot: seq<bool>, n: nat): (r: seq<bool>)
    requires n <= |copied| && n <= |pivot|
    ensures |r| == |copied|
    ensures forall i :: 0 <= i < n ==> (r[i] <==> copied[i] || pivot[i])
    ensures forall i :: n <= i < |copied| ==> r[i] == copied[i]
  {
    seq(|copied|, i requires 0 <= i < |copied| => if i < n then copied[i] || pivot[i] else copied[i])
  }

  /// A pivot row of stage one or of stage two.
  function Row(stageOne: bool, i: nat): Delivery
  {
    if stageOne then FromStageOne(i) else FromStageTwo(i)
  }

  /// The rows among the first `n` that are pivots and not yet copied, in
  /// increasing order: what one pass of `check_combined_rank` hands over.
  function Pending(stageOne: bool, pivot: seq<bool>, copied: seq<bool>, n: nat): seq<Delivery>
    requires n <= |pivot| && n <= |copied|
  {
    if n == 0 then []
    else Pending(stageOne, pivot, copied, n - 1) + (if pivot[n - 1] && !copied[n - 1] then [Row(stageOne, n - 1)] else [])
  }

  /// Exactly the pivot rows not yet copied are pending.
  lemma {:induction false} PendingRows(stageOne: bool, pivot: seq<bool>, copied: seq<bool>, n: nat, i: nat)
    requires n <= |pivot| && n <= |copied|
    ensures Row(stageOne, i) in Pending(stageOne, pivot, copied, n) <==> i < n && pivot[i] && !copied[i]
  {
    if n > 0 {
      PendingRows(stageOne, pivot, copied, n - 1, i);
    }
  }

  /// No stage row reaches the outer decoder twice (a systematic symbol
  /// may arrive again if it is received again).
  predicate NoRowTwice(log: seq<Delivery>)
  {
    forall a, b :: 0 <= a < b < |log| && !log[a].Systematic? ==> log[a] != log[b]
  }

  lemma AppendNewRow(log: seq<Delivery>, d: Delivery)
    requires NoRowTwice(log) && d !in log
    ensures NoRowTwice(log + [d])
  {
    forall a, b | 0 <= a < b < |log| + 1 && !(log + [d])[a].Systematic?
      ensures (log + [d])[a] != (log + [d])[b]
    {
      if b == |log| {
        assert log[a] in log;
      }
    }
  }

  /// A delivered symbol is a source symbol or a stage row marked copied.
  predicate Recorded(symbols: nat, expansion: nat, oneCopied: seq<bool>, twoCopied: seq<bool>, d: Delivery)
    requires expansion <= |oneCopied| && symbols + expansion <= |twoCopied|
  {
    match d
    case Systematic(i) => i < symbols
    case FromStageOne(i) => i < expansion && oneCopied[i]
    case FromStageTwo(i) => i < symbols + expansion && twoCopied[i]
  }

  /// The hand-over bookkeeping: a row is marked copied only if it is a
  /// pivot and was handed to the outer decoder (a stage-two row of a
  /// source symbol also when that symbol arrived systematic), every
  /// handed row is marked, and no row is handed over twice.
  predicate Bookkept(symbols: nat, expansion: nat, onePivot: seq<bool>, twoPivot: seq<bool>,
                     oneCopied: seq<bool>, twoCopied: seq<bool>, log: seq<Delivery>)
    requires |onePivot| == expansion <= |oneCopied| && |twoPivot| == symbols + expansion <= |twoCopied|
  {
    (forall i :: 0 <= i < expansion && oneCopied[i] ==> onePivot[i] && FromStageOne(i) in log) &&
    (forall i :: 0 <= i < symbols + expansion && twoCopied[i] ==>
      twoPivot[i] && (FromStageTwo(i) in log || Systematic(i) in log)) &&
    (forall k :: 0 <= k < |log| ==> Recorded(symbols, expansion, oneCopied, twoCopied, log[k])) &&
    NoRowTwice(log)
  }

  /// Handing over a stage-two pivot row not yet copied keeps the
  /// bookkeeping.
  lemma HandOverStageTwo(symbols: nat, expansion: nat, onePivot: seq<bool>, twoPivot: seq<bool>,
                         oneCopied: seq<bool>, twoCopied: seq<bool>, log: seq<Delivery>, i: nat)
    requires |onePivot| == expansion <= |oneCopied| && |twoPivot| == symbols + expansion <= |twoCopied|
    requires Bookkept(symbols, expansion, onePivot, twoPivot, oneCopied, twoCopied, log)
    requires i < symbols + expansion && twoPivot[i] && !twoCopied[i]
    ensures Bookkept(symbols, expansion, onePivot, twoPivot, oneCopied, twoCopied[i := true], log + [FromStageTwo(i)])
  {
    var log' := log + [FromStageTwo(i)];
    var twoCopied' := twoCopied[i := true];
    forall k | 0 <= k < |log|
      ensures log[k] != FromStageTwo(i)
    {
      assert Recorded(symbols, expansion, oneCopied, twoCopied, log[k]);
    }
    AppendNewRow(log, FromStageTwo(i));
    assert forall d :: d in log ==> d in log';
    assert forall k :: 0 <= k < |log| ==> log'[k] == log[k];
    assert forall k :: 0 <= k < |log'| ==> Recorded(symbols, expansion, oneCopied, twoCopied', log'[k]) by {
      forall k | 0 <= k < |log'|
        ensures Recorded(symbols, expansion, oneCopied, twoCopied', log'[k])
      {
        if k < |log| {
          assert Recorded(symbols, expansion, oneCopied, twoCopied, log[k]);
        }
      }
    }
  }

  /// Handing over a stage-one pivot row not yet copied keeps the
  /// bookkeeping.
  lemma HandOverStageOne(symbols: nat, expansion: nat, onePivot: seq<bool>, twoPivot: seq<bool>,
                         oneCopied: seq<bool>, twoCopied: seq<bool>, log: seq<Delivery>, i: nat)
    requires |onePivot| == expansion <= |oneCopied| && |twoPivot| == symbols + expansion <= |twoCopied|
    requires Bookkept(symbols, expansion, onePivot, twoPivot, oneCopied, twoCopied, log)
    requires i < expansion && onePivot[i] && !oneCopied[i]
    ensures Bookkept(symbols, expansion, onePivot, twoPivot, oneCopied[i := true], twoCopied, log + [FromStageOne(i)])
  {
    var log' := log + [FromStageOne(i)];
    var oneCopied' := oneCopied[i := true];
    forall k | 0 <= k < |log|
      ensures log[k] != FromStageOne(i)
    {
      assert Recorded(symbols, expansion, oneCopied, twoCopied, log[k]);
    }
    AppendNewRow(log, FromStageOne(i));
    assert forall d :: d in log ==> d in log';
    assert forall k :: 0 <= k < |log| ==> log'[k] == log[k];
    assert forall k :: 0 <= k < |log'| ==> Recorded(symbols, expansion, oneCopied', twoCopied, log'[k]) by {
      forall k | 0 <= k < |log'|
        ensures Recorded(symbols, expansion, oneCopied', twoCopied, log'[k])
      {
        if k < |log| {
          assert Recorded(symbols, expansion, oneCopied, twoCopied, log[k]);
        }
      }
    }
  }

  /// A systematic source symbol, marked in its stage-two row, keeps the
  /// bookkeeping.
  lemma SystematicKeeps(symbols: nat, expansion: nat, onePivot: seq<bool>, twoPivot: seq<bool>,
                        oneCopied: seq<bool>, twoCopied: seq<bool>, log: seq<Delivery>, index: nat)
    requires |onePivot| == expansion <= |oneCopied| && |twoPivot| == symbols + expansion <= |twoCopied|
    requires Bookkept(symbols, expansion, onePivot, twoPivot, oneCopied, twoCopied, log)
    requires index < symbols + expansion
    ensures index < symbols ==>
      Bookkept(symbols, expansion, onePivot, twoPivot[index := true], oneCopied, twoCopied[index := true], log + [Systematic(index)])
    ensures index >= symbols ==> Bookkept(symbols, expansion, onePivot, twoPivot[index := true], oneCopied, twoCopied, log)
  {
    if index < symbols {
      var log' := log + [Systematic(index)];
      var twoCopied' := twoCopied[index := true];
      assert NoRowTwice(log') by {
        forall a, b | 0 <= a < b < |log'| && !log'[a].Systematic?
          ensures log'[a] != log'[b]
        {
        }
      }
      assert forall d :: d in log ==> d in log';
      assert forall k :: 0 <= k < |log| ==> log'[k] == log[k];
      assert forall k :: 0 <= k < |log'| ==> Recorded(symbols, expansion, oneCopied, twoCopied', log'[k]) by {
        forall k | 0 <= k < |log'|
          ensures Recorded(symbols, expansion, oneCopied, twoCopied', log'[k])
        {
          if k < |log| {
            assert Recorded(symbols, expansion, oneCopied, twoCopied, log[k]);
          }
        }
      }
    }
  }

  class TwoStageDecoder {
    const maxSymbols: nat
    const maxExpansion: nat
    /// `symbols()` and `expansion()` of the layers below.
    var symbols: nat
    var expansion: nat
    /// The pivot flags of the stage-one and the stage-two decoders.
    var stageOnePivot: seq<bool>
    var stageTwoPivot: seq<bool>
    /// `m_stage_one_decoder_copied`, `m_stage_two_decoder_copied`.
    var stageOneCopied: seq<bool>
    var stageTwoCopied: seq<bool>
    /// The symbols handed to the outer decoder since `initialize`.
    var delivered: seq<Delivery>

    /// The sizes: each copied vector has its `construct` size, each stage
    /// its `initialize` size.
    predicate Shape()
      reads this
    {
      expansion <= maxExpansion && symbols <= maxSymbols &&
      |stageOnePivot| == expansion && |stageTwoPivot| == symbols + expansion &&
      |stageOneCopied| == maxExpansion && |stageTwoCopied| == maxExpansion + maxSymbols
    }

    /// The bookkeeping of the hand-over holds.
    predicate Valid()
      reads this
    {
      Shape() && Bookkept(symbols, expansion, stageOnePivot, stageTwoPivot, stageOneCopied, stageTwoCopied, delivered)
    }

    /// The stage ranks together.
    function CombinedRank(): nat
      reads this
    {
      Count(stageOnePivot) + Count(stageTwoPivot)
    }

    /// Every pivot row of both stages has reached the outer decoder.
    predicate AllPivotsDelivered()
      reads this
      requires Shape()
    {
      (forall i :: 0 <= i < expansion && stageOnePivot[i] ==> FromStageOne(i) in delivered) &&
      (forall i :: 0 <= i < symbols + expansion && stageTwoPivot[i] ==>
        FromStageTwo(i) in delivered || Systematic(i) in delivered)
    }

    /// `construct`: the copied vectors sized for `max_expansion` and for
    /// `max_expansion + max_symbols` rows.
    constructor(maxSymbols: nat, maxExpansion: nat)
      ensures Valid() && this.maxSymbols == maxSymbols && this.maxExpansion == maxExpansion
      ensures symbols == 0 && expansion == 0 && delivered == []
    {
      this.maxSymbols := maxSymbols;
      this.maxExpansion := maxExpansion;
      symbols := 0;
      expansion := 0;
      stageOnePivot := [];
      stageTwoPivot := [];
      stageOneCopied := Repeat(false, maxExpansion);
      stageTwoCopied := Repeat(false, maxExpansion + maxSymbols);
      delivered := [];
    }

    /// `initialize`: fresh stage decoders with no pivots, and the first
    /// `expansion` and `symbols + expansion` copied flags cleared.
    method Initialize(symbols: nat, expansion: nat)
      requires Shape() && symbols <= maxSymbols && expansion <= maxExpansion
      modifies this
      ensures Valid() && this.symbols == symbols && this.expansion == expansion
      ensures stageOnePivot == Repeat(false, expansion) && stageTwoPivot == Repeat(false, symbols + expansion)
      ensures stageOneCopied == Repeat(false, expansion) + old(stageOneCopied)[expansion..]
      ensures stageTwoCopied == Repeat(false, symbols + expansion) + old(stageTwoCopied)[symbols + expansion..]
      ensures delivered == [] && CombinedRank() == 0
    {
      this.symbols := symbols;
      this.expansion := expansion;
      stageOnePivot := Repeat(false, expansion);
      stageTwoPivot := Repeat(false, symbols + expansion);
      stageOneCopied := Repeat(false, expansion) + stageOneCopied[expansion..];
      stageTwoCopied := Repeat(false, symbols + expansion) + stageTwoCopied[symbols + expansion..];
      delivered := [];
      CountAllFalse(stageOnePivot);
      CountAllFalse(stageTwoPivot);
    }

    /// One step of the first loop of `check_combined_rank`: stage-two
    /// row `i`, if a pivot not yet copied, is marked and handed over.
    method HandOverTwo(i: nat, ghost copied0: seq<bool>, ghost log0: seq<Delivery>)
      requires Shape() && i < symbols + expansion && |copied0| == |stageTwoCopied|
      requires stageTwoCopied == Marked(copied0, stageTwoPivot, i)
      requires delivered == log0 + Pending(false, stageTwoPivot, copied0, i)
      modifies this
      ensures Shape() && symbols == old(symbols) && expansion == old(expansion)
      ensures stageOnePivot == old(stageOnePivot) && stageTwoPivot == old(stageTwoPivot)
      ensures stageOneCopied == old(stageOneCopied)
      ensures stageTwoCopied == Marked(copied0, stageTwoPivot, i + 1)
      ensures delivered == log0 + Pending(false, stageTwoPivot, copied0, i + 1)
      ensures old(Valid()) ==> Valid()
    {
      if stageTwoPivot[i] && !stageTwoCopied[i] {
        if Valid() {
          HandOverStageTwo(symbols, expansion, stageOnePivot, stageTwoPivot, stageOneCopied, stageTwoCopied, delivered, i);
        }
        stageTwoCopied := stageTwoCopied[i := true];
        delivered := delivered + [FromStageTwo(i)];
      }
      assert stageTwoCopied == Marked(copied0, stageTwoPivot, i + 1);
    }

    /// The first loop of `check_combined_rank`: every stage-two pivot row
    /// not yet copied is marked and handed over, in increasing order.
    method MapStageTwo()
      requires Shape()
      modifies this
      ensures Shape() && symbols == old(symbols) && expansion == old(expansion)
      ensures stageOnePivot == old(stageOnePivot) && stageTwoPivot == old(stageTwoPivot)
      ensures stageOneCopied == old(stageOneCopied)
      ensures stageTwoCopied == Marked(old(stageTwoCopied), stageTwoPivot, symbols + expansion)
      ensures delivered == old(delivered) + Pending(false, stageTwoPivot, old(stageTwoCopied), symbols + expansion)
      ensures old(Valid()) ==> Valid()
    {
      ghost var valid0 := Valid();
      ghost var copied0 := stageTwoCopied;
      ghost var log0 := delivered;
      var i := 0;
      assert stageTwoCopied == Marked(copied0, stageTwoPivot, 0);
      while i < symbols + expansion
        invariant 0 <= i <= symbols + expansion && Shape()
        invariant symbols == old(symbols) && expansion == old(expansion)
        invariant stageOnePivot == old(stageOnePivot) && stageTwoPivot == old(stageTwoPivot)
        invariant stageOneCopied == old(stageOneCopied)
        invariant stageTwoCopied == Marked(copied0, stageTwoPivot, i)
        invariant delivered == log0 + Pending(false, stageTwoPivot, copied0, i)
        invariant valid0 ==> Valid()
      {
        HandOverTwo(i, copied0, log0);
        i := i + 1;
      }
    }

    /// One step of the second loop of `check_combined_rank`.
    method HandOverOne(i: nat, ghost copied0: seq<bool>, ghost log0: seq<Delivery>)
      requires Shape() && i < expansion && |copied0| == |stageOneCopied|
      requires stageOneCopied == Marked(copied0, stageOnePivot, i)
      requires delivered == log0 + Pending(true, stageOnePivot, copied0, i)
      modifies this
      ensures Shape() && symbols == old(symbols) && expansion == old(expansion)
      ensures stageOnePivot == old(stageOnePivot) && stageTwoPivot == old(stageTwoPivot)
      ensures stageTwoCopied == old(stageTwoCopied)
      ensures stageOneCopied == Marked(copied0, stageOnePivot, i + 1)
      ensures delivered == log0 + Pending(true, stageOnePivot, copied0, i + 1)
      ensures old(Valid()) ==> Valid()
    {
      if stageOnePivot[i] && !stageOneCopied[i] {
        if Valid() {
          HandOverStageOne(symbols, expansion, stageOnePivot, stageTwoPivot, stageOneCopied, stageTwoCopied, delivered, i);
        }
        stageOneCopied := stageOneCopied[i := true];
        delivered := delivered + [FromStageOne(i)];
      }
      assert stageOneCopied == Marked(copied0, stageOnePivot, i + 1);
    }

    /// The second loop of `check_combined_rank`, over the stage-one rows.
    method MapStageOne()
      requires Shape()
      modifies this
      ensures Shape() && symbols == old(symbols) && expansion == old(expansion)
      ensures stageOnePivot == old(stageOnePivot) && stageTwoPivot == old(stageTwoPivot)
      ensures stageTwoCopied == old(stageTwoCopied)
      ensures stageOneCopied == Marked(old(stageOneCopied), stageOnePivot, expansion)
      ensures delivered == old(delivered) + Pending(true, stageOnePivot, old(stageOneCopied), expansion)
      ensures old(Valid()) ==> Valid()
    {
      ghost var valid0 := Valid();
      ghost var copied0 := stageOneCopied;
      ghost var log0 := delivered;
      var i := 0;
      assert stageOneCopied == Marked(copied0, stageOnePivot, 0);
      while i < expansion
        invariant 0 <= i <= expansion && Shape()
        invariant symbols == old(symbols) && expansion == old(expansion)
        invariant stageOnePivot == old(stageOnePivot) && stageTwoPivot == old(stageTwoPivot)
        invariant stageTwoCopied == old(stageTwoCopied)
        invariant stageOneCopied == Marked(copied0, stageOnePivot, i)
        invariant delivered == log0 + Pending(true, stageOnePivot, copied0, i)
        invariant valid0 ==> Valid()
      {
        HandOverOne(i, copied0, log0);
        i := i + 1;
      }
    }

    /// `check_combined_rank`: nothing while the stage ranks together are
    /// below the number of source symbols; otherwise the pending rows of
    /// stage two and then of stage one are handed over, after which, if
    /// the bookkeeping held, every pivot row of both stages has reached
    /// the outer decoder.
    method CheckCombinedRank()
      requires Shape()
      modifies this
      ensures Shape() && symbols == old(symbols) && expansion == old(expansion)
      ensures stageOnePivot == old(stageOnePivot) && stageTwoPivot == old(stageTwoPivot)
      ensures CombinedRank() < symbols ==>
        stageOneCopied == old(stageOneCopied) && stageTwoCopied == old(stageTwoCopied) && delivered == old(delivered)
      ensures CombinedRank() >= symbols ==>
        stageTwoCopied == Marked(old(stageTwoCopied), stageTwoPivot, symbols + expansion) &&
        stageOneCopied == Marked(old(stageOneCopied), stageOnePivot, expansion) &&
        delivered == old(delivered) + Pending(false, stageTwoPivot, old(stageTwoCopied), symbols + expansion)
                                    + Pending(true, stageOnePivot, old(stageOneCopied), expansion)
      ensures old(Valid()) ==> Valid()
      ensures old(Valid()) && CombinedRank() >= symbols ==> AllPivotsDelivered()
    {
      if CombinedRank() < symbols {
        return;
      }
      MapStageTwo();
      MapStageOne();
    }

    /// The stage-one decoder gains pivot row `p`: the combined rank is
    /// checked.
    method AddStageOnePivot(p: nat)
      requires Shape() && p < expansion && !stageOnePivot[p]
      modifies this
      ensures stageOnePivot == old(stageOnePivot)[p := true] && stageTwoPivot == old(stageTwoPivot)
      ensures Shape() && symbols == old(symbols) && expansion == old(expansion)
      ensures CombinedRank() == old(CombinedRank()) + 1
      ensures CombinedRank() < symbols ==>
        stageOneCopied == old(stageOneCopied) && stageTwoCopied == old(stageTwoCopied) && delivered == old(delivered)
      ensures CombinedRank() >= symbols ==>
        stageTwoCopied == Marked(old(stageTwoCopied), stageTwoPivot, symbols + expansion) &&
        stageOneCopied == Marked(old(stageOneCopied), stageOnePivot, expansion) &&
        delivered == old(delivered) + Pending(false, stageTwoPivot, old(stageTwoCopied), symbols + expansion)
                                    + Pending(true, stageOnePivot, old(stageOneCopied), expansion)
      ensures old(Valid()) ==> Valid()
      ensures old(Valid()) && CombinedRank() >= symbols ==> AllPivotsDelivered()
    {
      CountSetTrue(stageOnePivot, p);
      stageOnePivot := stageOnePivot[p := true];
      CheckCombinedRank();
    }

    /// The stage-two decoder gains pivot row `q`: the combined rank is
    /// checked.
    method AddStageTwoPivot(q: nat)
      requires Shape() && q < symbols + expansion && !stageTwoPivot[q]
      modifies this
      ensures stageOnePivot == old(stageOnePivot) && stageTwoPivot == old(stageTwoPivot)[q := true]
      ensures Shape() && symbols == old(symbols) && expansion == old(expansion)
      ensures CombinedRank() == old(CombinedRank()) + 1
      ensures CombinedRank() < symbols ==>
        stageOneCopied == old(stageOneCopied) && stageTwoCopied == old(stageTwoCopied) && delivered == old(delivered)
      ensures CombinedRank() >= symbols ==>
        stageTwoCopied == Marked(old(stageTwoCopied), stageTwoPivot, symbols + expansion) &&
        stageOneCopied == Marked(old(stageOneCopied), stageOnePivot, expansion) &&
        delivered == old(delivered) + Pending(false, stageTwoPivot, old(stageTwoCopied), symbols + expansion)
                                    + Pending(true, stageOnePivot, old(stageOneCopied), expansion)
      ensures old(Valid()) ==> Valid()
      ensures old(Valid()) && CombinedRank() >= symbols ==> AllPivotsDelivered()
    {
      CountSetTrue(stageTwoPivot, q);
      stageTwoPivot := stageTwoPivot[q := true];
      CheckCombinedRank();
    }

    /// `decode_symbol(data, coefficients)`, given whether the symbol
    /// gives the stage-one decoder a new pivot, and if not whether the
    /// reduced symbol gives the stage-two decoder one. A new pivot row
    /// triggers the combined rank check; a symbol that adds no rank
    /// changes nothing.
    method DecodeCoded(stageOneNew: Option<nat>, stageTwoNew: Option<nat>)
      requires Shape()
      requires stageOneNew.Some? ==> stageOneNew.value < expansion && !stageOnePivot[stageOneNew.value]
      requires stageTwoNew.Some? ==> stageTwoNew.value < symbols + expansion && !stageTwoPivot[stageTwoNew.value]
      modifies this
      ensures Shape() && symbols == old(symbols) && expansion == old(expansion)
      ensures stageOneNew.Some? ==>
        stageOnePivot == old(stageOnePivot)[stageOneNew.value := true] && stageTwoPivot == old(stageTwoPivot)
      ensures stageOneNew.None? && stageTwoNew.Some? ==>
        stageOnePivot == old(stageOnePivot) && stageTwoPivot == old(stageTwoPivot)[stageTwoNew.value := true]
      ensures stageOneNew.None? && stageTwoNew.None? ==>
        stageOnePivot == old(stageOnePivot) && stageTwoPivot == old(stageTwoPivot) &&
        stageOneCopied == old(stageOneCopied) && stageTwoCopied == old(stageTwoCopied) && delivered == old(delivered)
      ensures stageOneNew.Some? || stageTwoNew.Some? ==> CombinedRank() == old(CombinedRank()) + 1
      ensures (stageOneNew.Some? || stageTwoNew.Some?) && CombinedRank() < symbols ==>
        stageOneCopied == old(stageOneCopied) && stageTwoCopied == old(stageTwoCopied) && delivered == old(delivered)
      ensures (stageOneNew.Some? || stageTwoNew.Some?) && CombinedRank() >= symbols ==>
        stageTwoCopied == Marked(old(stageTwoCopied), stageTwoPivot, symbols + expansion) &&
        stageOneCopied == Marked(old(stageOneCopied), stageOnePivot, expansion) &&
        delivered == old(delivered) + Pending(false, stageTwoPivot, old(stageTwoCopied), symbols + expansion)
                                    + Pending(true, stageOnePivot, old(stageOneCopied), expansion)
      ensures old(Valid()) ==> Valid()
      ensures old(Valid()) && (stageOneNew.Some? || stageTwoNew.Some?) && CombinedRank() >= symbols ==> AllPivotsDelivered()
    {
      if stageOneNew.Some? {
        AddStageOnePivot(stageOneNew.value);
      } else if stageTwoNew.Some? {
        AddStageTwoPivot(stageTwoNew.value);
      }
    }

    /// `decode_symbol(data, index)` as written: a source symbol is handed
    /// to the outer decoder and marked in the STAGE-ONE copied flags at
    /// its own index; the symbol is then given to the stage-two decoder,
    /// where it becomes the pivot of its row. The stage-one flags have
    /// only `max_expansion` entries, so a source index at or above that is
    /// out of range.
    method DecodeUncodedAsWritten(index: nat)
      requires Shape() && index < symbols + expansion
      requires index < symbols ==> index < maxExpansion
      modifies this
      ensures Shape() && symbols == old(symbols) && expansion == old(expansion)
      ensures stageOnePivot == old(stageOnePivot) && stageTwoPivot == old(stageTwoPivot)[index := true]
      ensures stageTwoCopied == old(stageTwoCopied)
      ensures stageOneCopied == if index < symbols then old(stageOneCopied)[index := true] else old(stageOneCopied)
      ensures delivered == old(delivered) + if index < symbols then [Systematic(index)] else []
    {
      if index < symbols {
        stageOneCopied := stageOneCopied[index := true];
        delivered := delivered + [Systematic(index)];
      }
      stageTwoPivot := stageTwoPivot[index := true];
    }

    /// `decode_symbol(data, index)` as intended: the source symbol's
    /// stage-two row is the one marked copied, since the outer decoder
    /// already has it. The bookkeeping is kept.
    method DecodeUncoded(index: nat)
      requires Shape() && index < symbols + expansion
      modifies this
      ensures Shape() && symbols == old(symbols) && expansion == old(expansion)
      ensures stageOnePivot == old(stageOnePivot) && stageTwoPivot == old(stageTwoPivot)[index := true]
      ensures stageOneCopied == old(stageOneCopied)
      ensures stageTwoCopied == if index < symbols then old(stageTwoCopied)[index := true] else old(stageTwoCopied)
      ensures delivered == old(delivered) + if index < symbols then [Systematic(index)] else []
      ensures old(Valid()) ==> Valid()
    {
      if Valid() {
        SystematicKeeps(symbols, expansion, stageOnePivot, stageTwoPivot, stageOneCopied, stageTwoCopied, delivered, index);
      }
      if index < symbols {
        stageTwoCopied := stageTwoCopied[index := true];
        delivered := delivered + [Systematic(index)];
      }
      stageTwoPivot := stageTwoPivot[index := true];
    }
  }

  /// The pending rows of the two-symbol example below.
  lemma PendingExamples()
    ensures Pending(false, [true, false, false, false], [false, false, false, false], 4) == [FromStageTwo(0)]
    ensures Pending(true, [true, false], [true, false], 2) == []
    ensures Pending(false, [true, false, false, false], [true, false, false, false], 4) == []
    ensures Pending(true, [true, false], [false, false], 2) == [FromStageOne(0)]
  {
    assert Pending(false, [true, false, false, false], [false, false, false, false], 1) == [FromStageTwo(0)];
    assert Pending(false, [true, false, false, false], [false, false, false, false], 2) == [FromStageTwo(0)];
    assert Pending(false, [true, false, false, false], [false, false, false, false], 3) == [FromStageTwo(0)];
    assert Pending(false, [true, false, false, false], [true, false, false, false], 2) == [];
    assert Pending(true, [true, false], [false, false], 1) == [FromStageOne(0)];
  }

  /// Two source symbols and an expansion of two, as written: source
  /// symbol 0 arrives systematic.
  method ReceiveSystematicAsWritten() returns (d: TwoStageDecoder)
    ensures fresh(d) && d.Shape() && d.symbols == 2 && d.expansion == 2
    ensures d.stageOnePivot == [false, false] && d.stageTwoPivot == [true, false, false, false]
    ensures d.stageOneCopied == [true, false] && d.stageTwoCopied == [false, false, false, false]
    ensures d.delivered == [Systematic(0)] && d.CombinedRank() == 1
  {
    d := new TwoStageDecoder(2, 2);
    d.Initialize(2, 2);
    assert d.stageTwoCopied == [false, false, false, false] && d.stageOneCopied == [false, false];
    d.DecodeUncodedAsWritten(0);
    assert Count(d.stageOnePivot) == 0;
    assert Count(d.stageTwoPivot) == 1;
  }

  /// Then a coded symbol gives stage one its first pivot, bringing the
  /// stage ranks to two. Stage-two row 0, which is source symbol 0 again,
  /// is handed over a second time, while stage-one row 0, wrongly marked
  /// copied, never reaches the outer decoder although the check has run.
  method SystematicThenCodedAsWritten() returns (delivered: seq<Delivery>, complete: bool)
    ensures delivered == [Systematic(0), FromStageTwo(0)]
    ensures !complete
  {
    var d := ReceiveSystematicAsWritten();
    d.DecodeCoded(Some(0), None);
    assert d.stageOnePivot == [true, false];
    PendingExamples();
    delivered := d.delivered;
    complete := d.AllPivotsDelivered();
  }

  /// The same source symbol as intended: its stage-two row is marked
  /// copied.
  method ReceiveSystematic() returns (e: TwoStageDecoder)
    ensures fresh(e) && e.Valid() && e.symbols == 2 && e.expansion == 2
    ensures e.stageOnePivot == [false, false] && e.stageTwoPivot == [true, false, false, false]
    ensures e.stageOneCopied == [false, false] && e.stageTwoCopied == [true, false, false, false]
    ensures e.delivered == [Systematic(0)] && e.CombinedRank() == 1
  {
    e := new TwoStageDecoder(2, 2);
    e.Initialize(2, 2);
    assert e.stageTwoCopied == [false, false, false, false] && e.stageOneCopied == [false, false];
    e.DecodeUncoded(0);
    assert Count(e.stageOnePivot) == 0;
    assert Count(e.stageTwoPivot) == 1;
  }

  /// Then the coded symbol: stage-two row 0 is already copied, so
  /// stage-one row 0 is handed over and every pivot row has reached the
  /// outer decoder.
  method SystematicThenCoded() returns (delivered: seq<Delivery>, complete: bool)
    ensures delivered == [Systematic(0), FromStageOne(0)]
    ensures complete
  {
    var e := ReceiveSystematic();
    e.DecodeCoded(Some(0), None);
    assert e.stageOnePivot == [true, false];
    PendingExamples();
    delivered := e.delivered;
    complete := e.AllPivotsDelivered();
  }
}
