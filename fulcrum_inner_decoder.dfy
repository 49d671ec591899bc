/// `fulcrum_info_inner_decoder`: the fulcrum inner decoder reports the
/// rank of its nested decoder less the expansion, since the expansion
/// symbols carry no degrees of freedom of their own.
module FulcrumInnerDecoder {
  import opened Wrappers

  /// `rank`, given the nested decoder's rank (`None` when the nested
  /// decoder has not been built, which the source asserts against).
  function Rank(nestedRank: Option<nat>, expansion: nat): (r: nat)
    requires nestedRank.Some?
    ensures r <= nestedRank.value
    ensures r == 0 <==> nestedRank.value <= expansion
    ensures nestedRank.value >= expansion ==> r + expansion == nestedRank.value
  {
    var rank := nestedRank.value;
    if rank < expansion then 0 else rank - expansion
  }

  /// The inner decoder reports full rank on `symbols > 0` symbols exactly
  /// when the nested decoder has full rank on the `symbols + expansion`
  /// inner symbols, and a nested rank that grows never makes the
  /// reported rank shrink.
  lemma FullRankExactly(nestedRank: nat, expansion: nat, symbols: nat, laterRank: nat)
    requires symbols > 0 && nestedRank <= laterRank
    ensures Rank(Some(nestedRank), expansion) == symbols <==> nestedRank == symbols + expansion
    ensures Rank(Some(nestedRank), expansion) <= Rank(Some(laterRank), expansion)
  {
  }
}
