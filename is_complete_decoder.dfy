/// The `is_complete_decoder` layer of the object decoders: each built
/// block decoder reports its completion through a callback bound to its
/// block index, and the layer counts the completed blocks.
module IsCompleteDecoder {
  import opened Wrappers
  import opened CodecStack

  /// `std::vector<bool>::resize`: keeps the first `n` flags and pads with
  /// false.
  function Resize(flags: seq<bool>, n: nat): (r: seq<bool>)
    ensures |r| == n
    ensures forall i :: 0 <= i < n ==> r[i] == (i < |flags| && flags[i])
  {
    if n <= |flags| then flags[..n] else flags + Repeat(false, n - |flags|)
  }

  class CompletionLayer {
    /// The number of blocks of the object, from the partitioning below.
    var blocks: nat
    var completedCount: nat
    var completed: seq<bool>

    /// One flag per block, and the count is the number of set flags.
    predicate Valid()
      reads this
    {
      |completed| == blocks && completedCount == Count(completed)
    }

    constructor()
      ensures Valid() && blocks == 0
    {
      blocks := 0;
      completedCount := 0;
      completed := [];
    }

    /// `initialize` as written: the count restarts at zero but the flag
    /// vector is only resized, so flags of a previous use survive.
    method InitializeAsWritten(blocks: nat)
      modifies this
      ensures this.blocks == blocks && completedCount == 0
      ensures completed == Resize(old(completed), blocks)
    {
      this.blocks := blocks;
      completedCount := 0;
      completed := Resize(completed, blocks);
    }

    /// `initialize` as intended: no block is complete.
    method Initialize(blocks: nat)
      modifies this
      ensures Valid() && this.blocks == blocks
      ensures forall i :: 0 <= i < blocks ==> !completed[i]
    {
      this.blocks := blocks;
      completedCount := 0;
      completed := Repeat(false, blocks);
      CountAllFalse(completed);
    }

    /// Builds block `index`'s decoder and binds its completion callback
    /// to `index`.
    method Build(index: nat) returns (stack: Stack)
      ensures fresh(stack) && stack.completeCallback == Some(index)
    {
      stack := new Stack(0, 0);
      stack.SetIsCompleteCallback(index);
    }

    /// The object is complete when every block has completed.
    function IsComplete(): (r: bool)
      reads this
      requires Valid()
      ensures r <==> forall i :: 0 <= i < blocks ==> completed[i]
    {
      CountFull(completed);
      completedCount == blocks
    }

    /// `is_block_complete`: the block's flag. A complete object has
    /// every block complete, and a block still missing keeps the count
    /// below the number of blocks.
    function IsBlockComplete(index: nat): (r: bool)
      reads this
      requires Valid() && index < blocks
      ensures IsComplete() ==> r
      ensures !r ==> completedCount < blocks
    {
      completed[index]
    }

    /// The object is complete exactly when every block reports complete.
    lemma CompleteIffEveryBlock()
      requires Valid()
      ensures IsComplete() <==> forall i :: 0 <= i < blocks ==> IsBlockComplete(i)
    {
      forall i | 0 <= i < blocks
        ensures IsBlockComplete(i) == completed[i]
      {
      }
    }

    /// The completion callback: the block must be in range and not yet
    /// complete; it is marked and counted once.
    method IsCompleteCallback(index: nat)
      requires Valid() && index < |completed| && !completed[index]
      modifies this
      ensures Valid() && blocks == old(blocks)
      ensures completed == old(completed)[index := true]
      ensures completedCount == old(completedCount) + 1 <= |completed|
    {
      CountSetTrue(completed, index);
      completedCount := completedCount + 1;
      completed := completed[index := true];
    }
  }

  /// Reusing a layer whose block 0 of 2 completed: `initialize` as written
  /// leaves block 0 flagged with a count of zero. The callback for block 0
  /// can then never run again, so the count stays below the block count
  /// and the object never reports complete.
  lemma ReinitializeKeepsCompletion()
    ensures var flags := Resize([true, false], 2);
      flags == [true, false] && Count(flags) == 1 && Count(flags) != 0
  {
    var flags := Resize([true, false], 2);
    assert flags == [true, false];
    assert flags[1..] == [false];
    assert flags[1..][1..] == [];
  }
}
