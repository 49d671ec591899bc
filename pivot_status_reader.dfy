/// The `pivot_status_reader` layer: an encoder reads the summary a
/// decoder produced (one bit per symbol, set when the decoder has the
/// symbol as a pivot) into its pivot status bitset, and remembers how many
/// bits were set as the remote rank.
module PivotStatusReader {
  import opened Wrappers
  import opened DynamicBitset

  class PivotReader {
    /// `m_pivot_status`, kept by the layer below with `max_symbols` bits.
    var pivotStatus: Bitset
    /// `m_remote_rank`.
    var remoteRank: nat

    predicate Valid()
      reads this
    {
      pivotStatus.Valid()
    }

    constructor(maxSymbols: nat)
      ensures Valid() && pivotStatus == Cleared(maxSymbols) && remoteRank == 0
    {
      pivotStatus := Cleared(maxSymbols);
      remoteRank := 0;
    }

    /// `initialize`: the status is cleared and the remote rank is 0.
    method Initialize()
      requires Valid()
      modifies this
      ensures Valid() && pivotStatus == Reset(old(pivotStatus)) && remoteRank == 0
      ensures forall i :: 0 <= i < pivotStatus.size ==> !RemoteIsSymbolPivot(i)
    {
      pivotStatus := Reset(pivotStatus);
      remoteRank := 0;
    }

    /// `pivot_status_size`: the blocks covering the status bits.
    function PivotStatusSize(): nat
      reads this
    {
      Blocks(pivotStatus.size)
    }

    /// `remote_is_symbol_pivot`: bit `index` of the last status read.
    predicate RemoteIsSymbolPivot(index: nat)
      reads this
      requires Valid() && index < pivotStatus.size
    {
      pivotStatus.bits[index]
    }

    /// `read_pivot_status` as written: the blocks are copied over the
    /// status, padding bits included, and the remote rank is the count of
    /// every set bit of every block.
    method ReadPivotStatusAsWritten(buffer: seq<Byte>)
      requires Valid() && PivotStatusSize() <= |buffer|
      modifies this
      ensures Valid() && pivotStatus.size == old(pivotStatus.size)
      ensures pivotStatus == FromBlockRange(buffer[..PivotStatusSize()], old(pivotStatus))
      ensures remoteRank == CountBits(pivotStatus)
    {
      pivotStatus := FromBlockRange(buffer[..Blocks(pivotStatus.size)], pivotStatus);
      remoteRank := CountBits(pivotStatus);
    }

    /// `read_pivot_status` as intended: bit `i` of the buffer (lowest bit
    /// of each byte first) is the status of symbol `i`, padding bits are
    /// ignored, and the remote rank is the number of symbols marked.
    method ReadPivotStatus(buffer: seq<Byte>)
      requires Valid() && PivotStatusSize() <= |buffer|
      modifies this
      ensures Valid() && pivotStatus.Clean() && pivotStatus.size == old(pivotStatus.size)
      ensures forall i :: 0 <= i < pivotStatus.size ==>
        (RemoteIsSymbolPivot(i) <==> Bit(buffer[i / 8], i % 8))
      ensures remoteRank == Count(pivotStatus.bits[..pivotStatus.size]) <= pivotStatus.size
    {
      var len := Blocks(pivotStatus.size);
      var read := FromBlockRange(buffer[..len], pivotStatus);
      pivotStatus := ClearPadding(read);
      remoteRank := CountBits(pivotStatus);
      CountClean(pivotStatus);
      forall i | 0 <= i < pivotStatus.size
        ensures RemoteIsSymbolPivot(i) <==> Bit(buffer[i / 8], i % 8)
      {
        BlocksCover(pivotStatus.size);
        UnpackAt(buffer[..len], i);
      }
    }
  }

  /// On a buffer whose padding bits are clear, as every decoder's status
  /// is, the code as written and the intended reading agree.
  lemma ReadersAgreeOnCleanBuffers(buffer: seq<Byte>, status: Bitset)
    requires status.Valid() && |buffer| == Blocks(status.size)
    requires FromBlockRange(buffer, status).Clean()
    ensures ClearPadding(FromBlockRange(buffer, status)) == FromBlockRange(buffer, status)
  {
    var read := FromBlockRange(buffer, status);
    BlocksCover(status.size);
    assert read.bits == read.bits[..read.size] + read.bits[read.size..];
  }

  /// Nine symbols' worth of status arrives with every bit of both blocks
  /// set: the code as written reports a remote rank of 16, more than the
  /// symbols there are; the intended reading reports 9.
  method PaddingOvercounts() returns (asWritten: nat, intended: nat)
    ensures asWritten == 16 && intended == 9
  {
    var ones: Byte := 0xFF;
    forall k: nat | k < 8
      ensures Bit(ones, k)
    {
    }
    var all := Unpack([ones, ones]);
    assert forall i :: 0 <= i < 16 ==> all[i] by {
      forall i | 0 <= i < 16
        ensures all[i]
      {
        UnpackAt([ones, ones], i);
      }
    }
    CountAllTrue(all);
    var reader := new PivotReader(9);
    assert [ones, ones][..reader.PivotStatusSize()] == [ones, ones];
    reader.ReadPivotStatusAsWritten([ones, ones]);
    asWritten := reader.remoteRank;
    reader.ReadPivotStatus([ones, ones]);
    forall i | 0 <= i < 9
      ensures reader.pivotStatus.bits[i]
    {
      assert [ones, ones][i / 8] == ones && Bit(ones, i % 8);
    }
    CountAllTrue(reader.pivotStatus.bits[..9]);
    intended := reader.remoteRank;
  }
}
