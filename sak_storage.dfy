/// The storage helpers of the sak library that the symbol storage layers
/// are built on: copying bytes into a buffer, cutting a storage into
/// symbol-sized pieces, and copying a run of symbols out in order. The sak
/// library itself is not part of this model; these definitions state the
/// behaviour the layers rely on.
module SakStorage {
  import opened Wrappers
  import opened CodecStack

  /// The contents of `buf` after the bytes of `src` are copied in at
  /// `offset`: the copied range reads back `src`, every other byte is
  /// as before.
  function Overwrite(buf: seq<Byte>, offset: nat, src: seq<Byte>): (r: seq<Byte>)
    requires offset + |src| <= |buf|
    ensures |r| == |buf|
    ensures r[offset..offset + |src|] == src
    ensures forall k :: 0 <= k < |buf| && !(offset <= k < offset + |src|) ==> r[k] == buf[k]
  {
    buf[..offset] + src + buf[offset + |src|..]
  }

  /// Two copies placed back to back equal one copy of both.
  lemma OverwriteTwice(buf: seq<Byte>, x: seq<Byte>, y: seq<Byte>)
    requires |x| + |y| <= |buf|
    ensures Overwrite(Overwrite(buf, 0, x), |x|, y) == Overwrite(buf, 0, x + y)
  {
    var lhs := Overwrite(Overwrite(buf, 0, x), |x|, y);
    var rhs := Overwrite(buf, 0, x + y);
    assert forall k :: 0 <= k < |x| ==> lhs[k] == rhs[k];
    assert forall k :: |x| <= k < |x| + |y| ==> lhs[k] == y[k - |x|] == rhs[k];
  }

  /// A range of the buffer that the copy does not reach is unchanged.
  lemma OverwriteOutside(buf: seq<Byte>, offset: nat, src: seq<Byte>, a: nat, b: nat)
    requires offset + |src| <= |buf| && a <= b <= |buf|
    requires b <= offset || offset + |src| <= a
    ensures Overwrite(buf, offset, src)[a..b] == buf[a..b]
  {
    var r := Overwrite(buf, offset, src);
    assert forall k :: a <= k < b ==> r[k] == buf[k];
  }

  /// The bytes of symbol `i` in a buffer of consecutive symbols of
  /// `size` bytes; empty when the buffer does not hold symbol `i`.
  function SymbolAt(buf: seq<Byte>, size: nat, i: nat): (r: seq<Byte>)
    ensures (i + 1) * size <= |buf| ==> |r| == size
  {
    if i * size + size <= |buf| then buf[i * size..i * size + size] else []
  }

  /// Copying a range of the buffer onto itself changes nothing.
  lemma OverwriteSame(buf: seq<Byte>, offset: nat, n: nat)
    requires offset + n <= |buf|
    ensures Overwrite(buf, offset, buf[offset..offset + n]) == buf
  {
    assert buf[..offset] + buf[offset..offset + n] + buf[offset + n..] == buf;
  }

  /// Symbol `i` of `count` symbols lies inside a buffer of `count`
  /// symbols, one symbol after the start of symbol `i`.
  lemma SymbolInBlock(size: nat, count: nat, i: nat)
    requires i < count
    ensures i * size + size == (i + 1) * size <= count * size
  {
    MulMonotone(size, i + 1, count);
  }

  /// Copying data of at most one symbol into symbol `i` leaves every
  /// other symbol as it was.
  lemma SymbolKept(buf: seq<Byte>, size: nat, count: nat, i: nat, src: seq<Byte>, j: nat)
    requires count * size <= |buf| && i < count && j < count && j != i && |src| <= size
    ensures (i + 1) * size <= |buf| && (j + 1) * size <= |buf|
    ensures SymbolAt(Overwrite(buf, i * size, src), size, j) == SymbolAt(buf, size, j)
  {
    SymbolInBlock(size, count, i);
    SymbolInBlock(size, count, j);
    if j < i {
      SymbolInBlock(size, i, j);
      MulMonotone(size, j + 1, i);
    } else {
      SymbolInBlock(size, j, i);
      MulMonotone(size, i + 1, j);
    }
    OverwriteOutside(buf, i * size, src, j * size, j * size + size);
  }

  /// `sak::copy_storage`: every byte of `src` is copied into `dest`
  /// starting at `offset`, and nothing else in `dest` changes.
  method CopyStorage(dest: array<Byte>, offset: nat, src: seq<Byte>)
    requires offset + |src| <= dest.Length
    modifies dest
    ensures dest[..] == Overwrite(old(dest[..]), offset, src)
  {
    var i := 0;
    while i < |src|
      invariant 0 <= i <= |src|
      invariant forall k :: 0 <= k < dest.Length ==>
        dest[k] == if offset <= k < offset + i then src[k - offset] else old(dest[k])
    {
      dest[offset + i] := src[i];
      i := i + 1;
    }
    assert dest[..] == Overwrite(old(dest[..]), offset, src);
  }

  /// `sak::split_storage`: consecutive pieces of `chunk` bytes, the last
  /// one holding whatever remains; an empty storage has no pieces.
  function SplitStorage(s: Storage, chunk: nat): (r: seq<Storage>)
    requires s.data.Some? && chunk > 0
    ensures s.size == 0 <==> r == []
    decreases s.size
  {
    if s.size == 0 then []
    else if s.size <= chunk then [s]
    else [Storage(s.data, chunk)] + SplitStorage(Storage(Some(s.data.value + chunk), s.size - chunk), chunk)
  }

  /// Piece `i` starts `i` chunks into the storage, and only the last
  /// piece may be shorter than a chunk.
  lemma {:induction false} SplitStoragePiece(s: Storage, chunk: nat, i: nat)
    requires s.data.Some? && chunk > 0 && i < |SplitStorage(s, chunk)|
    ensures SplitStorage(s, chunk)[i].data == Some(s.data.value + i * chunk)
    ensures i * chunk < s.size
    ensures SplitStorage(s, chunk)[i].size == Min(chunk, s.size - i * chunk)
    decreases s.size
  {
    if s.size > chunk && i > 0 {
      var rest := Storage(Some(s.data.value + chunk), s.size - chunk);
      SplitStoragePiece(rest, chunk, i - 1);
      assert (i - 1) * chunk + chunk == i * chunk;
    }
  }

  /// The number of pieces is the number of chunks needed to cover the
  /// storage.
  lemma {:induction false} SplitStorageCount(s: Storage, chunk: nat)
    requires s.data.Some? && chunk > 0
    ensures var n := |SplitStorage(s, chunk)|;
      (n - 1) * chunk < s.size <= n * chunk || (n == 0 && s.size == 0)
    decreases s.size
  {
    if s.size > chunk {
      var rest := Storage(Some(s.data.value + chunk), s.size - chunk);
      SplitStorageCount(rest, chunk);
      var m := |SplitStorage(rest, chunk)|;
      assert (m + 1 - 1) * chunk == (m - 1) * chunk + chunk;
      assert (m + 1) * chunk == m * chunk + chunk;
    }
  }

  /// A storage of exactly `n` chunks splits into `n` pieces.
  lemma SplitStorageFullCount(s: Storage, chunk: nat, n: nat)
    requires s.data.Some? && chunk > 0 && s.size == n * chunk
    ensures |SplitStorage(s, chunk)| == n
  {
    SplitStorageCount(s, chunk);
    var m := |SplitStorage(s, chunk)|;
    MulOrder(chunk, n, m);
    if m > 0 {
      MulOrder(chunk, n, m - 1);
    }
  }

  /// A storage of exactly `n` chunks splits into `n` full pieces.
  lemma SplitStorageFull(s: Storage, chunk: nat, n: nat, i: nat)
    requires s.data.Some? && chunk > 0 && s.size == n * chunk
    requires i < n
    ensures |SplitStorage(s, chunk)| == n
    ensures SplitStorage(s, chunk)[i] == Storage(Some(s.data.value + i * chunk), chunk)
  {
    SplitStorageFullCount(s, chunk, n);
    SplitStoragePiece(s, chunk, i);
    MulMonotone(chunk, i + 1, n);
    assert i * chunk + chunk == (i + 1) * chunk;
    assert s.size - i * chunk >= chunk;
  }

  /// The bytes of a run of symbols, in order.
  function Flatten(chunks: seq<seq<Byte>>): (r: seq<Byte>)
  {
    if chunks == [] then [] else chunks[0] + Flatten(chunks[1..])
  }

  lemma {:induction false} FlattenAppend(chunks: seq<seq<Byte>>, x: seq<Byte>)
    ensures Flatten(chunks + [x]) == Flatten(chunks) + x
  {
    if chunks != [] {
      assert (chunks + [x])[1..] == chunks[1..] + [x];
      FlattenAppend(chunks[1..], x);
    }
  }

  /// Symbols of `size` bytes each flatten to `size` bytes per symbol.
  lemma {:induction false} FlattenLength(chunks: seq<seq<Byte>>, size: nat)
    requires forall i :: 0 <= i < |chunks| ==> |chunks[i]| == size
    ensures |Flatten(chunks)| == |chunks| * size
  {
    if chunks != [] {
      FlattenLength(chunks[1..], size);
      assert |chunks| * size == size + (|chunks| - 1) * size;
    }
  }

  /// The bytes of the first `k` symbols are a prefix of the bytes of all.
  lemma {:induction false} FlattenSplit(chunks: seq<seq<Byte>>, k: nat)
    requires k <= |chunks|
    ensures Flatten(chunks) == Flatten(chunks[..k]) + Flatten(chunks[k..])
  {
    if k > 0 {
      assert chunks[..k][1..] == chunks[1..][..k - 1];
      assert chunks[k..] == chunks[1..][k - 1..];
      FlattenSplit(chunks[1..], k - 1);
    }
  }

  /// Symbol `i` occupies bytes [i * size, (i + 1) * size) of the run, so
  /// a prefix of it sits right after the first `i` symbols.
  lemma FlattenSlice(chunks: seq<seq<Byte>>, size: nat, i: nat, n: nat)
    requires forall k :: 0 <= k < |chunks| ==> |chunks[k]| == size
    requires i < |chunks| && n <= size
    ensures (i + 1) * size <= |chunks| * size == |Flatten(chunks)|
    ensures Flatten(chunks)[i * size..i * size + n] == chunks[i][..n]
  {
    FlattenLength(chunks, size);
    MulMonotone(size, i + 1, |chunks|);
    FlattenSplit(chunks, i);
    FlattenLength(chunks[..i], size);
    assert chunks[i..][1..] == chunks[i + 1..];
    assert Flatten(chunks[i..]) == chunks[i] + Flatten(chunks[i + 1..]);
  }

  /// The loop shared by the shallow and segmented `copy_symbols`: copies
  /// min(dest size, symbols * symbol size) bytes into `dest`, one symbol at
  /// a time, the last one possibly in part.
  method CopySymbolChunks(dest: array<Byte>, chunks: seq<seq<Byte>>, symbolSize: nat)
    requires symbolSize > 0 && dest.Length > 0
    requires forall i :: 0 <= i < |chunks| ==> |chunks[i]| == symbolSize
    modifies dest
    ensures Min(dest.Length, |chunks| * symbolSize) <= |Flatten(chunks)|
    ensures dest[..] == Overwrite(old(dest[..]), 0,
      Flatten(chunks)[..Min(dest.Length, |chunks| * symbolSize)])
  {
    FlattenLength(chunks, symbolSize);
    var all := Flatten(chunks);
    var total := Min(dest.Length, |chunks| * symbolSize);
    var dataToCopy := total;
    var offset := 0;
    var symbolIndex := 0;
    while dataToCopy > 0
      invariant offset + dataToCopy == total
      invariant offset <= total <= dest.Length && total <= |all|
      invariant dataToCopy > 0 ==> offset == symbolIndex * symbolSize
      invariant dest[..] == Overwrite(old(dest[..]), 0, all[..offset])
      decreases dataToCopy
    {
      MulOrder(symbolSize, |chunks|, symbolIndex);
      var copySize := Min(dataToCopy, symbolSize);
      var piece := chunks[symbolIndex][..copySize];
      FlattenSlice(chunks, symbolSize, symbolIndex, copySize);
      dataToCopy := dataToCopy - copySize;
      CopyStorage(dest, offset, piece);
      OverwriteTwice(old(dest[..]), all[..offset], piece);
      assert all[..offset] + piece == all[..offset + copySize];
      offset := offset + copySize;
      symbolIndex := symbolIndex + 1;
    }
  }
}
