/// The part of `boost::dynamic_bitset<uint8_t>` the status layers rely on.
/// A bitset of `size` bits is stored in whole byte blocks; bit `i` lives in
/// block `i / 8` at position `i % 8`, the lowest bit first. The bits of the
/// last block past `size` are padding, which the bitset keeps cleared
/// except when its blocks are overwritten wholesale.
module DynamicBitset {
  import opened Wrappers

  /// `num_blocks()` for `n` bits: the byte blocks that cover them.
  function Blocks(n: nat): nat
  {
    (n + 7) / 8
  }

  /// Blocks cover the bits with less than one block to spare.
  lemma BlocksCover(n: nat)
    ensures n <= 8 * Blocks(n) < n + 8
    ensures n == 0 <==> Blocks(n) == 0
  {
  }

  /// The bitset: `bits` holds every bit of every block, padding included.
  datatype Bitset = Bitset(bits: seq<bool>, size: nat)
  {
    predicate Valid()
    {
      |bits| == 8 * Blocks(size)
    }

    /// No padding bit is set.
    predicate Clean()
    {
      Valid() && forall i :: size <= i < |bits| ==> !bits[i]
    }
  }

  /// A bitset of `n` cleared bits (construction, `resize(n, false)` of an
  /// empty bitset).
  function Cleared(n: nat): (b: Bitset)
    ensures b.Clean() && b.size == n
  {
    Bitset(Repeat(false, 8 * Blocks(n)), n)
  }

  /// `reset()`: every bit cleared, the size kept.
  function Reset(b: Bitset): (r: Bitset)
    requires b.Valid()
    ensures r.Clean() && r.size == b.size && Count(r.bits) == 0
  {
    CountAllFalse(Repeat(false, |b.bits|));
    Bitset(Repeat(false, |b.bits|), b.size)
  }

  /// `count()`: the set bits of all blocks, padding included.
  function CountBits(b: Bitset): nat
  {
    Count(b.bits)
  }

  /// Bit `k` of a block, counting from the lowest.
  predicate Bit(x: Byte, k: nat)
    requires k < 8
  {
    x & ((1 as Byte) << k) != 0
  }

  /// The eight bits of one block, lowest first.
  function BitsOf(x: Byte): (r: seq<bool>)
    ensures |r| == 8
  {
    seq(8, k requires 0 <= k < 8 => Bit(x, k))
  }

  /// The block holding eight bits, lowest first.
  function ByteOf(b: seq<bool>): Byte
    requires |b| == 8
  {
    (if b[0] then 0x01 else 0) | (if b[1] then 0x02 else 0) |
    (if b[2] then 0x04 else 0) | (if b[3] then 0x08 else 0) |
    (if b[4] then 0x10 else 0) | (if b[5] then 0x20 else 0) |
    (if b[6] then 0x40 else 0) | (if b[7] then 0x80 else 0)
  }

  lemma BitsOfByteOf(b: seq<bool>)
    requires |b| == 8
    ensures BitsOf(ByteOf(b)) == b
  {
    var x := ByteOf(b);
    assert BitsOf(x)[0] == b[0];
    assert BitsOf(x)[1] == b[1];
    assert BitsOf(x)[2] == b[2];
    assert BitsOf(x)[3] == b[3];
    assert BitsOf(x)[4] == b[4];
    assert BitsOf(x)[5] == b[5];
    assert BitsOf(x)[6] == b[6];
    assert BitsOf(x)[7] == b[7];
  }

  lemma ByteOfBitsOf(x: Byte)
    ensures ByteOf(BitsOf(x)) == x
  {
    var b := BitsOf(x);
    assert b[0] == (x & 0x01 != 0) && b[1] == (x & 0x02 != 0);
    assert b[2] == (x & 0x04 != 0) && b[3] == (x & 0x08 != 0);
    assert b[4] == (x & 0x10 != 0) && b[5] == (x & 0x20 != 0);
    assert b[6] == (x & 0x40 != 0) && b[7] == (x & 0x80 != 0);
  }

  /// `to_block_range`: the blocks, first block first.
  function Pack(bits: seq<bool>): (r: seq<Byte>)
    requires |bits| % 8 == 0
    ensures 8 * |r| == |bits|
  {
    if bits == [] then [] else [ByteOf(bits[..8])] + Pack(bits[8..])
  }

  /// The bits of a run of blocks, as `from_block_range` stores them.
  function Unpack(bytes: seq<Byte>): (r: seq<bool>)
    ensures |r| == 8 * |bytes|
  {
    if bytes == [] then [] else BitsOf(bytes[0]) + Unpack(bytes[1..])
  }

  /// Bit `i` of a block run is bit `i % 8` of block `i / 8`.
  lemma {:induction false} UnpackAt(bytes: seq<Byte>, i: nat)
    requires i < 8 * |bytes|
    ensures Unpack(bytes)[i] == Bit(bytes[i / 8], i % 8)
  {
    if i >= 8 {
      UnpackAt(bytes[1..], i - 8);
    }
  }

  /// Reading back written blocks gives the same bits.
  lemma {:induction false} UnpackPack(bits: seq<bool>)
    requires |bits| % 8 == 0
    ensures Unpack(Pack(bits)) == bits
  {
    if bits != [] {
      BitsOfByteOf(bits[..8]);
      UnpackPack(bits[8..]);
      assert Pack(bits)[1..] == Pack(bits[8..]);
      assert bits == bits[..8] + bits[8..];
    }
  }

  /// Writing out read blocks gives the same bytes.
  lemma {:induction false} PackUnpack(bytes: seq<Byte>)
    ensures Pack(Unpack(bytes)) == bytes
  {
    if bytes != [] {
      var u := Unpack(bytes);
      assert u[..8] == BitsOf(bytes[0]);
      assert u[8..] == Unpack(bytes[1..]);
      ByteOfBitsOf(bytes[0]);
      PackUnpack(bytes[1..]);
    }
  }

  /// `to_block_range(b, out)`: the `num_blocks()` blocks written to `out`.
  function ToBlockRange(b: Bitset): (r: seq<Byte>)
    requires b.Valid()
    ensures |r| == Blocks(b.size)
  {
    Pack(b.bits)
  }

  /// `from_block_range(first, last, b)`: the blocks are copied over the
  /// bitset's own blocks, padding included; the size is kept.
  function FromBlockRange(bytes: seq<Byte>, b: Bitset): (r: Bitset)
    requires |bytes| == Blocks(b.size)
    ensures r.Valid() && r.size == b.size
  {
    Bitset(Unpack(bytes), b.size)
  }

  /// The range constructor `dynamic_bitset(first, last)`: a bitset of
  /// exactly the bits of the blocks.
  function FromRange(bytes: seq<Byte>): (r: Bitset)
    ensures r.Clean() && r.size == 8 * |bytes| && Blocks(r.size) == |bytes|
  {
    Bitset(Unpack(bytes), 8 * |bytes|)
  }

  /// `a | b` for bitsets of the same size.
  function Or(a: Bitset, b: Bitset): (r: Bitset)
    requires a.Valid() && b.Valid() && a.size == b.size
    ensures r.Valid() && r.size == a.size
    ensures forall i :: 0 <= i < |r.bits| ==> r.bits[i] == (a.bits[i] || b.bits[i])
  {
    Bitset(seq(|a.bits|, i requires 0 <= i < |a.bits| => a.bits[i] || b.bits[i]), a.size)
  }

  /// A bitset written out and read back into a bitset of its size is the
  /// same bitset, padding included.
  lemma BlockRoundTrip(b: Bitset, into: Bitset)
    requires b.Valid() && into.size == b.size
    ensures FromBlockRange(ToBlockRange(b), into) == b
  {
    UnpackPack(b.bits);
  }

  /// Clearing the padding of a bitset: what a correct reader keeps.
  function ClearPadding(b: Bitset): (r: Bitset)
    requires b.Valid()
    ensures r.Clean() && r.size == b.size
    ensures forall i :: 0 <= i < b.size ==> r.bits[i] == b.bits[i]
  {
    BlocksCover(b.size);
    Bitset(b.bits[..b.size] + Repeat(false, |b.bits| - b.size), b.size)
  }

  /// The set bits of a clean bitset are those below its size.
  lemma CountClean(b: Bitset)
    requires b.Clean()
    ensures CountBits(b) == Count(b.bits[..b.size])
  {
    BlocksCover(b.size);
    assert b.bits == b.bits[..b.size] + b.bits[b.size..];
    CountAppend(b.bits[..b.size], b.bits[b.size..]);
    CountAllFalse(b.bits[b.size..]);
  }

  /// A bitset written out and rebuilt with the range constructor has the
  /// same bits, grown to whole blocks, and covers the same blocks.
  lemma RangeRoundTrip(b: Bitset)
    requires b.Valid()
    ensures FromRange(ToBlockRange(b)).bits == b.bits
    ensures FromRange(ToBlockRange(b)).size == 8 * Blocks(b.size) >= b.size
    ensures Blocks(FromRange(ToBlockRange(b)).size) == Blocks(b.size)
  {
    UnpackPack(b.bits);
    BlocksCover(b.size);
  }
}
