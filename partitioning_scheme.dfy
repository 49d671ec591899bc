/// The fixed block partitioning scheme of the customisation example: an
/// object of `objectSize` bytes is cut into `CeilDiv(objectSize,
/// maxSymbolSize)` symbols, grouped into blocks that all hold the same
/// number of symbols, the greatest common divisor of the symbol total and
/// the per-block maximum.
module PartitioningScheme {
  import opened Wrappers

  /// Ceiling division written as the source writes it, `((n - 1) / d) + 1`.
  function CeilDiv(n: nat, d: nat): nat
    requires n > 0 && d > 0
  {
    (n - 1) / d + 1
  }

  /// `CeilDiv` is the least number of `d`-sized pieces covering `n`.
  lemma CeilDivBounds(n: nat, d: nat)
    requires n > 0 && d > 0
    ensures CeilDiv(n, d) > 0
    ensures (CeilDiv(n, d) - 1) * d < n <= CeilDiv(n, d) * d
  {
    var q := (n - 1) / d;
    assert n - 1 == q * d + (n - 1) % d;
    assert CeilDiv(n, d) * d == q * d + d;
  }

  /// Euclid's recursion: the reference for the loop in `EuclidGcd`.
  function Gcd(u: nat, v: nat): nat
    decreases v
  {
    if v == 0 then u else Gcd(v, u % v)
  }

  /// A positive multiple of `g` is at least `g`.
  lemma MultipleAtLeast(m: int, g: int)
    requires m >= 1 && g > 0
    ensures m * g >= g
  {
    assert m * g == (m - 1) * g + g;
  }

  /// A negative multiple of `g` is at most `-g`.
  lemma NegativeMultiple(m: int, g: int)
    requires m <= -1 && g > 0
    ensures m * g <= -g
  {
    assert m * g == (m + 1) * g - g;
  }

  lemma MultipleMod(k: int, g: int)
    requires g > 0
    ensures (k * g) % g == 0
  {
    var q := (k * g) / g;
    var r := (k * g) % g;
    var m := k - q;
    assert k * g == q * g + r;
    assert r == m * g;
    if m >= 1 {
      MultipleAtLeast(m, g);
    } else if m <= -1 {
      NegativeMultiple(m, g);
    }
  }

  /// A common divisor of `a` and `b` divides every combination `k*a + b`.
  lemma CombinationMod(a: int, b: int, k: int, g: int)
    requires g > 0 && a % g == 0 && b % g == 0
    ensures (k * a + b) % g == 0
  {
    var x := a / g;
    var y := b / g;
    assert a == x * g;
    assert b == y * g;
    assert k * a + b == (k * x + y) * g;
    MultipleMod(k * x + y, g);
  }

  /// Euclid's result is positive and divides both inputs.
  lemma {:induction false} GcdDivides(u: nat, v: nat)
    requires u > 0 || v > 0
    decreases v
    ensures Gcd(u, v) > 0 && u % Gcd(u, v) == 0 && v % Gcd(u, v) == 0
  {
    if v != 0 {
      GcdDivides(v, u % v);
      var g := Gcd(v, u % v);
      assert u == (u / v) * v + u % v;
      CombinationMod(v, u % v, u / v, g);
    }
  }

  /// Every common divisor of the inputs divides Euclid's result.
  lemma {:induction false} GcdGreatest(u: nat, v: nat, d: nat)
    requires d > 0 && u % d == 0 && v % d == 0
    ensures Gcd(u, v) % d == 0
    decreases v
  {
    if v != 0 {
      assert u % v == -(u / v) * v + u;
      CombinationMod(v, u, -(u / v), d);
      GcdGreatest(v, u % v, d);
    }
  }

  lemma DivisorBound(x: nat, d: nat)
    requires x > 0 && d > 0 && x % d == 0
    ensures d <= x
  {
    var q := x / d;
    assert x == q * d;
    assert q != 0;
    MultipleAtLeast(q, d);
  }

  /// The private `gcd` of the scheme: Euclid's loop on two positive
  /// values. It returns the greatest common divisor.
  method EuclidGcd(u0: nat, v0: nat) returns (u: nat)
    requires u0 > 0 && v0 > 0
    ensures u == Gcd(u0, v0)
    ensures u > 0 && u0 % u == 0 && v0 % u == 0
    ensures forall d: nat :: d > 0 && u0 % d == 0 && v0 % d == 0 ==> d <= u
  {
    u := u0;
    var v: nat := v0;
    while v != 0
      invariant u > 0 || v > 0
      invariant Gcd(u, v) == Gcd(u0, v0)
      decreases v
    {
      var r: nat := u % v;
      u := v;
      v := r;
    }
    GcdDivides(u0, v0);
    forall d: nat | d > 0 && u0 % d == 0 && v0 % d == 0
      ensures d <= u
    {
      GcdGreatest(u0, v0, d);
      DivisorBound(u, d);
    }
  }

  /// The scheme's state: its three inputs and the three values the
  /// constructor derives from them.
  datatype Scheme = Scheme(maxSymbols: nat, maxSymbolSize: nat, objectSize: nat,
                           totalSymbols: nat, symbolsPerBlock: nat, totalBlocks: nat)
  {
    /// The state the constructor establishes.
    predicate Valid()
    {
      maxSymbols > 0 && maxSymbolSize > 0 && objectSize > 0 &&
      totalSymbols == CeilDiv(objectSize, maxSymbolSize) &&
      symbolsPerBlock == Gcd(totalSymbols, maxSymbols) &&
      symbolsPerBlock > 0 && totalBlocks == totalSymbols / symbolsPerBlock
    }

    /// Every block holds the same positive number of symbols, at most the
    /// per-block maximum, and the blocks hold all symbols between them.
    function Symbols(blockId: nat): (r: nat)
      requires Valid() && blockId < totalBlocks
      ensures 0 < r <= maxSymbols
      ensures r * totalBlocks == totalSymbols
    {
      SchemeShape(this);
      symbolsPerBlock
    }

    /// Every block uses the maximal symbol size; the id is not checked.
    function SymbolSize(blockId: nat): (r: nat)
      requires Valid()
      ensures r > 0 && r == maxSymbolSize
    {
      maxSymbolSize
    }

    /// All blocks have the same size, and together they make up the total
    /// block size.
    function BlockSize(blockId: nat): (r: nat)
      requires Valid() && blockId < totalBlocks
      ensures r > 0 && r * totalBlocks == TotalBlockSize()
    {
      SchemeShape(this);
      var r := Symbols(blockId) * SymbolSize(blockId);
      assert r * totalBlocks == symbolsPerBlock * totalBlocks * maxSymbolSize;
      r
    }

    /// Blocks are laid out back to back from offset zero.
    function ByteOffset(blockId: nat): (r: nat)
      requires Valid() && blockId < totalBlocks
      ensures blockId == 0 ==> r == 0
      ensures r < objectSize
    {
      OffsetInObject(this, blockId);
      BlockSize(blockId) * blockId
    }

    /// The object bytes a block carries: a full block, except that the
    /// last block ends at the end of the object.
    function BytesUsed(blockId: nat): (r: nat)
      requires Valid() && blockId < totalBlocks
      ensures 0 < r <= BlockSize(blockId)
      ensures blockId + 1 < totalBlocks ==> r == BlockSize(blockId)
      ensures blockId + 1 == totalBlocks ==> ByteOffset(blockId) + r == objectSize
    {
      var offset := ByteOffset(blockId);
      assert blockId + 1 < totalBlocks ==> ByteOffset(blockId + 1) == offset + BlockSize(blockId);
      Min(objectSize - offset, BlockSize(blockId))
    }

    function Blocks(): (r: nat)
      requires Valid()
      ensures r > 0 && r * symbolsPerBlock == totalSymbols
    {
      SchemeShape(this);
      totalBlocks
    }

    function TotalSymbols(): (r: nat)
      requires Valid()
      ensures (r - 1) * maxSymbolSize < objectSize <= r * maxSymbolSize
    {
      CeilDivBounds(objectSize, maxSymbolSize);
      totalSymbols
    }

    /// The buffer size the codecs need: whole symbols, so at least the
    /// object and less than one symbol more.
    function TotalBlockSize(): (r: nat)
      requires Valid()
      ensures objectSize <= r < objectSize + maxSymbolSize
    {
      CeilDivBounds(objectSize, maxSymbolSize);
      totalSymbols * maxSymbolSize
    }
  }

  /// The scheme the constructor builds from its three inputs.
  function SchemeOf(maxSymbols: nat, maxSymbolSize: nat, objectSize: nat): (s: Scheme)
    requires maxSymbols > 0 && maxSymbolSize > 0 && objectSize > 0
    ensures s.Valid()
    ensures s.maxSymbols == maxSymbols && s.maxSymbolSize == maxSymbolSize && s.objectSize == objectSize
  {
    var total := CeilDiv(objectSize, maxSymbolSize);
    var perBlock := Gcd(total, maxSymbols);
    GcdDivides(total, maxSymbols);
    Scheme(maxSymbols, maxSymbolSize, objectSize, total, perBlock, total / perBlock)
  }

  /// The constructor: asserts positive inputs, counts the symbols, takes
  /// the per-block count from `gcd` and the block count by division.
  method NewScheme(maxSymbols: nat, maxSymbolSize: nat, objectSize: nat) returns (s: Scheme)
    requires maxSymbols > 0 && maxSymbolSize > 0 && objectSize > 0
    ensures s == SchemeOf(maxSymbols, maxSymbolSize, objectSize)
    ensures s.symbolsPerBlock > 0 && s.totalBlocks > 0
  {
    var total := (objectSize - 1) / maxSymbolSize + 1;
    var perBlock := EuclidGcd(total, maxSymbols);
    var blocks := total / perBlock;
    s := Scheme(maxSymbols, maxSymbolSize, objectSize, total, perBlock, blocks);
    SchemeShape(s);
  }

  /// The constructor's arithmetic: the per-block count divides the total,
  /// is at most the maximum, and there is at least one block.
  lemma SchemeShape(s: Scheme)
    requires s.Valid()
    ensures 0 < s.symbolsPerBlock <= s.maxSymbols
    ensures s.totalSymbols > 0 && s.totalSymbols % s.symbolsPerBlock == 0
    ensures s.maxSymbols % s.symbolsPerBlock == 0
    ensures s.totalBlocks > 0 && s.totalBlocks * s.symbolsPerBlock == s.totalSymbols
  {
    CeilDivBounds(s.objectSize, s.maxSymbolSize);
    GcdDivides(s.totalSymbols, s.maxSymbols);
    DivisorBound(s.maxSymbols, s.symbolsPerBlock);
    DivisorBound(s.totalSymbols, s.symbolsPerBlock);
    assert s.totalSymbols == s.totalBlocks * s.symbolsPerBlock;
  }

  /// The offset of every valid block lies inside the object, so the
  /// `offset < m_object_size` assertion of `bytes_used` always holds.
  lemma OffsetInObject(s: Scheme, blockId: nat)
    requires s.Valid() && blockId < s.totalBlocks
    ensures s.symbolsPerBlock * s.maxSymbolSize * blockId < s.objectSize
  {
    SchemeShape(s);
    CeilDivBounds(s.objectSize, s.maxSymbolSize);
    var b := s.symbolsPerBlock * s.maxSymbolSize;
    assert b * blockId <= b * (s.totalBlocks - 1);
    assert b * (s.totalBlocks - 1) == (s.totalSymbols - s.symbolsPerBlock) * s.maxSymbolSize;
    assert (s.totalSymbols - s.symbolsPerBlock) * s.maxSymbolSize <= (s.totalSymbols - 1) * s.maxSymbolSize;
  }

  /// Each block starts where the one before it ends.
  lemma OffsetsContiguous(s: Scheme, blockId: nat)
    requires s.Valid() && blockId + 1 < s.totalBlocks
    ensures s.ByteOffset(blockId + 1) == s.ByteOffset(blockId) + s.BlockSize(blockId)
  {
    var b := s.BlockSize(blockId);
    assert b * (blockId + 1) == b * blockId + b;
  }

  /// The bytes of the first `k` blocks.
  function UsedPrefix(s: Scheme, k: nat): nat
    requires s.Valid() && k <= s.totalBlocks
  {
    if k == 0 then 0 else UsedPrefix(s, k - 1) + s.BytesUsed(k - 1)
  }

  /// The blocks tile the object: the first `k` blocks end where block `k`
  /// starts, and all blocks together carry exactly the object's bytes.
  lemma {:induction false} BlocksTileObject(s: Scheme, k: nat)
    requires s.Valid() && k <= s.totalBlocks
    ensures k < s.totalBlocks ==> UsedPrefix(s, k) == s.ByteOffset(k)
    ensures k == s.totalBlocks ==> UsedPrefix(s, k) == s.objectSize
  {
    SchemeShape(s);
    if k > 0 {
      BlocksTileObject(s, k - 1);
      if k < s.totalBlocks {
        OffsetsContiguous(s, k - 1);
      }
    }
  }

  /// The block size the source computes: a product of two `uint32_t`
  /// values, which wraps modulo 2^32.
  function BlockSizeAsWritten(s: Scheme, blockId: nat): nat
    requires s.Valid() && blockId < s.totalBlocks
  {
    (s.Symbols(blockId) * s.SymbolSize(blockId)) % UINT32_LIMIT
  }

  /// `bytes_used` as the source computes it, on the wrapped block size.
  function BytesUsedAsWritten(s: Scheme, blockId: nat): nat
    requires s.Valid() && blockId < s.totalBlocks
  {
    var offset := (BlockSizeAsWritten(s, blockId) * blockId) % UINT32_LIMIT;
    if offset < s.objectSize then Min(s.objectSize - offset, BlockSizeAsWritten(s, blockId)) else 0
  }

  /// Two-gigabyte symbols, two per block, and an object just under four
  /// gigabytes: all inputs fit in `uint32_t`, the object is one block of
  /// two symbols, and its 2^32-byte block size wraps to zero, so the only
  /// block is reported to carry no bytes at all.
  lemma BlockSizeWraps()
    ensures var s := SchemeOf(2, 0x8000_0000, 0xFFFF_FFFF);
      IsUint32(s.maxSymbols) && IsUint32(s.maxSymbolSize) && IsUint32(s.objectSize) &&
      s.totalBlocks == 1 && BlockSizeAsWritten(s, 0) == 0 && BytesUsedAsWritten(s, 0) == 0 &&
      s.BytesUsed(0) == s.objectSize
  {
    var s := SchemeOf(2, 0x8000_0000, 0xFFFF_FFFF);
    assert s.totalSymbols == 2;
    assert Gcd(2, 2) == 2 by {
      assert Gcd(2, 2) == Gcd(2, 0);
    }
  }
}
