/// The `perpetual_generator` layer: coding vectors of a perpetual code
/// have one pivot set to 1 and random coefficients only in a window of
/// `width` positions after it, wrapping from the end of the vector to the
/// start. The first `width + 1` vectors use pivot 0, the next ones walk
/// the pivot through every symbol, after that the pivot is random.
module PerpetualGenerator {
  import opened Wrappers
  import opened FiniteField

  /// The index `i` positions after `pivot`, wrapping around:
  /// `(pivot + i) % symbols` for `i < symbols`.
  function WindowIndex(symbols: nat, pivot: nat, i: nat): (r: nat)
    requires pivot < symbols && i <= symbols
    ensures r < symbols
  {
    if pivot + i < symbols then pivot + i else pivot + i - symbols
  }

  /// `calc_width`: how far `back` lies after `pivot`, wrapping around;
  /// the window index that many positions after the pivot is `back`.
  function CalcWidth(symbols: nat, pivot: nat, back: nat): (r: nat)
    requires pivot < symbols && back < symbols
    ensures r < symbols && WindowIndex(symbols, pivot, r) == back
  {
    if back >= pivot then back - pivot else back + symbols - pivot
  }

  /// The window index is the source's modular expression.
  lemma WindowIndexIsMod(symbols: nat, pivot: nat, i: nat)
    requires pivot < symbols && i <= symbols
    ensures WindowIndex(symbols, pivot, i) == (pivot + i) % symbols
  {
    ModOnce(pivot + i, symbols);
  }

  /// Below twice the modulus, `%` subtracts it at most once.
  lemma ModOnce(x: nat, s: nat)
    requires 0 < s && x < 2 * s
    ensures x % s == if x < s then x else x - s
  {
  }

  /// `calc_width` undoes the window index and the window index undoes
  /// `calc_width`: every position has exactly one distance from a pivot.
  lemma CalcWidthInverse(symbols: nat, pivot: nat, i: nat, j: nat)
    requires pivot < symbols && i < symbols && j < symbols
    ensures CalcWidth(symbols, pivot, WindowIndex(symbols, pivot, i)) == i
    ensures CalcWidth(symbols, pivot, j) < symbols
    ensures WindowIndex(symbols, pivot, CalcWidth(symbols, pivot, j)) == j
  {
  }

  /// The position `i` steps before `back`, wrapping around: the intended
  /// `(back + symbols - i) % symbols` of `find_back`'s scan.
  function ScanIndex(symbols: nat, back: nat, i: nat): (r: nat)
    requires back < symbols && i < symbols
    ensures r < symbols
  {
    if i <= back then back - i else back + symbols - i
  }

  /// The scan index is `calc_width`'s inverse from the other end: the
  /// `i`-th position scanned lies `i` before `back`, and every position
  /// is scanned at its distance before `back`.
  lemma ScanIndexWidth(symbols: nat, back: nat, i: nat, j: nat)
    requires back < symbols && i < symbols && j < symbols
    ensures CalcWidth(symbols, ScanIndex(symbols, back, i), back) == i
    ensures CalcWidth(symbols, j, back) < symbols
    ensures ScanIndex(symbols, back, CalcWidth(symbols, j, back)) == j
  {
  }

  /// `find_back`'s scan index as written: `(back - i) % symbols` with
  /// `back - i` computed in 32-bit unsigned arithmetic, so a step past
  /// index 0 wraps to 2^32 minus a little rather than to `symbols` minus
  /// a little.
  function ScanIndexAsWritten(symbols: nat, back: nat, i: nat): (r: nat)
    requires 0 < symbols
    ensures r < symbols
  {
    ((back - i) % UINT32_LIMIT) % symbols
  }

  /// Without a hint the scan starts at the last index and never steps
  /// past 0, so there the written and the intended scans agree.
  lemma ScanAsWrittenWithoutWrap(symbols: nat, back: nat, i: nat)
    requires back < symbols <= UINT32_LIMIT && i <= back
    ensures ScanIndexAsWritten(symbols, back, i) == ScanIndex(symbols, back, i)
  {
    ModOnce(back - i, UINT32_LIMIT);
    ModOnce(back - i, symbols);
  }

  /// `find_back` as written, scanning from step `i` on.
  function FindBackAsWritten(coefficients: seq<nat>, symbols: nat, back: nat, i: nat): (r: Option<nat>)
    requires 0 < symbols <= |coefficients| && back < symbols && i <= symbols
    decreases symbols - i
    ensures r.Some? ==> r.value < symbols && coefficients[r.value] != 0
  {
    if i == symbols then None
    else
      var index := ScanIndexAsWritten(symbols, back, i);
      if coefficients[index] != 0 then Some(index)
      else FindBackAsWritten(coefficients, symbols, back, i + 1)
  }

  /// The pivot of the vector generated after `generated` earlier ones;
  /// `randomPivot` is the pivot distribution's draw, used once the
  /// schedule is exhausted.
  function PivotFor(symbols: nat, width: nat, generated: nat, randomPivot: nat): (r: nat)
    requires 0 < symbols && width <= symbols && randomPivot < symbols
    ensures r < symbols
  {
    if generated < width + 1 then 0
    else if generated < symbols + width then generated - width
    else randomPivot
  }

  /// The deterministic part of the schedule makes every symbol the pivot
  /// of one of the first `symbols + width` vectors, in increasing order.
  lemma ScheduleCoversEverySymbol(symbols: nat, width: nat, randomPivot: nat, p: nat)
    requires 0 < symbols && width <= symbols && randomPivot < symbols && p < symbols
    ensures exists g: nat :: g < symbols + width && PivotFor(symbols, width, g, randomPivot) == p
    ensures forall g: nat, h: nat :: g <= h < symbols + width ==>
      PivotFor(symbols, width, g, randomPivot) <= PivotFor(symbols, width, h, randomPivot)
  {
    if p == 0 {
      assert PivotFor(symbols, width, 0, randomPivot) == 0;
    } else {
      assert PivotFor(symbols, width, p + width, randomPivot) == p;
    }
  }

  /// The vector after the window loop has run for `i = 1 .. n`: starting
  /// from `v`, position `(pivot + i) % symbols` takes `draws[i - 1]`
  /// wherever `mask` allows it.
  function Window(v: seq<nat>, symbols: nat, pivot: nat, draws: seq<nat>, mask: seq<bool>, n: nat): (r: seq<nat>)
    requires |v| == |mask| == symbols && pivot < symbols && n <= |draws| && n <= symbols
    ensures |r| == symbols
  {
    if n == 0 then v
    else
      var w := Window(v, symbols, pivot, draws, mask, n - 1);
      var index := WindowIndex(symbols, pivot, n);
      if mask[index] then w[index := draws[n - 1]] else w
  }

  /// After `n` window steps (fewer than `symbols`, so no position is
  /// written twice), position `(pivot + i) % symbols` holds draw `i - 1`
  /// for `1 <= i <= n` where the mask allows it; every other position
  /// keeps its value, the pivot in particular.
  lemma {:induction false} WindowShape(v: seq<nat>, symbols: nat, pivot: nat, draws: seq<nat>, mask: seq<bool>, n: nat)
    requires |v| == |mask| == symbols && pivot < symbols && n <= |draws| && n < symbols
    ensures forall j :: 0 <= j < symbols && (CalcWidth(symbols, pivot, j) == 0 || CalcWidth(symbols, pivot, j) > n || !mask[j]) ==>
      Window(v, symbols, pivot, draws, mask, n)[j] == v[j]
    ensures forall j :: 0 <= j < symbols && 1 <= CalcWidth(symbols, pivot, j) <= n && mask[j] ==>
      Window(v, symbols, pivot, draws, mask, n)[j] == draws[CalcWidth(symbols, pivot, j) - 1]
  {
    if n > 0 {
      WindowShape(v, symbols, pivot, draws, mask, n - 1);
      var index := WindowIndex(symbols, pivot, n);
      CalcWidthInverse(symbols, pivot, n, 0);
      forall j | 0 <= j < symbols
        ensures j == index <==> CalcWidth(symbols, pivot, j) == n
      {
        CalcWidthInverse(symbols, pivot, n, j);
      }
    }
  }

  /// After `n` window steps, for any `n` up to `symbols`, a non-zero
  /// position was non-zero before or lies within the first `n` window
  /// positions where the mask allows a draw.
  lemma {:induction false} WindowSupport(v: seq<nat>, symbols: nat, pivot: nat, draws: seq<nat>, mask: seq<bool>, n: nat)
    requires |v| == |mask| == symbols && pivot < symbols && n <= |draws| && n <= symbols
    ensures forall j :: 0 <= j < symbols && Window(v, symbols, pivot, draws, mask, n)[j] != 0 ==>
      v[j] != 0 || (mask[j] && CalcWidth(symbols, pivot, j) <= n)
  {
    if n > 0 {
      WindowSupport(v, symbols, pivot, draws, mask, n - 1);
      if n < symbols {
        CalcWidthInverse(symbols, pivot, n, 0);
      }
    }
  }

  class PerpetualGenerator {
    const field: Field
    /// `symbols()` of the layers below.
    var symbols: nat
    /// `m_width`, `m_generated`.
    var width: nat
    var generated: nat

    predicate Valid()
      reads this
    {
      0 < symbols && width <= symbols
    }

    constructor(field: Field)
      ensures this.field == field && generated == 0
    {
      this.field := field;
      symbols := 0;
      width := 0;
      generated := 0;
    }

    /// `initialize`: the source asserts at least one symbol; the width is
    /// a tenth of the symbols, at least one.
    method Initialize(symbols: nat)
      requires symbols > 0
      modifies this
      ensures Valid() && this.symbols == symbols && generated == 0
      ensures width == Max(1, symbols / 10) && 1 <= width <= symbols
    {
      this.symbols := symbols;
      width := Max(1, symbols / 10);
      generated := 0;
    }

    /// `set_width`: the source asserts the width does not exceed the
    /// symbols.
    method SetWidth(width: nat)
      requires width <= symbols
      modifies this
      ensures this.width == width && symbols == old(symbols) && generated == old(generated)
    {
      this.width := width;
    }

    /// `width`.
    function Width(): nat
      reads this
    {
      width
    }

    /// `generate`: the vector is zeroed, the scheduled pivot set to 1 and
    /// the `width` positions after it take the symbol distribution's
    /// draws. With a width below the symbols the pivot stays 1 and every
    /// position outside the window is zero; a width of `symbols` wraps
    /// around onto the pivot itself.
    method Generate(coefficients: array<nat>, randomPivot: nat, draws: seq<nat>) returns (pivot: nat)
      requires Valid() && coefficients.Length == symbols
      requires randomPivot < symbols && |draws| == width
      requires forall k :: 0 <= k < |draws| ==> draws[k] <= MaxValue(field)
      modifies this, coefficients
      ensures symbols == old(symbols) && width == old(width) && generated == old(generated) + 1
      ensures pivot == PivotFor(symbols, width, old(generated), randomPivot)
      ensures coefficients[..] == Window(Zeros(symbols)[pivot := 1], symbols, pivot, draws, Repeat(true, symbols), width)
      ensures width < symbols ==> coefficients[pivot] == 1
      ensures width < symbols ==> forall j :: 0 <= j < symbols && j != pivot ==>
        coefficients[j] == if CalcWidth(symbols, pivot, j) <= width then draws[CalcWidth(symbols, pivot, j) - 1] else 0
    {
      pivot := PivotFor(symbols, width, generated, randomPivot);
      FillZero(coefficients);
      coefficients[pivot] := 1;
      WriteWindow(coefficients, symbols, pivot, draws, width);
      generated := generated + 1;
      if width < symbols {
        WindowShape(Zeros(symbols)[pivot := 1], symbols, pivot, draws, Repeat(true, symbols), width);
      }
    }

    /// `generate_partial`, given the decoder's `rank()`, its
    /// `is_symbol_pivot` flags, the pivot the redraw loop settles on (a
    /// pivot symbol whenever the rank is positive) and the symbol
    /// distribution's draws: the zero vector for rank 0; otherwise only
    /// pivot symbols in the pivot's window are non-zero, and the pivot is
    /// 1 unless a full-width window wraps a draw onto it.
    method GeneratePartial(coefficients: array<nat>, rank: nat, isPivot: seq<bool>, randomPivot: nat, draws: seq<nat>)
      requires Valid() && coefficients.Length == symbols == |isPivot|
      requires randomPivot < symbols && (rank > 0 ==> isPivot[randomPivot]) && |draws| == width
      modifies coefficients
      ensures rank == 0 ==> coefficients[..] == Zeros(symbols)
      ensures rank > 0 ==> coefficients[..] == Window(Zeros(symbols)[randomPivot := 1], symbols, randomPivot, draws, isPivot, width)
      ensures rank > 0 && width < symbols ==> coefficients[randomPivot] == 1
      ensures forall j :: 0 <= j < symbols && coefficients[j] != 0 ==>
        isPivot[j] && CalcWidth(symbols, randomPivot, j) <= width
    {
      FillZero(coefficients);
      if rank == 0 {
        return;
      }
      var pivot := randomPivot;
      coefficients[pivot] := 1;
      ghost var base := coefficients[..];
      var i := 1;
      while i <= width
        invariant 1 <= i <= width + 1
        invariant coefficients[..] == Window(base, symbols, pivot, draws, isPivot, i - 1)
      {
        var index := (pivot + i) % symbols;
        WindowIndexIsMod(symbols, pivot, i);
        if isPivot[index] {
          coefficients[index] := draws[i - 1];
        }
        i := i + 1;
      }
      if width < symbols {
        WindowShape(base, symbols, pivot, draws, isPivot, width);
      }
      WindowSupport(base, symbols, pivot, draws, isPivot, width);
      forall j | 0 <= j < symbols && coefficients[j] != 0
        ensures isPivot[j] && CalcWidth(symbols, pivot, j) <= width
      {
        if base[j] != 0 {
          CalcWidthInverse(symbols, pivot, 0, j);
        }
      }
    }

    /// `find_back`, as intended: scanning backwards from the hint (the
    /// last index when there is none) and wrapping to the end, the first
    /// non-zero coefficient, that is the one nearest before the hint; none
    /// exactly when the vector is zero. The source asserts the hint is an
    /// index.
    method FindBack(coefficients: seq<nat>, hint: Option<nat>) returns (r: Option<nat>)
      requires Valid() && symbols <= |coefficients|
      requires hint.Some? ==> hint.value < symbols
      ensures r.None? <==> forall j :: 0 <= j < symbols ==> coefficients[j] == 0
      ensures r.Some? ==> r.value < symbols && coefficients[r.value] != 0
      ensures r.Some? ==> var back := if hint.Some? then hint.value else symbols - 1;
        forall j :: 0 <= j < symbols && CalcWidth(symbols, j, back) < CalcWidth(symbols, r.value, back) ==> coefficients[j] == 0
    {
      var back := if hint.Some? then hint.value else symbols - 1;
      var i := 0;
      while i < symbols
        invariant 0 <= i <= symbols
        invariant forall k :: 0 <= k < i ==> coefficients[ScanIndex(symbols, back, k)] == 0
      {
        var index := (back + symbols - i) % symbols;
        ModOnce(back + symbols - i, symbols);
        assert index == ScanIndex(symbols, back, i);
        if coefficients[index] != 0 {
          forall j | 0 <= j < symbols && CalcWidth(symbols, j, back) < CalcWidth(symbols, index, back)
            ensures coefficients[j] == 0
          {
            ScanIndexWidth(symbols, back, i, j);
          }
          return Some(index);
        }
        i := i + 1;
      }
      forall j | 0 <= j < symbols
        ensures coefficients[j] == 0
      {
        ScanIndexWidth(symbols, back, 0, j);
      }
      return None;
    }
  }

  /// Ten symbols, a hint of 2 and a single non-zero coefficient at
  /// index 7: the scan as written visits 2, 1, 0, 5, 4, 3, 2, 1, 0, 9
  /// and reports the vector as zero; the intended scan finds index 7.
  method FindBackExample() returns (asWritten: Option<nat>, intended: Option<nat>)
    ensures asWritten == None && intended == Some(7)
  {
    var c := [0, 0, 0, 0, 0, 0, 0, 1, 0, 0];
    assert forall i :: 0 <= i < 10 ==> ScanIndexAsWritten(10, 2, i) in {2, 1, 0, 5, 4, 3, 9};
    asWritten := FindBackAsWritten(c, 10, 2, 0);
    var generator := new PerpetualGenerator(Binary8);
    generator.Initialize(10);
    intended := generator.FindBack(c, Some(2));
    assert c[7] != 0;
    assert forall j :: 0 <= j < 10 && j != 7 ==> c[j] == 0;
  }

  /// The window loop of `generate`: position `(pivot + i) % symbols`
  /// takes draw `i - 1` for `i = 1 .. width`.
  method WriteWindow(coefficients: array<nat>, symbols: nat, pivot: nat, draws: seq<nat>, width: nat)
    requires coefficients.Length == symbols && pivot < symbols && width <= symbols && |draws| == width
    modifies coefficients
    ensures coefficients[..] == Window(old(coefficients[..]), symbols, pivot, draws, Repeat(true, symbols), width)
  {
    ghost var base := coefficients[..];
    var i := 1;
    while i <= width
      invariant 1 <= i <= width + 1
      invariant coefficients[..] == Window(base, symbols, pivot, draws, Repeat(true, symbols), i - 1)
    {
      var index := (pivot + i) % symbols;
      WindowIndexIsMod(symbols, pivot, i);
      coefficients[index] := draws[i - 1];
      i := i + 1;
    }
  }

  /// `std::fill_n(coefficients, size, 0)`.
  method FillZero(a: array<nat>)
    modifies a
    ensures a[..] == Zeros(a.Length)
  {
    var k := 0;
    while k < a.Length
      invariant 0 <= k <= a.Length
      invariant forall j :: 0 <= j < k ==> a[j] == 0
    {
      a[k] := 0;
      k := k + 1;
    }
  }
}
