/// The `systematic_coefficient_mapper` layer of the fulcrum code: an
/// inner (binary) coding vector over `symbols + expansion` symbols maps to
/// an outer coding vector over the `symbols` source symbols. Inner symbol
/// `k < symbols` is source symbol `k` itself; expansion symbol `j` is the
/// outer combination the generator produced from seed `j`.
module SystematicCoefficientMapper {
  import opened Wrappers
  import opened FiniteField

  /// Every element of a vector lies in the field.
  predicate InField(field: Field, v: seq<nat>)
  {
    forall i :: 0 <= i < |v| ==> v[i] <= MaxValue(field)
  }

  /// The vector with a single 1 at `k`.
  function UnitVector(n: nat, k: nat): (r: seq<nat>)
    ensures |r| == n && forall i :: 0 <= i < n ==> r[i] == if i == k then 1 else 0
  {
    seq(n, i => if i == k then 1 else 0)
  }

  /// Element-wise field addition (`SuperCoder::add`).
  function VectorAdd(field: Field, a: seq<nat>, b: seq<nat>): (r: seq<nat>)
    requires |a| == |b| && InField(field, a) && InField(field, b)
    ensures |r| == |a| && InField(field, r)
    ensures forall i :: 0 <= i < |r| ==> r[i] == Add(field, a[i], b[i])
  {
    seq(|a|, i requires 0 <= i < |a| => Add(field, a[i], b[i]))
  }

  /// Adding the zero vector changes nothing.
  lemma VectorAddZero(field: Field, a: seq<nat>)
    requires InField(field, a)
    ensures VectorAdd(field, Zeros(|a|), a) == a
  {
    forall i | 0 <= i < |a|
      ensures Add(field, 0, a[i]) == a[i]
    {
      AddZero(field, a[i]);
    }
  }

  /// The systematic part of the mapping: a 1 at every source symbol the
  /// inner vector includes.
  function Systematic(inner: seq<bool>, symbols: nat): (r: seq<nat>)
    requires symbols <= |inner|
    ensures |r| == symbols
    ensures forall i :: 0 <= i < symbols ==> r[i] == if inner[i] then 1 else 0
  {
    seq(symbols, i requires 0 <= i < symbols => if inner[i] then 1 else 0)
  }

  /// The outer vector after the first `n` expansion symbols: each one
  /// the inner vector includes adds its lookup vector.
  function Combine(field: Field, base: seq<nat>, lookup: seq<seq<nat>>, inner: seq<bool>, symbols: nat, n: nat): (r: seq<nat>)
    requires |base| == symbols && InField(field, base)
    requires n <= |lookup| && symbols + n <= |inner|
    requires forall j :: 0 <= j < |lookup| ==> |lookup[j]| == symbols && InField(field, lookup[j])
    ensures |r| == symbols && InField(field, r)
  {
    if n == 0 then base
    else
      var r := Combine(field, base, lookup, inner, symbols, n - 1);
      if inner[symbols + n - 1] then VectorAdd(field, r, lookup[n - 1]) else r
  }

  /// Expansion symbols the inner vector leaves out add nothing.
  lemma {:induction false} CombineNone(field: Field, base: seq<nat>, lookup: seq<seq<nat>>, inner: seq<bool>, symbols: nat, n: nat)
    requires |base| == symbols && InField(field, base)
    requires n <= |lookup| && symbols + n <= |inner|
    requires forall j :: 0 <= j < |lookup| ==> |lookup[j]| == symbols && InField(field, lookup[j])
    requires forall j :: symbols <= j < symbols + n ==> !inner[j]
    ensures Combine(field, base, lookup, inner, symbols, n) == base
  {
    if n > 0 {
      CombineNone(field, base, lookup, inner, symbols, n - 1);
    }
  }

  /// An inner vector that includes only expansion symbol `e` maps to
  /// that symbol's lookup vector.
  lemma {:induction false} CombineOne(field: Field, lookup: seq<seq<nat>>, inner: seq<bool>, symbols: nat, n: nat, e: nat)
    requires n <= |lookup| && symbols + n <= |inner| && e < |lookup| && symbols + e < |inner|
    requires forall j :: 0 <= j < |lookup| ==> |lookup[j]| == symbols && InField(field, lookup[j])
    requires forall j :: 0 <= j < |inner| ==> (inner[j] <==> j == symbols + e)
    ensures Combine(field, Zeros(symbols), lookup, inner, symbols, n) == if e < n then lookup[e] else Zeros(symbols)
  {
    if n > 0 {
      CombineOne(field, lookup, inner, symbols, n - 1, e);
      if n - 1 == e {
        VectorAddZero(field, lookup[e]);
      }
    }
  }

  /// The inner vector selecting only inner symbol `k`.
  function UnitBits(n: nat, k: nat): (r: seq<bool>)
    ensures |r| == n && forall i :: 0 <= i < n ==> (r[i] <==> i == k)
  {
    seq(n, i => i == k)
  }

  class CoefficientMapper {
    const field: Field
    /// `max_expansion()` of the factory.
    const maxExpansion: nat
    /// `symbols()` and `expansion()` of the layers below.
    var symbols: nat
    var expansion: nat
    /// `m_coefficients_lookup`: one outer vector per expansion symbol.
    var lookup: seq<seq<nat>>

    predicate Valid()
      reads this
    {
      expansion <= maxExpansion && |lookup| == maxExpansion &&
      forall j :: 0 <= j < |lookup| ==> |lookup[j]| == symbols && InField(field, lookup[j])
    }

    /// `construct`: `max_expansion` zero vectors.
    constructor(field: Field, maxExpansion: nat, symbols: nat)
      ensures Valid() && this.field == field && this.maxExpansion == maxExpansion
      ensures this.symbols == symbols && expansion == 0
    {
      this.field := field;
      this.maxExpansion := maxExpansion;
      this.symbols := symbols;
      expansion := 0;
      lookup := Repeat(Zeros(symbols), maxExpansion);
    }

    /// `initialize`, given what the generator below produces once seeded
    /// with `seed`: lookup vector `i` is the vector of seed `i`, so two
    /// mappers built alike map alike.
    method Initialize(symbols: nat, expansion: nat, generate: nat -> seq<nat>)
      requires expansion <= maxExpansion
      requires forall seed: nat :: |generate(seed)| == symbols && InField(field, generate(seed))
      modifies this
      ensures Valid() && this.symbols == symbols && this.expansion == expansion
      ensures |lookup| == maxExpansion && forall i :: 0 <= i < maxExpansion ==> lookup[i] == generate(i)
    {
      this.symbols := symbols;
      this.expansion := expansion;
      lookup := Repeat(Zeros(symbols), maxExpansion);
      var i := 0;
      while i < maxExpansion
        invariant 0 <= i <= maxExpansion && Valid()
        invariant this.symbols == symbols && this.expansion == expansion
        invariant forall k :: 0 <= k < i ==> lookup[k] == generate(k)
      {
        lookup := lookup[i := generate(i)];
        i := i + 1;
      }
    }

    /// `is_outer_systematic`: every source symbol is its own outer
    /// symbol.
    predicate IsOuterSystematic()
    {
      true
    }

    /// `map_to_outer(inner_symbol)`: the source asserts the symbol is an
    /// inner symbol. A source symbol maps to its unit vector, an
    /// expansion symbol to its lookup vector.
    method MapSymbolToOuter(innerSymbol: nat) returns (outer: seq<nat>)
      requires Valid() && innerSymbol < symbols + expansion
      ensures innerSymbol < symbols ==> outer == UnitVector(symbols, innerSymbol)
      ensures innerSymbol >= symbols ==> outer == lookup[innerSymbol - symbols]
      ensures |outer| == symbols && InField(field, outer)
    {
      if innerSymbol < symbols {
        outer := Zeros(symbols);
        outer := outer[innerSymbol := 1];
      } else {
        var offset := innerSymbol - symbols;
        outer := lookup[offset];
      }
    }

    /// `map_to_outer(inner_coefficients, outer_coefficients)`: start
    /// from the systematic part, then add the lookup vector of every
    /// expansion symbol the inner vector includes.
    method MapToOuter(inner: seq<bool>) returns (outer: seq<nat>)
      requires Valid() && symbols + expansion <= |inner|
      ensures outer == Combine(field, Systematic(inner, symbols), lookup, inner, symbols, expansion)
    {
      outer := Zeros(symbols);
      var i := 0;
      while i < symbols
        invariant 0 <= i <= symbols && |outer| == symbols
        invariant forall k :: 0 <= k < symbols ==> outer[k] == if k < i && inner[k] then 1 else 0
      {
        if inner[i] {
          outer := outer[i := 1];
        }
        i := i + 1;
      }
      assert outer == Systematic(inner, symbols);
      i := 0;
      while i < expansion
        invariant 0 <= i <= expansion
        invariant outer == Combine(field, Systematic(inner, symbols), lookup, inner, symbols, i)
      {
        var coefficientIndex := i + symbols;
        if inner[coefficientIndex] {
          outer := VectorAdd(field, outer, lookup[i]);
        }
        i := i + 1;
      }
    }

    /// The two overloads agree: the inner vector selecting only inner
    /// symbol `k` maps to what `k` itself maps to.
    lemma OverloadsAgree(k: nat)
      requires Valid() && k < symbols + expansion
      ensures Combine(field, Systematic(UnitBits(symbols + expansion, k), symbols), lookup,
                      UnitBits(symbols + expansion, k), symbols, expansion)
        == if k < symbols then UnitVector(symbols, k) else lookup[k - symbols]
    {
      var inner := UnitBits(symbols + expansion, k);
      var base := Systematic(inner, symbols);
      if k < symbols {
        assert base == UnitVector(symbols, k);
        CombineNone(field, base, lookup, inner, symbols, expansion);
      } else {
        assert base == Zeros(symbols);
        CombineOne(field, lookup, inner, symbols, expansion, k - symbols);
        assert Combine(field, base, lookup, inner, symbols, expansion) == lookup[k - symbols];
      }
    }
  }

  /// The mapper test in `binary8`: four symbols, two expansion vectors;
  /// the inner vector 100010 maps to 1 added to the first expansion
  /// vector's first element, the rest of that vector unchanged.
  lemma MapperExample()
    ensures var lookup := [[0xff, 0xf0, 0x00, 0x0f], [0x44, 0x33, 0x02, 0x01]];
      var inner := [true, false, false, false, true, false];
      Combine(Binary8, Systematic(inner, 4), lookup, inner, 4, 2) == [0xfe, 0xf0, 0x00, 0x0f]
  {
    var lookup := [[0xff, 0xf0, 0x00, 0x0f], [0x44, 0x33, 0x02, 0x01]];
    var inner := [true, false, false, false, true, false];
    var base := Systematic(inner, 4);
    assert base == [1, 0, 0, 0];
    assert Add(Binary8, 1, 0xff) == 0xfe;
    assert Add(Binary8, 0, 0xf0) == 0xf0;
    assert Add(Binary8, 0, 0x00) == 0x00;
    assert Add(Binary8, 0, 0x0f) == 0x0f;
    assert Combine(Binary8, base, lookup, inner, 4, 1) == [0xfe, 0xf0, 0x00, 0x0f];
  }
}
