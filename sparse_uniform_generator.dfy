/// The `sparse_uniform_generator` layer: each coefficient is non-zero
/// with probability `density`; a non-zero coefficient is 1 in the binary
/// field and otherwise drawn uniformly from 1 to the field's largest
/// value. The Bernoulli and value draws are inputs of the model: at
/// position `i`, `chosen[i]` is the Bernoulli outcome and `draws[i]` the
/// value drawn after it.
module SparseUniformGenerator {
  import opened Wrappers
  import opened FiniteField

  /// The vector the generator writes: position `i` is set where `allowed`
  /// and the Bernoulli draw both say so, to 1 in the binary field and to
  /// the value drawn otherwise; every other position is zero.
  function Sparse(field: Field, allowed: seq<bool>, chosen: seq<bool>, draws: seq<nat>): (r: seq<nat>)
    requires |allowed| == |chosen| == |draws|
    requires forall i :: 0 <= i < |draws| ==> 1 <= draws[i] <= MaxValue(field)
    ensures |r| == |allowed|
    ensures forall i :: 0 <= i < |r| ==> (r[i] != 0 <==> allowed[i] && chosen[i])
    ensures forall i :: 0 <= i < |r| ==> r[i] <= MaxValue(field)
    ensures field == Binary ==> forall i :: 0 <= i < |r| ==> r[i] == if allowed[i] && chosen[i] then 1 else 0
  {
    seq(|allowed|, i requires 0 <= i < |allowed| =>
      if allowed[i] && chosen[i] then (if field == Binary then 1 else draws[i]) else 0)
  }

  /// Where each coefficient is non-zero.
  function NonZero(c: seq<nat>): (r: seq<bool>)
    ensures |r| == |c| && forall i :: 0 <= i < |c| ==> (r[i] <==> c[i] != 0)
  {
    seq(|c|, i requires 0 <= i < |c| => c[i] != 0)
  }

  /// A vector restricted to the pivot symbols has no more non-zero
  /// coefficients than there are pivots, that is than the decoder's rank.
  lemma {:induction false} PartialCountBelowRank(field: Field, isPivot: seq<bool>, chosen: seq<bool>, draws: seq<nat>)
    requires |isPivot| == |chosen| == |draws|
    requires forall i :: 0 <= i < |draws| ==> 1 <= draws[i] <= MaxValue(field)
    ensures Count(NonZero(Sparse(field, isPivot, chosen, draws))) <= Count(isPivot)
  {
    var nz := NonZero(Sparse(field, isPivot, chosen, draws));
    CountSubset(nz, isPivot);
  }

  class SparseGenerator {
    const field: Field
    /// `symbols()` of the layers below.
    const symbols: nat
    /// The Bernoulli distribution's probability.
    var density: real

    /// The constructor: density one half.
    constructor(field: Field, symbols: nat)
      ensures this.field == field && this.symbols == symbols && density == 0.5
    {
      this.field := field;
      this.symbols := symbols;
      density := 0.5;
    }

    /// `set_density`: the source asserts a positive density, below 1 in
    /// the binary field (where density 1 would always give the all-ones
    /// vector); the Bernoulli distribution itself asserts at most 1.
    method SetDensity(density: real)
      requires 0.0 < density <= 1.0
      requires field == Binary ==> density < 1.0
      modifies this
      ensures this.density == density
    {
      this.density := density;
    }

    /// `set_average_nonzero_symbols`: the density giving `average`
    /// non-zero coefficients on average; the source asserts it is
    /// positive and below the symbols (binary) or at most them (others).
    method SetAverageNonzeroSymbols(average: real)
      requires average > 0.0
      requires field == Binary ==> average < symbols as real
      requires field != Binary ==> average <= symbols as real
      modifies this
      ensures density == average / symbols as real
      ensures density * symbols as real == average
    {
      SetDensity(average / symbols as real);
    }

    /// `density`.
    function Density(): real
      reads this
    {
      density
    }

    /// `generate`: the whole vector is zeroed, then each position takes a
    /// non-zero value exactly where its Bernoulli draw says so.
    method Generate(coefficients: array<nat>, chosen: seq<bool>, draws: seq<nat>)
      requires coefficients.Length == symbols == |chosen| == |draws|
      requires forall i :: 0 <= i < |draws| ==> 1 <= draws[i] <= MaxValue(field)
      modifies coefficients
      ensures coefficients[..] == Sparse(field, Repeat(true, symbols), chosen, draws)
      ensures forall i :: 0 <= i < symbols ==> (coefficients[i] != 0 <==> chosen[i])
    {
      Fill(coefficients, Repeat(true, symbols), chosen, draws);
    }

    /// `generate_partial`, given the decoder's `is_symbol_pivot` flags:
    /// only pivot symbols can be non-zero.
    method GeneratePartial(coefficients: array<nat>, isPivot: seq<bool>, chosen: seq<bool>, draws: seq<nat>)
      requires coefficients.Length == symbols == |isPivot| == |chosen| == |draws|
      requires forall i :: 0 <= i < |draws| ==> 1 <= draws[i] <= MaxValue(field)
      modifies coefficients
      ensures coefficients[..] == Sparse(field, isPivot, chosen, draws)
      ensures forall i :: 0 <= i < symbols && !isPivot[i] ==> coefficients[i] == 0
      ensures Count(NonZero(coefficients[..])) <= Count(isPivot)
    {
      Fill(coefficients, isPivot, chosen, draws);
      PartialCountBelowRank(field, isPivot, chosen, draws);
    }

    /// The loop shared by both: zero the vector, then set each allowed
    /// position whose Bernoulli draw succeeds.
    method Fill(coefficients: array<nat>, allowed: seq<bool>, chosen: seq<bool>, draws: seq<nat>)
      requires coefficients.Length == |allowed| == |chosen| == |draws|
      requires forall i :: 0 <= i < |draws| ==> 1 <= draws[i] <= MaxValue(field)
      modifies coefficients
      ensures coefficients[..] == Sparse(field, allowed, chosen, draws)
    {
      var k := 0;
      while k < coefficients.Length
        invariant 0 <= k <= coefficients.Length
        invariant forall j :: 0 <= j < k ==> coefficients[j] == 0
      {
        coefficients[k] := 0;
        k := k + 1;
      }
      var i := 0;
      while i < coefficients.Length
        invariant 0 <= i <= coefficients.Length
        invariant forall j :: 0 <= j < i ==> coefficients[j] == Sparse(field, allowed, chosen, draws)[j]
        invariant forall j :: i <= j < coefficients.Length ==> coefficients[j] == 0
      {
        if allowed[i] && chosen[i] {
          if field == Binary {
            coefficients[i] := 1;
          } else {
            coefficients[i] := draws[i];
          }
        }
        i := i + 1;
      }
    }
  }

  /// The density test: half the symbols on average gives density one
  /// half; in a larger field all of them gives density 1.
  method DensityExample() returns (binary: real, binary8: real)
    ensures binary == 0.5 && binary8 == 1.0
  {
    var g := new SparseGenerator(Binary, 16);
    g.SetAverageNonzeroSymbols(8.0);
    binary := g.Density();
    var g8 := new SparseGenerator(Binary8, 16);
    g8.SetAverageNonzeroSymbols(16.0);
    binary8 := g8.Density();
  }
}
