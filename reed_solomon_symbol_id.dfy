/// The `reed_solomon_symbol_id` layer: the factory caches one generator
/// matrix per symbol count, so coders of the same block size share it,
/// and the symbol id of a Reed-Solomon symbol is one field value.
module ReedSolomonSymbolId {
  import opened FiniteField

  /// A generator matrix as these layers see it: the symbol count it was
  /// built for and the size in bytes of each of its rows.
  class GeneratorMatrix {
    const symbols: nat
    const rowSize: nat

    constructor(symbols: nat, rowSize: nat)
      ensures this.symbols == symbols && this.rowSize == rowSize
    {
      this.symbols := symbols;
      this.rowSize := rowSize;
    }
  }

  /// No symbol count occurs twice.
  predicate Distinct(counts: seq<nat>)
  {
    forall a, b :: 0 <= a < b < |counts| ==> counts[a] != counts[b]
  }

  class SymbolIdFactory {
    const field: Field
    const maxSymbols: nat
    /// The factory's current `symbols()`.
    var symbols: nat
    /// `m_cache`.
    var cache: map<nat, GeneratorMatrix>
    /// The symbol counts passed to `construct_matrix`, oldest first.
    var constructed: seq<nat>

    /// Every cached matrix was built for its key, with a row of the
    /// coefficient vector size of that many symbols, and a matrix was
    /// constructed once for each cached symbol count and never again.
    predicate Valid()
      reads this, cache.Values
    {
      symbols <= maxSymbols &&
      (forall k :: k in cache ==> cache[k].symbols == k && cache[k].rowSize == ElementsToSize(field, k)) &&
      (forall k :: k in cache ==> k in constructed) &&
      (forall i :: 0 <= i < |constructed| ==> constructed[i] in cache) &&
      Distinct(constructed)
    }

    constructor(field: Field, maxSymbols: nat)
      ensures Valid() && this.field == field && this.maxSymbols == maxSymbols
      ensures symbols == maxSymbols && cache == map[] && constructed == []
    {
      this.field := field;
      this.maxSymbols := maxSymbols;
      symbols := maxSymbols;
      cache := map[];
      constructed := [];
    }

    /// `set_symbols` of the layers below.
    method SetSymbols(symbols: nat)
      requires Valid() && symbols <= maxSymbols
      modifies this
      ensures Valid() && this.symbols == symbols && cache == old(cache) && constructed == old(constructed)
    {
      this.symbols := symbols;
    }

    /// `build_matrix`: the cached matrix for the current symbol count,
    /// constructed by the layer below (which asserts the count is
    /// positive) only when none is cached.
    method BuildMatrix() returns (m: GeneratorMatrix)
      requires Valid() && symbols > 0
      modifies this
      ensures Valid() && symbols == old(symbols)
      ensures symbols in cache && m == cache[symbols]
      ensures m.symbols == symbols && m.rowSize == ElementsToSize(field, symbols)
      ensures symbols in old(cache) ==> cache == old(cache) && constructed == old(constructed)
      ensures symbols !in old(cache) ==>
        fresh(m) && cache == old(cache)[symbols := m] && constructed == old(constructed) + [symbols]
    {
      if symbols !in cache {
        var built := new GeneratorMatrix(symbols, ElementsToSize(field, symbols));
        assert symbols !in constructed;
        cache := cache[symbols := built];
        constructed := constructed + [symbols];
      }
      m := cache[symbols];
    }

    /// `max_id_size`: one field value.
    function MaxIdSize(): nat
    {
      ValueBytes(field)
    }
  }

  class SymbolId {
    const field: Field
    /// `m_matrix`.
    var matrix: GeneratorMatrix?

    constructor(field: Field)
      ensures this.field == field && matrix == null
    {
      this.field := field;
      matrix := null;
    }

    /// `initialize`: the factory's matrix for the current symbol count.
    /// The source asserts its rows are the coefficient vector size.
    method Initialize(factory: SymbolIdFactory, coefficientVectorSize: nat)
      requires factory.Valid() && factory.field == field && factory.symbols > 0
      requires coefficientVectorSize == ElementsToSize(field, factory.symbols)
      modifies this, factory
      ensures factory.Valid() && factory.symbols == old(factory.symbols)
      ensures factory.symbols in factory.cache && matrix == factory.cache[factory.symbols]
      ensures matrix.rowSize == coefficientVectorSize
      ensures factory.symbols in old(factory.cache) ==>
        factory.cache == old(factory.cache) && factory.constructed == old(factory.constructed)
      ensures factory.symbols !in old(factory.cache) ==>
        fresh(matrix) && factory.cache == old(factory.cache)[factory.symbols := matrix] &&
        factory.constructed == old(factory.constructed) + [factory.symbols]
    {
      matrix := factory.BuildMatrix();
    }

    /// `id_size`: one field value.
    function IdSize(): nat
    {
      ValueBytes(field)
    }
  }

  /// Two coders of the same block size from one factory share one matrix,
  /// constructed once; a coder of another size gets its own.
  method SharedMatrixExample() returns (shared: bool, separate: bool, constructions: nat)
    ensures shared && separate && constructions == 2
  {
    var factory := new SymbolIdFactory(Binary8, 10);
    var first := new SymbolId(Binary8);
    var second := new SymbolId(Binary8);
    first.Initialize(factory, 10);
    second.Initialize(factory, 10);
    shared := first.matrix == second.matrix;
    factory.SetSymbols(4);
    var third := new SymbolId(Binary8);
    third.Initialize(factory, 4);
    separate := third.matrix != first.matrix;
    constructions := |factory.constructed|;
  }

  /// A symbol id is one field value: a byte in `binary8`, two bytes in
  /// `binary16`, for the factory and for the coder alike.
  method IdSizeExample() returns (idSizes: seq<nat>)
    ensures idSizes == [1, 1, 2, 2]
  {
    var narrow := new SymbolIdFactory(Binary8, 10);
    var narrowId := new SymbolId(Binary8);
    var wide := new SymbolIdFactory(Binary16, 10);
    var wideId := new SymbolId(Binary16);
    idSizes := [narrow.MaxIdSize(), narrowId.IdSize(), wide.MaxIdSize(), wideId.IdSize()];
  }
}
