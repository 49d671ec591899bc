/// The `status_deep_symbol_storage` layer: on top of a deep storage it
/// tracks which symbols have been initialised with data, and how many.
/// The data itself goes to the storage layer below, modelled by
/// `DeepSymbolStorage.DeepStorage`; this layer only keeps the flags.
module StatusDeepSymbolStorage {
  import opened Wrappers

  class StatusDeepStorage {
    const maxSymbols: nat
    /// The current `symbols()` of the layers below.
    var symbols: nat
    /// One flag per possible symbol; only the first `symbols` are in use.
    var initialized: seq<bool>
    var count: nat

    /// The count is the number of initialised symbols of the block.
    predicate Valid()
      reads this
    {
      |initialized| == maxSymbols && symbols <= maxSymbols &&
      count == Count(initialized[..symbols])
    }

    /// `construct`: `max_symbols` flags, all clear.
    constructor(maxSymbols: nat)
      ensures Valid() && this.maxSymbols == maxSymbols && symbols == maxSymbols
      ensures initialized == Repeat(false, maxSymbols) && count == 0
    {
      this.maxSymbols := maxSymbols;
      symbols := maxSymbols;
      initialized := Repeat(false, maxSymbols);
      count := 0;
      new;
      assert initialized[..symbols] == initialized;
      CountAllFalse(initialized);
    }

    /// `initialize`: every flag cleared and the count reset.
    method Initialize(symbols: nat)
      requires symbols <= maxSymbols
      modifies this
      ensures Valid() && this.symbols == symbols
      ensures initialized == Repeat(false, maxSymbols) && count == 0
    {
      this.symbols := symbols;
      initialized := Repeat(false, maxSymbols);
      count := 0;
      CountAllFalse(initialized[..symbols]);
    }

    /// `set_symbols` and `swap_symbols`: the whole block is given at once,
    /// so every symbol counts as initialised.
    method SetSymbols()
      requires Valid()
      modifies this
      ensures Valid() && symbols == old(symbols)
      ensures initialized == Repeat(true, maxSymbols) && count == symbols
    {
      count := symbols;
      initialized := Repeat(true, maxSymbols);
      CountAllTrue(initialized[..symbols]);
    }

    /// `set_symbol`: symbol `index` is initialised; it is counted only the
    /// first time.
    method SetSymbol(index: nat)
      requires Valid() && index < symbols
      modifies this
      ensures Valid() && symbols == old(symbols)
      ensures initialized == old(initialized)[index := true]
      ensures count == if old(initialized[index]) then old(count) else old(count) + 1
    {
      if !initialized[index] {
        assert initialized[index := true][..symbols] == initialized[..symbols][index := true];
        CountSetTrue(initialized[..symbols], index);
        count := count + 1;
        initialized := initialized[index := true];
      }
    }

    /// `symbols_available`: the deep buffer always holds every symbol.
    function SymbolsAvailable(): (r: nat)
      reads this
      requires Valid()
      ensures r == symbols
    {
      symbols
    }

    /// `symbols_initialized`: the number of symbols given data so far.
    function SymbolsInitialized(): (r: nat)
      reads this
      requires Valid()
      ensures r <= symbols
    {
      count
    }

    /// `is_symbols_initialized`: true exactly when every symbol of the
    /// block has been initialised.
    function IsSymbolsInitialized(): (r: bool)
      reads this
      requires Valid()
      ensures r <==> forall i :: 0 <= i < symbols ==> initialized[i]
    {
      CountFull(initialized[..symbols]);
      count == symbols
    }

    /// `is_symbol_initialized(i)`: the flag of symbol `i`. Within the
    /// block, a fully initialised block has every flag set, and a symbol
    /// still missing keeps the count below `symbols()`.
    function IsSymbolInitialized(index: nat): (r: bool)
      reads this
      requires Valid() && index < maxSymbols
      ensures index < symbols && IsSymbolsInitialized() ==> r
      ensures index < symbols && !r ==> SymbolsInitialized() < symbols
    {
      initialized[index]
    }
  }
}
