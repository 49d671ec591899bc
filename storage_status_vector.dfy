/// The `storage_status_vector` layer: one bit per symbol recording
/// whether the storage below holds data for it, read by the coefficient
/// generators to build partial coefficient vectors.
module StorageStatusVector {
  import opened Wrappers

  class StatusVector {
    const maxSymbols: nat
    /// The current `symbols()` of the layers below.
    var symbols: nat
    /// `storage_status()`: `max_symbols` bits.
    var status: seq<bool>

    predicate Valid()
      reads this
    {
      |status| == maxSymbols && symbols <= maxSymbols
    }

    /// `construct`: `max_symbols` clear bits.
    constructor(maxSymbols: nat)
      ensures Valid() && this.maxSymbols == maxSymbols && symbols == maxSymbols
      ensures Count(status) == 0
    {
      this.maxSymbols := maxSymbols;
      symbols := maxSymbols;
      status := Repeat(false, maxSymbols);
      new;
      CountAllFalse(status);
    }

    /// `initialize`: every bit reset.
    method Initialize(symbols: nat)
      requires Valid() && symbols <= maxSymbols
      modifies this
      ensures Valid() && this.symbols == symbols
      ensures forall i :: 0 <= i < maxSymbols ==> !status[i]
    {
      this.symbols := symbols;
      status := Repeat(false, maxSymbols);
    }

    /// `set_symbols`, `copy_into_symbols` and `swap_symbols`: the whole
    /// block is stored, so every bit is set.
    method SetSymbols()
      requires Valid()
      modifies this
      ensures Valid() && symbols == old(symbols)
      ensures forall i :: 0 <= i < maxSymbols ==> status[i]
      ensures Count(status) == maxSymbols
    {
      status := Repeat(true, maxSymbols);
      CountAllTrue(status);
    }

    /// `set_symbol`: only the bit of symbol `index` is set.
    method SetSymbol(index: nat)
      requires Valid() && index < symbols
      modifies this
      ensures Valid() && symbols == old(symbols)
      ensures status == old(status)[index := true]
      ensures Count(status) == if old(status[index]) then Count(old(status)) else Count(old(status)) + 1
    {
      if !status[index] {
        CountSetTrue(status, index);
        status := status[index := true];
      } else {
        assert status[index := true] == status;
      }
    }
  }
}
