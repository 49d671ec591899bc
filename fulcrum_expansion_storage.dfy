/// The `fulcrum_expansion_storage` layer: the fulcrum inner decoder's
/// nested decoder uses shallow storage, so this layer points its first
/// `symbols` symbols at the fulcrum decoder's own symbols and the next
/// `expansion` symbols at buffers the layer allocates on the side.
module FulcrumExpansionStorage {
  import opened Wrappers

  /// The memory a nested symbol is pointed at: outer symbol `index` of
  /// the fulcrum coder, or expansion buffer `index` of this layer.
  datatype SymbolSource = OuterSymbol(index: nat) | ExpansionSymbol(index: nat)

  /// What inner symbol `i` is pointed at: the outer symbols first, then
  /// the expansion buffers.
  function InnerSource(symbols: nat, i: nat): (s: SymbolSource)
  {
    if i < symbols then OuterSymbol(i) else ExpansionSymbol(i - symbols)
  }

  /// The inner symbol a source backs.
  function InnerIndex(symbols: nat, s: SymbolSource): nat
  {
    match s
    case OuterSymbol(k) => k
    case ExpansionSymbol(j) => symbols + j
  }

  /// The wiring is a bijection between the `symbols + expansion` inner
  /// symbols and the outer symbols together with the expansion buffers.
  lemma WiringIsBijective(symbols: nat, expansion: nat, i: nat, s: SymbolSource)
    requires i < symbols + expansion
    ensures InnerIndex(symbols, InnerSource(symbols, i)) == i
    ensures InnerSource(symbols, i).OuterSymbol? ==> InnerSource(symbols, i).index < symbols
    ensures InnerSource(symbols, i).ExpansionSymbol? ==> InnerSource(symbols, i).index < expansion
    ensures (s.OuterSymbol? && s.index < symbols) || (s.ExpansionSymbol? && s.index < expansion) ==>
      InnerIndex(symbols, s) < symbols + expansion && InnerSource(symbols, InnerIndex(symbols, s)) == s
  {
  }

  /// The nested coder, as far as these layers see it: its shallow symbol
  /// storage and the `set_symbol` calls made on it.
  class NestedCoder {
    const symbols: nat
    const symbolSize: nat
    /// What each nested symbol points at, if it was set.
    var storage: seq<Option<SymbolSource>>
    /// The indices passed to `set_symbol`, oldest first.
    var setSymbolCalls: seq<nat>

    predicate Valid()
      reads this
    {
      |storage| == symbols
    }

    constructor(symbols: nat, symbolSize: nat)
      ensures Valid() && this.symbols == symbols && this.symbolSize == symbolSize
      ensures storage == Repeat(None, symbols) && setSymbolCalls == []
    {
      this.symbols := symbols;
      this.symbolSize := symbolSize;
      storage := Repeat(None, symbols);
      setSymbolCalls := [];
    }

    /// `set_symbol`: symbol `index` points at `source`.
    method SetSymbol(index: nat, source: SymbolSource)
      requires Valid() && index < symbols
      modifies this
      ensures Valid() && storage == old(storage)[index := Some(source)]
      ensures setSymbolCalls == old(setSymbolCalls) + [index]
    {
      storage := storage[index := Some(source)];
      setSymbolCalls := setSymbolCalls + [index];
    }

    /// `is_symbols_initialized`: every symbol has its storage.
    predicate IsSymbolsInitialized()
      reads this
    {
      forall i :: 0 <= i < |storage| ==> storage[i].Some?
    }
  }

  /// The indices below `n`, in increasing order.
  function Indices(n: nat): (r: seq<nat>)
    ensures |r| == n && forall k :: 0 <= k < n ==> r[k] == k
  {
    seq(n, k => k)
  }

  class ExpansionStorage {
    const maxExpansion: nat
    const maxSymbolSize: nat
    /// `m_expansion_symbols`.
    var expansionSymbols: seq<seq<Byte>>

    /// `construct`: `max_expansion` buffers of `max_symbol_size` bytes.
    constructor(maxExpansion: nat, maxSymbolSize: nat)
      ensures this.maxExpansion == maxExpansion && this.maxSymbolSize == maxSymbolSize
      ensures |expansionSymbols| == maxExpansion
      ensures forall j :: 0 <= j < maxExpansion ==> |expansionSymbols[j]| == maxSymbolSize
    {
      this.maxExpansion := maxExpansion;
      this.maxSymbolSize := maxSymbolSize;
      expansionSymbols := Repeat(Repeat(0, maxSymbolSize), maxExpansion);
    }

    /// `initialize`: the outer symbols, then the expansion buffers, are
    /// set on the nested decoder, one `set_symbol` call each, in index
    /// order. The source asserts the nested decoder has the coder's inner
    /// symbols and symbol size, that `0 < symbols <= inner symbols`, and
    /// that every expansion symbol has an inner index.
    method Initialize(nested: NestedCoder, symbols: nat, expansion: nat, innerSymbols: nat, symbolSize: nat)
      requires nested.Valid() && nested.symbols == innerSymbols && nested.symbolSize == symbolSize
      requires 0 < symbols <= innerSymbols && symbols + expansion <= innerSymbols
      requires expansion <= |expansionSymbols| && symbolSize <= maxSymbolSize
      modifies nested
      ensures nested.Valid()
      ensures nested.setSymbolCalls == old(nested.setSymbolCalls) + Indices(symbols + expansion)
      ensures forall i :: 0 <= i < symbols + expansion ==> nested.storage[i] == Some(InnerSource(symbols, i))
      ensures forall i :: symbols + expansion <= i < innerSymbols ==> nested.storage[i] == old(nested.storage[i])
      ensures innerSymbols == symbols + expansion ==> nested.IsSymbolsInitialized()
    {
      var i := 0;
      while i < symbols
        invariant 0 <= i <= symbols && nested.Valid()
        invariant nested.setSymbolCalls == old(nested.setSymbolCalls) + Indices(i)
        invariant forall k :: 0 <= k < i ==> nested.storage[k] == Some(InnerSource(symbols, k))
        invariant forall k :: i <= k < innerSymbols ==> nested.storage[k] == old(nested.storage[k])
      {
        nested.SetSymbol(i, OuterSymbol(i));
        i := i + 1;
      }
      var j := 0;
      while j < expansion
        invariant 0 <= j <= expansion && nested.Valid()
        invariant nested.setSymbolCalls == old(nested.setSymbolCalls) + Indices(symbols + j)
        invariant forall k :: 0 <= k < symbols + j ==> nested.storage[k] == Some(InnerSource(symbols, k))
        invariant forall k :: symbols + j <= k < innerSymbols ==> nested.storage[k] == old(nested.storage[k])
      {
        nested.SetSymbol(symbols + j, ExpansionSymbol(j));
        j := j + 1;
      }
    }
  }

  /// The number of `set_symbol` calls `initialize` makes, with eight
  /// inner symbols of 32 bytes: eight for eight symbols and no expansion,
  /// one for one symbol, two for one symbol and an expansion of one, five
  /// for one symbol and an expansion of four. One storage with a maximal
  /// expansion of 16 and a maximal symbol size of 32 serves every case,
  /// where the unit tests give each case its own mocked factory maxima
  /// (one of them a maximal symbol size of 2 under 32-byte symbols, which
  /// the model's storage does not admit).
  method SetSymbolCallsExample() returns (counts: seq<nat>)
    ensures counts == [8, 1, 2, 5]
  {
    counts := [];
    var cases := [(8, 0), (1, 0), (1, 1), (1, 4)];
    var c := 0;
    while c < |cases|
      invariant 0 <= c <= |cases|
      invariant |counts| == c
      invariant forall k :: 0 <= k < c ==> counts[k] == cases[k].0 + cases[k].1
    {
      var nested := new NestedCoder(8, 32);
      var storage := new ExpansionStorage(16, 32);
      storage.Initialize(nested, cases[c].0, cases[c].1, 8, 32);
      counts := counts + [|nested.setSymbolCalls|];
      c := c + 1;
    }
  }
}
