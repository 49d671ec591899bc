/// The `symbol_decoding_status_bitset` layer: two bitsets record, per
/// symbol, whether the decoder has seen it (holds a pivot for it that is
/// not yet fully decoded) or decoded it. Neither bit means missing.
module SymbolDecodingStatus {
  import opened Wrappers
  import opened DynamicBitset

  /// `size_t` is 64 bits wide: differences of counts wrap modulo this.
  const SIZE_LIMIT: int := 0x1_0000_0000_0000_0000

  /// The symbols neither seen nor decoded, among the first `|seen|`.
  function CountNeither(seen: seq<bool>, decoded: seq<bool>): (n: nat)
    requires |seen| == |decoded|
    ensures n <= |seen|
  {
    if seen == [] then 0
    else (if !seen[0] && !decoded[0] then 1 else 0) + CountNeither(seen[1..], decoded[1..])
  }

  /// When no symbol is both seen and decoded, every symbol is counted
  /// exactly once by the seen, decoded and missing counts.
  lemma {:induction false} TriStateCounts(seen: seq<bool>, decoded: seq<bool>)
    requires |seen| == |decoded|
    requires forall i :: 0 <= i < |seen| ==> !(seen[i] && decoded[i])
    ensures Count(seen) + Count(decoded) + CountNeither(seen, decoded) == |seen|
  {
    if seen != [] {
      TriStateCounts(seen[1..], decoded[1..]);
    }
  }

  class StatusBitset {
    const maxSymbols: nat
    /// The current `symbols()` of the layers below.
    var symbols: nat
    /// `m_symbols_seen` and `m_symbols_decoded`.
    var seen: Bitset
    var decoded: Bitset

    predicate Valid()
      reads this
    {
      seen.Valid() && decoded.Valid() && symbols <= maxSymbols
    }

    /// No bit, padding included, is set in both bitsets.
    predicate Exclusive()
      reads this
    {
      forall i :: 0 <= i < |seen.bits| && i < |decoded.bits| ==> !(seen.bits[i] && decoded.bits[i])
    }

    /// `construct`: both bitsets sized to `max_symbols`, all clear.
    constructor(maxSymbols: nat)
      ensures Valid() && Exclusive() && this.maxSymbols == maxSymbols && symbols == maxSymbols
      ensures seen == Cleared(maxSymbols) && decoded == Cleared(maxSymbols)
    {
      this.maxSymbols := maxSymbols;
      symbols := maxSymbols;
      seen := Cleared(maxSymbols);
      decoded := Cleared(maxSymbols);
    }

    /// `initialize`: both bitsets cleared, their sizes kept.
    method Initialize(symbols: nat)
      requires Valid() && symbols <= maxSymbols
      modifies this
      ensures Valid() && Exclusive() && this.symbols == symbols
      ensures seen == Reset(old(seen)) && decoded == Reset(old(decoded))
      ensures SymbolsSeen() == 0 && SymbolsDecoded() == 0
    {
      this.symbols := symbols;
      seen := Reset(seen);
      decoded := Reset(decoded);
    }

    predicate InRange(index: nat)
      reads this
    {
      index < seen.size && index < decoded.size
    }

    /// `is_symbol_missing`: neither bit set.
    predicate IsSymbolMissing(index: nat)
      reads this
      requires Valid() && InRange(index)
    {
      !seen.bits[index] && !decoded.bits[index]
    }

    predicate IsSymbolSeen(index: nat)
      reads this
      requires Valid() && InRange(index)
    {
      seen.bits[index]
    }

    predicate IsSymbolDecoded(index: nat)
      reads this
      requires Valid() && InRange(index)
    {
      decoded.bits[index]
    }

    /// Under `Exclusive`, every symbol is in exactly one of the three
    /// states.
    lemma OneState(index: nat)
      requires Valid() && Exclusive() && InRange(index)
      ensures IsSymbolMissing(index) || IsSymbolSeen(index) || IsSymbolDecoded(index)
      ensures !(IsSymbolSeen(index) && IsSymbolDecoded(index))
      ensures IsSymbolMissing(index) <==> !IsSymbolSeen(index) && !IsSymbolDecoded(index)
    {
    }

    /// `set_symbol_missing`: both bits of `index` cleared.
    method SetSymbolMissing(index: nat)
      requires Valid() && InRange(index)
      modifies this
      ensures Valid() && InRange(index) && IsSymbolMissing(index)
      ensures symbols == old(symbols)
      ensures seen == old(seen).(bits := old(seen.bits)[index := false])
      ensures decoded == old(decoded).(bits := old(decoded.bits)[index := false])
      ensures old(Exclusive()) ==> Exclusive()
    {
      seen := seen.(bits := seen.bits[index := false]);
      decoded := decoded.(bits := decoded.bits[index := false]);
    }

    /// `set_symbol_seen`: seen set and decoded cleared for `index`.
    method SetSymbolSeen(index: nat)
      requires Valid() && InRange(index)
      modifies this
      ensures Valid() && InRange(index) && IsSymbolSeen(index) && !IsSymbolDecoded(index)
      ensures symbols == old(symbols)
      ensures seen == old(seen).(bits := old(seen.bits)[index := true])
      ensures decoded == old(decoded).(bits := old(decoded.bits)[index := false])
      ensures old(Exclusive()) ==> Exclusive()
    {
      seen := seen.(bits := seen.bits[index := true]);
      decoded := decoded.(bits := decoded.bits[index := false]);
    }

    /// `set_symbol_decoded`: decoded set and seen cleared for `index`.
    method SetSymbolDecoded(index: nat)
      requires Valid() && InRange(index)
      modifies this
      ensures Valid() && InRange(index) && IsSymbolDecoded(index) && !IsSymbolSeen(index)
      ensures symbols == old(symbols)
      ensures decoded == old(decoded).(bits := old(decoded.bits)[index := true])
      ensures seen == old(seen).(bits := old(seen.bits)[index := false])
      ensures old(Exclusive()) ==> Exclusive()
    {
      decoded := decoded.(bits := decoded.bits[index := true]);
      seen := seen.(bits := seen.bits[index := false]);
    }

    /// `symbols_seen`: the population count of the seen bitset.
    function SymbolsSeen(): nat
      reads this
    {
      CountBits(seen)
    }

    /// `symbols_decoded`: the population count of the decoded bitset.
    function SymbolsDecoded(): nat
      reads this
    {
      CountBits(decoded)
    }

    /// `symbols_missing`: `symbols() - decoded - seen` in `size_t`.
    function SymbolsMissing(): nat
      reads this
    {
      (symbols - SymbolsDecoded() - SymbolsSeen()) % SIZE_LIMIT
    }

    /// No bit is set for an index at or past `symbols()`, padding
    /// included, and the two bitsets have the same size.
    predicate SetOnlyBelowSymbols()
      reads this
      requires Valid()
    {
      seen.size == decoded.size && symbols <= seen.size &&
      forall i :: symbols <= i < |seen.bits| ==> !seen.bits[i] && !decoded.bits[i]
    }

    /// When only symbols of the block carry a status, `symbols_missing`
    /// is exactly the number of symbols of the block in the missing state.
    lemma MissingIsCount()
      requires Valid() && Exclusive() && SetOnlyBelowSymbols() && symbols < SIZE_LIMIT
      ensures SymbolsMissing() == CountNeither(seen.bits[..symbols], decoded.bits[..symbols])
      ensures SymbolsSeen() + SymbolsDecoded() <= symbols
    {
      var s := seen.bits;
      var d := decoded.bits;
      BlocksCover(seen.size);
      assert s == s[..symbols] + s[symbols..];
      assert d == d[..symbols] + d[symbols..];
      CountAppend(s[..symbols], s[symbols..]);
      CountAppend(d[..symbols], d[symbols..]);
      CountAllFalse(s[symbols..]);
      CountAllFalse(d[symbols..]);
      TriStateCounts(s[..symbols], d[..symbols]);
    }

    /// `symbols_status_len`: the blocks of the seen bitset.
    function SymbolsStatusLen(): nat
      reads this
    {
      Blocks(seen.size)
    }

    /// `get_symbols_seen`: the blocks of the seen bitset.
    function GetSymbolsSeen(): (r: seq<Byte>)
      reads this
      requires Valid()
      ensures |r| == SymbolsStatusLen()
    {
      ToBlockRange(seen)
    }

    /// `get_symbols_decoded`: the blocks of the decoded bitset.
    function GetSymbolsDecoded(): (r: seq<Byte>)
      reads this
      requires Valid()
      ensures |r| == Blocks(decoded.size)
    {
      ToBlockRange(decoded)
    }

    /// `set_symbols_seen`: the seen bitset is rebuilt from
    /// `symbols_status_len()` blocks of `data`.
    method SetSymbolsSeen(data: seq<Byte>)
      requires Valid() && SymbolsStatusLen() <= |data|
      modifies this
      ensures Valid() && symbols == old(symbols) && decoded == old(decoded)
      ensures seen == FromRange(data[..old(SymbolsStatusLen())])
      ensures SymbolsStatusLen() == old(SymbolsStatusLen())
    {
      seen := FromRange(data[..Blocks(seen.size)]);
    }

    /// `set_symbols_decoded`: the decoded bitset is rebuilt from
    /// `symbols_status_len()` blocks of `data` (the seen bitset's length).
    method SetSymbolsDecoded(data: seq<Byte>)
      requires Valid() && SymbolsStatusLen() <= |data|
      modifies this
      ensures Valid() && symbols == old(symbols) && seen == old(seen)
      ensures decoded == FromRange(data[..SymbolsStatusLen()])
    {
      decoded := FromRange(data[..Blocks(seen.size)]);
    }
  }

  /// Writing a status bitset out and reading it back in keeps every bit
  /// and every count, grows the bitset to whole blocks, and keeps the
  /// status length: `set_symbols_seen(get_symbols_seen())` changes nothing
  /// observable. A clean bitset gains only cleared bits.
  lemma {:induction false} StatusRoundTrip(b: Bitset)
    requires b.Clean()
    ensures FromRange(ToBlockRange(b)).bits == b.bits
    ensures FromRange(ToBlockRange(b)).size >= b.size
    ensures Blocks(FromRange(ToBlockRange(b)).size) == Blocks(b.size)
    ensures CountBits(FromRange(ToBlockRange(b))) == CountBits(b) == Count(b.bits[..b.size])
  {
    RangeRoundTrip(b);
    CountClean(b);
  }
}
