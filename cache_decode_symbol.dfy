/// The `cache_decode_symbol` layer: it keeps a copy of the last symbol
/// handed to the decoder, its data and either its coding coefficients
/// (coded) or its index (systematic), and passes the call on when the
/// layers below decode symbols themselves.
module CacheDecodeSymbol {
  import opened Wrappers
  import opened SakStorage

  /// A call passed on to the layers below.
  datatype Forwarded =
    | CodedSymbol(data: seq<Byte>, coefficients: seq<Byte>)
    | UncodedSymbol(data: seq<Byte>, index: nat)

  class SymbolCache {
    const maxSymbolSize: nat
    const maxCoefficientVectorSize: nat
    /// Whether the layers below define `decode_symbol`.
    const lowerDecodes: bool
    /// The current `symbols()`, `symbol_size()` and
    /// `coefficient_vector_size()` of the layers below.
    var symbols: nat
    var symbolSize: nat
    var coefficientVectorSize: nat
    /// `m_data`, `m_coefficients`.
    const data: array<Byte>
    const coefficients: array<Byte>
    /// `m_symbol_coded`, `m_symbol_index`, `m_valid`.
    var symbolCoded: bool
    var symbolIndex: nat
    var valid: bool
    /// The calls passed to the layers below, oldest first.
    var forwarded: seq<Forwarded>

    predicate Valid()
      reads this
    {
      data.Length == maxSymbolSize && coefficients.Length == maxCoefficientVectorSize &&
      data != coefficients &&
      symbolSize <= maxSymbolSize && coefficientVectorSize <= maxCoefficientVectorSize
    }

    /// `construct`: buffers of the factory's maximal symbol and
    /// coefficient vector sizes.
    constructor(maxSymbolSize: nat, maxCoefficientVectorSize: nat, lowerDecodes: bool)
      ensures Valid() && fresh(data) && fresh(coefficients)
      ensures this.maxSymbolSize == maxSymbolSize && this.maxCoefficientVectorSize == maxCoefficientVectorSize
      ensures this.lowerDecodes == lowerDecodes && !valid && forwarded == []
    {
      this.maxSymbolSize := maxSymbolSize;
      this.maxCoefficientVectorSize := maxCoefficientVectorSize;
      this.lowerDecodes := lowerDecodes;
      symbols := 0;
      symbolSize := maxSymbolSize;
      coefficientVectorSize := maxCoefficientVectorSize;
      data := new Byte[maxSymbolSize](_ => 0);
      coefficients := new Byte[maxCoefficientVectorSize](_ => 0);
      symbolCoded := false;
      symbolIndex := 0;
      valid := false;
      forwarded := [];
    }

    /// `initialize`: the cache holds nothing valid.
    method Initialize(symbols: nat, symbolSize: nat, coefficientVectorSize: nat)
      requires Valid()
      requires symbolSize <= maxSymbolSize && coefficientVectorSize <= maxCoefficientVectorSize
      modifies this
      ensures Valid() && !IsCacheValid() && forwarded == old(forwarded)
      ensures this.symbols == symbols && this.symbolSize == symbolSize
      ensures this.coefficientVectorSize == coefficientVectorSize
    {
      this.symbols := symbols;
      this.symbolSize := symbolSize;
      this.coefficientVectorSize := coefficientVectorSize;
      valid := false;
    }

    /// `decode_symbol(data, coefficients)`: a coded symbol is cached.
    method DecodeCoded(symbolData: seq<Byte>, symbolCoefficients: seq<Byte>)
      requires Valid() && |symbolData| == symbolSize && |symbolCoefficients| == coefficientVectorSize
      modifies this, data, coefficients
      ensures Valid() && IsCacheValid() && CachedSymbolCoded()
      ensures CachedSymbolData() == symbolData
      ensures CachedSymbolCoefficients() == symbolCoefficients
      ensures symbols == old(symbols) && symbolSize == old(symbolSize)
      ensures coefficientVectorSize == old(coefficientVectorSize)
      ensures forwarded == old(forwarded) + (if lowerDecodes then [CodedSymbol(symbolData, symbolCoefficients)] else [])
    {
      CopyStorage(data, 0, symbolData);
      CopyStorage(coefficients, 0, symbolCoefficients);
      symbolCoded := true;
      valid := true;
      if lowerDecodes {
        forwarded := forwarded + [CodedSymbol(symbolData, symbolCoefficients)];
      }
    }

    /// `decode_symbol(data, index)`: a systematic symbol is cached.
    method DecodeUncoded(symbolData: seq<Byte>, index: nat)
      requires Valid() && |symbolData| == symbolSize && index < symbols
      modifies this, data
      ensures Valid() && IsCacheValid() && !CachedSymbolCoded()
      ensures CachedSymbolData() == symbolData
      ensures CachedSymbolIndex() == index
      ensures symbols == old(symbols) && symbolSize == old(symbolSize)
      ensures coefficientVectorSize == old(coefficientVectorSize)
      ensures forwarded == old(forwarded) + (if lowerDecodes then [UncodedSymbol(symbolData, index)] else [])
    {
      CopyStorage(data, 0, symbolData);
      symbolIndex := index;
      symbolCoded := false;
      valid := true;
      if lowerDecodes {
        forwarded := forwarded + [UncodedSymbol(symbolData, index)];
      }
    }

    /// `is_cache_valid`.
    predicate IsCacheValid()
      reads this
    {
      valid
    }

    /// `cached_symbol_coded`.
    predicate CachedSymbolCoded()
      reads this
      requires IsCacheValid()
    {
      symbolCoded
    }

    /// `cached_symbol_index`.
    function CachedSymbolIndex(): nat
      reads this
      requires IsCacheValid() && !CachedSymbolCoded()
    {
      symbolIndex
    }

    /// `cached_symbol_data`: the `symbol_size()` bytes it points at.
    function CachedSymbolData(): seq<Byte>
      reads this, data
      requires Valid() && IsCacheValid()
    {
      data[..symbolSize]
    }

    /// `cached_symbol_coefficients`: the `coefficient_vector_size()`
    /// bytes it points at.
    function CachedSymbolCoefficients(): seq<Byte>
      reads this, coefficients
      requires Valid() && IsCacheValid() && CachedSymbolCoded()
    {
      coefficients[..coefficientVectorSize]
    }
  }
}
