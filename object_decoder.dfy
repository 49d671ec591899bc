/// `object_decoder` splits an object of a given size into blocks with a
/// partitioning scheme and builds one decoder per block from a shared
/// factory; `set_symbols_object_storage` hands each built stack a slice
/// of exactly one block of a caller's buffer.
module ObjectDecoder {
  import opened Wrappers
  import opened PartitioningScheme
  import opened StorageBlockSize
  import opened CodecStack

  class ObjectDecoder {
    const factory: BlockSizeFactory
    const partitioning: Scheme
    const objectSize: nat

    /// The partitioning is the scheme for the factory's maxima and the
    /// object size.
    predicate Valid()
      reads this, factory
    {
      factory.Valid() && objectSize > 0 &&
      partitioning == SchemeOf(factory.maxSymbols, factory.maxSymbolSize, objectSize)
    }

    constructor(decoderFactory: BlockSizeFactory, objectSize: nat)
      requires decoderFactory.Valid() && objectSize > 0
      ensures Valid() && factory == decoderFactory && this.objectSize == objectSize
    {
      var p := NewScheme(decoderFactory.maxSymbols, decoderFactory.maxSymbolSize, objectSize);
      factory := decoderFactory;
      this.objectSize := objectSize;
      partitioning := p;
    }

    /// One decoder per block.
    function Decoders(): (r: nat)
      reads this, factory
      requires Valid()
      ensures r > 0 && r == partitioning.totalBlocks
    {
      partitioning.Blocks()
    }

    /// Configures the shared factory for block `id`, builds a decoder and
    /// tells it how many of its bytes belong to the object.
    method Build(id: nat) returns (decoder: Stack)
      requires Valid() && id < Decoders()
      modifies factory
      ensures Valid()
      ensures factory.symbols == partitioning.Symbols(id)
      ensures factory.symbolSize == partitioning.SymbolSize(id)
      ensures fresh(decoder)
      ensures decoder.symbols == partitioning.Symbols(id) && decoder.symbolSize == partitioning.SymbolSize(id)
      ensures decoder.bytesUsed == Some(partitioning.BytesUsed(id))
    {
      var symbols := partitioning.Symbols(id);
      var symbolSize := partitioning.SymbolSize(id);
      factory.SetSymbols(symbols);
      factory.SetSymbolSize(symbolSize);
      decoder := new Stack(factory.symbols, factory.symbolSize);
      var bytesUsed := partitioning.BytesUsed(id);
      decoder.SetBytesUsed(bytesUsed);
    }
  }

  /// The slice `set_symbols_object_storage::build` hands block `index`:
  /// exactly one block, starting at the block's offset.
  function FullBlockSlice(storage: Storage, scheme: Scheme, index: nat): (r: Storage)
    requires scheme.Valid() && index < scheme.totalBlocks
    requires storage.data.Some?
    ensures r.data == Some(storage.data.value + scheme.ByteOffset(index))
    ensures r.size == scheme.BlockSize(index)
  {
    Storage(Some(storage.data.value + scheme.ByteOffset(index)), scheme.BlockSize(index))
  }

  /// A buffer of the scheme's total block size leaves a whole block after
  /// the offset of every block, so the layer's assertion holds on it.
  lemma TotalBlockSizeFitsEveryBlock(storage: Storage, scheme: Scheme, index: nat)
    requires scheme.Valid() && index < scheme.totalBlocks
    requires storage.size >= scheme.TotalBlockSize()
    ensures storage.size - scheme.ByteOffset(index) >= scheme.BlockSize(index)
  {
    var b := scheme.BlockSize(index);
    assert scheme.ByteOffset(index) == b * index;
    assert b * index + b == b * (index + 1);
    MulMonotone(b, index + 1, scheme.totalBlocks);
    assert b * scheme.totalBlocks == scheme.TotalBlockSize();
  }

  class SetSymbolsObjectStorage {
    const scheme: Scheme
    const storage: Storage

    constructor(scheme: Scheme, storage: Storage)
      ensures this.scheme == scheme && this.storage == storage
    {
      this.scheme := scheme;
      this.storage := storage;
    }

    /// Builds block `index`'s codec and gives it one whole block of the
    /// buffer; at least a block must remain after the offset.
    method Build(index: nat) returns (stack: Stack)
      requires scheme.Valid() && index < scheme.totalBlocks
      requires storage.data.Some? && storage.size >= scheme.ByteOffset(index)
      requires storage.size - scheme.ByteOffset(index) >= scheme.BlockSize(index)
      ensures fresh(stack)
      ensures stack.setSymbolsCalls == [FullBlockSlice(storage, scheme, index)]
    {
      stack := new Stack(scheme.Symbols(index), scheme.SymbolSize(index));
      var offset := scheme.ByteOffset(index);
      var blockSize := scheme.BlockSize(index);
      var data := Storage(Some(storage.data.value + offset), storage.size - offset);
      data := data.(size := blockSize);
      stack.SetSymbols(data);
    }
  }
}
