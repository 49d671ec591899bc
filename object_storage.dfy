/// The `object_storage` layer: the factory holds the user's object
/// buffer, and each built block codec is handed, through one
/// `set_symbols` call, the slice of that buffer its block covers. The
/// older layer of the same name builds its slices the same way and is
/// modelled by the same class.
module ObjectStorage {
  import opened Wrappers
  import opened PartitioningScheme
  import opened CodecStack

  class StorageFactory {
    var storage: Storage

    constructor()
      ensures storage == Storage(None, 0)
    {
      storage := Storage(None, 0);
    }

    /// Stores a non-null, non-empty buffer.
    method SetStorage(s: Storage)
      requires s.data.Some? && s.size > 0
      modifies this
      ensures storage == s
    {
      storage := s;
    }

    /// The object size is the size of the stored buffer.
    function ObjectSize(): (r: nat)
      reads this
      requires storage.size > 0
      ensures r > 0 && r == storage.size
    {
      storage.size
    }
  }

  /// The slice `build` hands block `index`: it starts at the block's byte
  /// offset and is cut to the block size, so only a block that runs past
  /// the end of the buffer is short.
  function BlockSlice(storage: Storage, scheme: Scheme, index: nat): (r: Storage)
    requires scheme.Valid() && index < scheme.totalBlocks
    requires storage.data.Some? && storage.size > scheme.ByteOffset(index)
    ensures r.data == Some(storage.data.value + scheme.ByteOffset(index))
    ensures 0 < r.size <= scheme.BlockSize(index)
    ensures r.size < scheme.BlockSize(index) ==> scheme.ByteOffset(index) + r.size == storage.size
  {
    var offset := scheme.ByteOffset(index);
    Storage(Some(storage.data.value + offset), Min(scheme.BlockSize(index), storage.size - offset))
  }

  /// On a buffer holding exactly the object, every slice carries the
  /// block's bytes in use, and the slices follow one another with no gap
  /// and no overlap up to the end of the buffer.
  lemma SlicesTileStorage(storage: Storage, scheme: Scheme, index: nat)
    requires scheme.Valid() && index < scheme.totalBlocks
    requires storage.data.Some? && storage.size == scheme.objectSize
    ensures storage.size > scheme.ByteOffset(index)
    ensures BlockSlice(storage, scheme, index).size == scheme.BytesUsed(index)
    ensures index + 1 < scheme.totalBlocks ==>
      BlockSlice(storage, scheme, index).data.value + BlockSlice(storage, scheme, index).size ==
      BlockSlice(storage, scheme, index + 1).data.value
    ensures index + 1 == scheme.totalBlocks ==>
      BlockSlice(storage, scheme, index).data.value + BlockSlice(storage, scheme, index).size ==
      storage.data.value + storage.size
  {
    if index + 1 < scheme.totalBlocks {
      OffsetsContiguous(scheme, index);
    }
  }

  /// The codec side: the partitioning scheme of the layers below and the
  /// copy of the factory's buffer.
  class StorageLayer {
    var scheme: Scheme
    var storage: Storage

    constructor()
      ensures scheme == Scheme(0, 0, 0, 0, 0, 0) && storage == Storage(None, 0)
    {
      scheme := Scheme(0, 0, 0, 0, 0, 0);
      storage := Storage(None, 0);
    }

    /// Takes the scheme the layers below set up, and the factory's buffer.
    method Initialize(f: StorageFactory, partitioning: Scheme)
      requires f.storage.data.Some? && f.storage.size > 0
      modifies this
      ensures scheme == partitioning && storage == f.storage
    {
      scheme := partitioning;
      storage := f.storage;
    }

    /// Builds the codec for block `index` and gives it its slice with a
    /// single `set_symbols` call.
    method Build(index: nat) returns (stack: Stack)
      requires scheme.Valid() && index < scheme.totalBlocks
      requires storage.data.Some? && storage.size > scheme.ByteOffset(index)
      ensures fresh(stack)
      ensures stack.setSymbolsCalls == [BlockSlice(storage, scheme, index)]
    {
      stack := new Stack(scheme.Symbols(index), scheme.SymbolSize(index));
      var offset := scheme.ByteOffset(index);
      var blockSize := scheme.BlockSize(index);
      var data := storage;
      data := Storage(Some(data.data.value + offset), data.size - offset);
      data := data.(size := Min(blockSize, data.size));
      stack.SetSymbols(data);
    }
  }
}
