# kodo: a verified model of its bookkeeping layers

kodo is a C++ erasure-coding library. A codec is a stack of small layers.
Each layer adds one concern:
- symbol storage (deep, segmented, shallow);
- status bitsets (which symbols are missing, seen or decoded);
- the coefficient generators and their index arithmetic;
- the payload layout;
- the Fulcrum outer/inner code composition.

Above the codecs sit the object layers. They cut a large buffer into blocks and give each block its own encoder or decoder. A few Python scripts turn benchmark results into plot labels and branch-comparison gains.

This project models those layers in Dafny, one module per source file:
- A layer whose members update fields becomes a `class`. Its methods carry `modifies` clauses and state the new state in terms of the old.
- A buffer the layer overwrites in place becomes an `array`.
- Pure arithmetic and lookups become functions with named results.
- Lemmas state what the source promises: round trips, bounds, the invariants each operation keeps, and "nothing else changes".

The finite-field library (fifi), the storage helpers (sak) and boost are not part of this model. Only the small pieces the layers rely on are written out:
- `FiniteField`: element sizes, addition in the binary fields as exclusive or, and addition modulo the prime in prime2325.
- `SakStorage`: buffers, `copy_storage`, `split_storage`.
- `DynamicBitset`: `boost::dynamic_bitset` block packing.

These are support definitions that stand in for the libraries, not modelled operations of kodo. Their members (such as `ElementsToSize`, `Add`, `Xor`, `Pack`, `Unpack`, `CountBits`, `FromRange` and `ToBlockRange`) therefore have no row under "## Model". The exception is the bitset round trips the status layers rely on.

Lower layers of a stack enter as parameters, or as small recording classes. Examples:
- `CodecStack.Stack` records the calls a built stack receives.
- `FulcrumExpansionStorage.NestedCoder` records the nested stack's `set_symbol` calls.
- An `encode` function parameter stands for the encoder the precoder calls.

Each "Example" member replays a scenario from the repository's unit tests on the model, with the expected values as its postcondition.

## Model

| member | source | states |
|---|---|---|
| PlotHelper.GetMarker | benchmark/plot_helper.py:41-51 | a marker exists exactly for the four field labels; any other key gives None |
| PlotHelper.GetField | benchmark/plot_helper.py:53-63 | the four benchmark names map to their field labels; every other key, including one that merely starts with a known name, gives None |
| PlotHelper.GetAlgorithm | benchmark/plot_helper.py:65-74 | the three test-case names map to their algorithm labels; every other key gives None |
| PlotHelper.ReplaceUnderscores | benchmark/plot_helper.py:104 | same length; every underscore becomes a dash and every other character is kept |
| PlotHelper.GetSlave | benchmark/plot_helper.py:103-108 | the text starts with "ID: " and the name with dashes for underscores; the OS and CPU follow exactly when the agent is known |
| PlotHelper.FieldLabelsHaveMarkers | benchmark/plot_helper.py:41-63 | every label the field table produces has a plot marker |
| PlotHelper.FieldLabelsDistinct | benchmark/plot_helper.py:53-63 | two different keys never get the same field label |
| PlotHelper.ReplaceWithoutUnderscore | benchmark/plot_helper.py:104 | a name without underscores is shown unchanged |
| PlotHelper.NoUnderscoreInId | benchmark/plot_helper.py:104 | the name part of the description contains no underscore |
| PlotComparison.Filter | benchmark/throughput/plot_comparison.py:64 | a boolean-mask selection is never longer than its input |
| PlotComparison.FilterMembers | benchmark/throughput/plot_comparison.py:64-82 | the selection holds exactly the rows that satisfy the mask |
| PlotComparison.FilterIdempotent | benchmark/throughput/plot_comparison.py:64-82 | selecting twice with the same mask is selecting once |
| PlotComparison.MaxBuildIsMax | benchmark/throughput/plot_comparison.py:70-71 | the maximum build number is one of the rows' numbers and no smaller than any of them |
| PlotComparison.Latest | benchmark/throughput/plot_comparison.py:70-71 | the latest-build selection of a non-empty group is non-empty |
| PlotComparison.LatestMembers | benchmark/throughput/plot_comparison.py:70-71 | the latest-build selection holds exactly the rows whose build number is the maximum |
| PlotComparison.ComparedMembers | benchmark/throughput/plot_comparison.py:61-69 | an agent is compared exactly when it has a master row |
| PlotComparison.GainOf | benchmark/throughput/plot_comparison.py:86-87 | with a non-zero master mean, gain × master = (branch − master) × 100; with a zero master mean the gain is not finite |
| PlotComparison.AgentsMembers | benchmark/throughput/plot_comparison.py:52 | the groups are exactly the agents that have rows |
| PlotComparison.BranchesMembers | benchmark/throughput/plot_comparison.py:74-75 | an agent's compared branches are exactly its non-master branches |
| PlotComparison.ComparedAreAgents | benchmark/throughput/plot_comparison.py:61-69 | every compared agent is an agent with rows |
| PlotComparison.MasterRowsExist | benchmark/throughput/plot_comparison.py:64-66 | an agent's master selection is non-empty exactly when the agent has master rows |
| PlotComparison.BranchRowsExist | benchmark/throughput/plot_comparison.py:74-82 | every compared branch has rows to select from |
| PlotComparison.AgentGainsExact | benchmark/throughput/plot_comparison.py:77-87 | a map holding exactly the agent's branches, each with its gains, is the agent's gains |
| PlotComparison.CompareBranches | benchmark/throughput/plot_comparison.py:73-87 | the inner loop succeeds exactly when every branch's gains pair up with master; it then returns every branch's gains |
| PlotComparison.Plot | benchmark/throughput/plot_comparison.py:61-87 | the outer loop aborts only when some branch fails to pair up; otherwise it returns the skipped agents and every compared agent's gains |
| PlotComparison.VisitAgent | benchmark/throughput/plot_comparison.py:61-87 | one outer-loop step skips the agent or adds its gains, keeping the loop's invariant |
| PlotComparison.VisitOne | benchmark/throughput/plot_comparison.py:61 | visiting one more agent adds it to the visited part |
| PlotComparison.PlotIsCompare | benchmark/throughput/plot_comparison.py:61-87 | what the loops collect equals the functional `Compare` result |
| PlotComparison.NeverSelfCompared | benchmark/throughput/plot_comparison.py:74-76 | the master branch is never compared with itself |
| PlotComparison.SkippedContributesNothing | benchmark/throughput/plot_comparison.py:66-69 | a skipped agent contributes no gains |
| PlotComparison.ComparedAgentsComplete | benchmark/throughput/plot_comparison.py:73-87 | each compared agent's entry holds exactly its branches, each with its gains |
| PlotComparison.AgentIsolation | benchmark/throughput/plot_comparison.py:52-61 | a branch's gains are the same when only its agent's rows are given, so agents never mix |
| PlotComparison.GainRowsAreLatest | benchmark/throughput/plot_comparison.py:81-87 | every gain row belongs to the agent, to the branch, and to the branch's latest build |
| PlotComparison.GainSign | benchmark/throughput/plot_comparison.py:86-87 | with a positive master mean, the gain is positive exactly when the branch is faster |
| PlotComparison.CodeRows | benchmark/throughput/plot_comparison.py:89-93 | the dense/sparse split keeps exactly the rows whose test case is in the given set |
| PartitioningScheme.CeilDivBounds | examples/customize_partitioning_scheme/customize_partitioning_scheme.cpp:67 | ((n−1)/d)+1 is the least multiple count covering n: (r−1)·d < n ≤ r·d |
| PartitioningScheme.GcdDivides | examples/customize_partitioning_scheme/customize_partitioning_scheme.cpp:161-174 | the gcd is positive and divides both inputs |
| PartitioningScheme.GcdGreatest | examples/customize_partitioning_scheme/customize_partitioning_scheme.cpp:161-174 | every common divisor divides the gcd |
| PartitioningScheme.EuclidGcd | examples/customize_partitioning_scheme/customize_partitioning_scheme.cpp:161-174 | Euclid's loop returns the greatest common divisor of two positive inputs |
| PartitioningScheme.Scheme.Symbols | examples/customize_partitioning_scheme/customize_partitioning_scheme.cpp:80-87 | every block holds the same positive number of symbols, at most max_symbols, and the blocks hold all symbols between them |
| PartitioningScheme.Scheme.SymbolSize | examples/customize_partitioning_scheme/customize_partitioning_scheme.cpp:89-95 | every block uses the positive max_symbol_size |
| PartitioningScheme.Scheme.BlockSize | examples/customize_partitioning_scheme/customize_partitioning_scheme.cpp:97-102 | the block size is positive, and all blocks together take the total block size |
| PartitioningScheme.Scheme.ByteOffset | examples/customize_partitioning_scheme/customize_partitioning_scheme.cpp:104-113 | block 0 starts at 0 and every block starts inside the object |
| PartitioningScheme.Scheme.BytesUsed | examples/customize_partitioning_scheme/customize_partitioning_scheme.cpp:115-127 | positive and at most the block size; a full block except the last, and the last ends exactly at the object's end |
| PartitioningScheme.Scheme.Blocks | examples/customize_partitioning_scheme/customize_partitioning_scheme.cpp:129-134 | blocks × symbols per block = total symbols |
| PartitioningScheme.Scheme.TotalSymbols | examples/customize_partitioning_scheme/customize_partitioning_scheme.cpp:143-148 | the least number of max-size symbols covering the object |
| PartitioningScheme.Scheme.TotalBlockSize | examples/customize_partitioning_scheme/customize_partitioning_scheme.cpp:150-156 | at least the object size and less than one symbol more |
| PartitioningScheme.SchemeOf | examples/customize_partitioning_scheme/customize_partitioning_scheme.cpp:50-78 | the constructed scheme keeps its three inputs and satisfies the scheme invariant |
| PartitioningScheme.NewScheme | examples/customize_partitioning_scheme/customize_partitioning_scheme.cpp:50-78 | the constructor, with its gcd loop, builds exactly `SchemeOf` of its inputs |
| PartitioningScheme.SchemeShape | examples/customize_partitioning_scheme/customize_partitioning_scheme.cpp:67-77 | symbols per block is positive, at most max_symbols, and divides both total symbols and max_symbols; blocks × that = total symbols |
| PartitioningScheme.OffsetInObject | examples/customize_partitioning_scheme/customize_partitioning_scheme.cpp:104-127 | every block's offset is below the object size, which the bytes_used assertion demands |
| PartitioningScheme.OffsetsContiguous | examples/customize_partitioning_scheme/customize_partitioning_scheme.cpp:104-113 | each block starts where the previous one ends |
| PartitioningScheme.BlocksTileObject | examples/customize_partitioning_scheme/customize_partitioning_scheme.cpp:115-127 | the bytes used by the first k blocks add up to block k's offset, and by all blocks to the object size |
| PartitioningScheme.BlockSizeWraps | examples/customize_partitioning_scheme/customize_partitioning_scheme.cpp:97-127 | with 32-bit products, 2 symbols of 2^31 bytes and a 2^32−1 byte object give block size 0 and bytes_used 0 |
| Partitioning.PartitioningFactory.constructor | src/kodo/object/partitioning.hpp:29-36 | keeps the positive symbols and symbol size |
| Partitioning.PartitioningFactory.TotalBlockSize | src/kodo/object/partitioning.hpp:62-68 | a fresh scheme's total block size: at least the object size and less than one symbol more |
| Partitioning.PartitioningLayer.Initialize | src/kodo/object/partitioning.hpp:79-88 | the layer holds the scheme built from the factory's values and the object size |
| ObjectStorage.StorageFactory.SetStorage | src/kodo/object/object_storage.hpp:55-61 | a non-null, non-empty storage is kept |
| ObjectStorage.StorageFactory.ObjectSize | src/kodo/object/object_storage.hpp:72-77 | the object size is the stored buffer's positive size |
| ObjectStorage.BlockSlice | src/kodo/object/object_storage.hpp:107-121 | the slice starts at the block's byte offset; it is positive and at most the block size, and a short slice ends at the end of the buffer |
| ObjectStorage.SlicesTileStorage | src/kodo/object/object_storage.hpp:107-121 | for a buffer of the object's size, every slice is that block's bytes_used, and the slices tile the buffer |
| ObjectStorage.StorageLayer.Initialize | src/kodo/object/object_storage.hpp:88-94 | the layer takes the factory's storage and the partitioning |
| ObjectStorage.StorageLayer.Build | src/kodo/object_storage.hpp:105-119 | the built stack receives exactly one `set_symbols` call, with the block's slice; the older layer builds the same way |
| ObjectDecoder.ObjectDecoder.constructor | src/kodo/object_decoder.hpp:306-317 | the partitioning is built from the factory's maxima and the positive object size |
| ObjectDecoder.ObjectDecoder.Decoders | src/kodo/object_decoder.hpp:321-324 | the number of decoders is the partitioning's positive block count |
| ObjectDecoder.ObjectDecoder.Build | src/kodo/object_decoder.hpp:329-348 | the factory gets the block's symbols and symbol size, and the built decoder gets them and the block's bytes_used |
| ObjectDecoder.FullBlockSlice | src/kodo/object_decoder.hpp:237-254 | the slice starts at the block's offset and is exactly one block long |
| ObjectDecoder.TotalBlockSizeFitsEveryBlock | src/kodo/object_decoder.hpp:246-250 | a buffer of the total block size has a full block left at every block's offset |
| ObjectDecoder.SetSymbolsObjectStorage.Build | src/kodo/object_decoder.hpp:237-254 | the built stack receives exactly one `set_symbols` call, with the full block |
| IsCompleteDecoder.Resize | src/kodo/object/is_complete_decoder.hpp:40 | `resize(n, false)`: n flags; old flags are kept and added ones are false |
| IsCompleteDecoder.CompletionLayer.InitializeAsWritten | src/kodo/object/is_complete_decoder.hpp:35-41 | the count becomes 0 and the flags are resized, keeping old flags |
| IsCompleteDecoder.CompletionLayer.Initialize | src/kodo/object/is_complete_decoder.hpp:35-41 | the count becomes 0, every block's flag is false and the layer invariant holds |
| IsCompleteDecoder.CompletionLayer.Build | src/kodo/object/is_complete_decoder.hpp:48-58 | the built stack's callback is bound to its block index |
| IsCompleteDecoder.CompletionLayer.IsComplete | src/kodo/object/is_complete_decoder.hpp:61-64 | the object is complete exactly when every block is flagged complete |
| IsCompleteDecoder.CompletionLayer.IsBlockComplete | src/kodo/object/is_complete_decoder.hpp:67-71 | a complete object has every block complete, and a block not yet complete keeps the count below the block count |
| IsCompleteDecoder.CompletionLayer.CompleteIffEveryBlock | src/kodo/object/is_complete_decoder.hpp:61-71 | `is_complete` holds exactly when `is_block_complete` holds for every block |
| IsCompleteDecoder.CompletionLayer.IsCompleteCallback | src/kodo/object/is_complete_decoder.hpp:75-83 | the block's flag is set and the count rises by one; the count never exceeds the number of flags |
| IsCompleteDecoder.ReinitializeKeepsCompletion | src/kodo/object/is_complete_decoder.hpp:35-41 | after a reuse, a block flagged by an earlier run stays flagged while the count is 0 |
| CodecStack.Stack.SetSymbols | src/kodo/object/object_storage.hpp:121 | records one `set_symbols` call and changes nothing else |
| CodecStack.Stack.SetBytesUsed | src/kodo/object_decoder.hpp:345-348 | records the bytes used and changes nothing else |
| CodecStack.Stack.SetIsCompleteCallback | src/kodo/object/is_complete_decoder.hpp:54-56 | records the block index of the callback and changes nothing else |
| StorageBlockSize.BlockSizeFactory.constructor | src/kodo/storage_block_size.hpp:30-41 | symbols and symbol size start at the positive maxima |
| StorageBlockSize.BlockSizeFactory.MaxBlockSize | src/kodo/storage_block_size.hpp:56-59 | positive and no smaller than the current symbols × symbol size |
| StorageBlockSize.BlockSizeFactory.SetSymbols | src/kodo/storage_block_size.hpp:74-80 | sets a symbol count in (0, max]; the symbol size is unchanged |
| StorageBlockSize.BlockSizeFactory.SetSymbolSize | src/kodo/storage_block_size.hpp:83-89 | sets a symbol size in (0, max]; the symbol count is unchanged |
| StorageBlockSize.BlockSizeLayer.Initialize | src/kodo/storage_block_size.hpp:116-126 | the layer copies the factory's positive symbols and symbol size |
| StorageBlockSize.InitializedBlockSize | src/kodo/storage_block_size.hpp:141-144 | after initialize, the block size is positive and at most the factory's maximum |
| DeepSymbolStorage.DeepStorage.constructor | src/kodo/deep_symbol_storage.hpp:38-50 | the buffer holds max_block_size zero bytes |
| DeepSymbolStorage.DeepStorage.Initialize | src/kodo/storage_block_size.hpp:116-126 | the `initialize` the deep storage inherits: it takes symbols and symbol size within the maxima, and the buffer is kept |
| DeepSymbolStorage.DeepStorage.Symbol | src/kodo/deep_symbol_storage.hpp:81-96 | symbol i is the symbol-size bytes at i × symbol_size |
| DeepSymbolStorage.DeepStorage.SetSymbols | src/kodo/deep_symbol_storage.hpp:105-114 | a non-empty input of at most the block size is copied to the buffer start; the rest is kept |
| DeepSymbolStorage.DeepStorage.SetSymbol | src/kodo/deep_symbol_storage.hpp:117-138 | the data lands at i × symbol_size, symbol i starts with it, and every other symbol is unchanged |
| DeepSymbolStorage.SetSymbolReadsBack | src/kodo/deep_symbol_storage.hpp:117-173 | a symbol written with `set_symbol` reads back through symbol i |
| DeepSymbolStorage.DeepStorage.CopySymbols | src/kodo/deep_symbol_storage.hpp:141-155 | copies min(destination size, block size) bytes from the buffer start; the rest of the destination is kept |
| DeepSymbolStorage.DeepStorage.CopySymbol | src/kodo/deep_symbol_storage.hpp:160-173 | copies min(destination size, symbol size) bytes of symbol i |
| DeepSymbolStorage.DeepStorage.CopyIntoSymbols | src/kodo/deep_symbol_storage.hpp:176-186 | writes the buffer exactly as `set_symbols` does |
| DeepSymbolStorage.DeepStorage.CopyIntoSymbol | src/kodo/deep_symbol_storage.hpp:188-198 | writes the buffer exactly as `set_symbol` does |
| PartialShallowSymbolStorage.ResizeBytes | src/kodo/partial_shallow_symbol_storage.hpp:69 | `resize`: keeps the old bytes and zero-fills added ones |
| PartialShallowSymbolStorage.PartialStorage.constructor | src/kodo/partial_shallow_symbol_storage.hpp:64-71 | no partial symbol; no calls passed down |
| PartialShallowSymbolStorage.PartialStorage.Initialize | src/kodo/partial_shallow_symbol_storage.hpp:64-71 | the internal buffer is resized to the symbol size and the partial flag is cleared |
| PartialShallowSymbolStorage.PartialStorage.SetSymbols | src/kodo/partial_shallow_symbol_storage.hpp:76-117 | every chunk but the last is passed down unchanged; a short last chunk is copied into the internal buffer, which is passed down instead, and the user slice is remembered; a full last chunk is passed down directly |
| PartialShallowSymbolStorage.PartialStorage.RestorePartialSymbol | src/kodo/partial_shallow_symbol_storage.hpp:132-141 | copies exactly the partial slice's length from the internal buffer back into the user's memory |
| PartialShallowSymbolStorage.RestoreUndoesCopy | src/kodo/partial_shallow_symbol_storage.hpp:99-141 | restoring bytes the set-up copied out leaves the user's memory as it was |
| RestorePartialSymbolDecoder.RestoreDecoder.Initialize | src/kodo/restore_partial_symbol_decoder.hpp:42-46 | the restored flag is cleared |
| RestorePartialSymbolDecoder.RestoreDecoder.Decode | src/kodo/restore_partial_symbol_decoder.hpp:49-85 | after a decode, restored holds exactly when it held before or the decoder is complete with a partial symbol; the copy back happens only on that first transition |
| SegmentedSymbolStorage.SegmentedStorage.constructor | src/kodo/segmented_symbol_storage.hpp:37-49 | max_symbols zeroed buffers of max_symbol_size, all flags false, count 0 |
| SegmentedSymbolStorage.SegmentedStorage.Initialize | src/kodo/segmented_symbol_storage.hpp:52-63 | the first symbols() buffers are zeroed and the rest kept; flags cleared, count 0 |
| SegmentedSymbolStorage.SegmentedStorage.Symbol | src/kodo/segmented_symbol_storage.hpp:66-90 | symbol i has symbol_size bytes |
| SegmentedSymbolStorage.SegmentedStorage.Symbols | src/kodo/segmented_symbol_storage.hpp:66-90 | the block as symbols() symbols, where entry i is symbol i |
| SegmentedSymbolStorage.SegmentedStorage.SetSymbol | src/kodo/segmented_symbol_storage.hpp:142-156 | the data is copied into buffer i, its flag is set, and the count rises only the first time; the invariant (count = set flags) is kept |
| SegmentedSymbolStorage.SegmentedStorage.SetSymbols | src/kodo/segmented_symbol_storage.hpp:127-140 | symbol i becomes the i-th chunk of the input; every flag is set and the count is symbols() |
| SegmentedSymbolStorage.SegmentedStorage.AllSetMeansFull | src/kodo/segmented_symbol_storage.hpp:152-156 | with every flag set, the count equals symbols() |
| SegmentedSymbolStorage.SegmentedStorage.SwapData | src/kodo/segmented_symbol_storage.hpp:93-111 | the user buffer and the stored symbols exchange contents, chunk by chunk |
| SegmentedSymbolStorage.SegmentedStorage.SwapOne | src/kodo/segmented_symbol_storage.hpp:100-110 | one step of the swap loop exchanges one chunk and leaves the others |
| SegmentedSymbolStorage.SegmentedStorage.SwapSymbolsAsWritten | src/kodo/segmented_symbol_storage.hpp:93-114 | every symbol and the matching part of the user vector exchange their data; the count becomes symbols() while no flag is set |
| SegmentedSymbolStorage.SegmentedStorage.SwapSymbols | src/kodo/segmented_symbol_storage.hpp:93-114 | swaps the data, sets every flag and the count to symbols(), keeping the invariant |
| SegmentedSymbolStorage.SegmentedStorage.SwapSegments | src/kodo/segmented_symbol_storage.hpp:117-124 | exchanges exactly the two buffers; every other buffer, the flags and the count are unchanged |
| SegmentedSymbolStorage.SegmentedStorage.CopySymbols | src/kodo/segmented_symbol_storage.hpp:160-189 | copies the first min(destination size, block size) bytes of the concatenated symbols |
| SegmentedSymbolStorage.SegmentedStorage.CopySymbol | src/kodo/segmented_symbol_storage.hpp:193-207 | copies min(destination size, symbol size) bytes of symbol i |
| SegmentedSymbolStorage.SegmentedStorage.SymbolsAvailable | src/kodo/segmented_symbol_storage.hpp:211-215 | the count never exceeds symbols() |
| SegmentedSymbolStorage.SegmentedStorage.IsSymbolsAvailable | src/kodo/segmented_symbol_storage.hpp:223-226 | true exactly when the count is symbols(), that is, when every flag is set |
| SegmentedSymbolStorage.SegmentedStorage.IsSymbolAvailable | src/kodo/segmented_symbol_storage.hpp:235-240 | always true |
| SegmentedSymbolStorage.SwapThenSetOvercounts | src/kodo/segmented_symbol_storage.hpp:93-156 | one symbol: `swap_symbols` then `set_symbol(0)` leaves the count at 2 and the layer no longer available |
| StatusDeepSymbolStorage.StatusDeepStorage.constructor | src/kodo/status_deep_symbol_storage.hpp:31-37 | one clear flag per possible symbol and a count of 0 |
| StatusDeepSymbolStorage.StatusDeepStorage.Initialize | src/kodo/status_deep_symbol_storage.hpp:39-45 | all flags cleared and the count 0 |
| StatusDeepSymbolStorage.StatusDeepStorage.SetSymbols | src/kodo/status_deep_symbol_storage.hpp:48-79 | every flag set and the count is symbols(); `swap_symbols` does the same |
| StatusDeepSymbolStorage.StatusDeepStorage.SetSymbol | src/kodo/status_deep_symbol_storage.hpp:60-71 | the index's flag is set; the count rises only the first time |
| StatusDeepSymbolStorage.StatusDeepStorage.SymbolsAvailable | src/kodo/status_deep_symbol_storage.hpp:82-86 | always symbols() |
| StatusDeepSymbolStorage.StatusDeepStorage.SymbolsInitialized | src/kodo/status_deep_symbol_storage.hpp:88-92 | never more than symbols() |
| StatusDeepSymbolStorage.StatusDeepStorage.IsSymbolsInitialized | src/kodo/status_deep_symbol_storage.hpp:100-104 | true exactly when every symbol's flag is set |
| StatusDeepSymbolStorage.StatusDeepStorage.IsSymbolInitialized | src/kodo/status_deep_symbol_storage.hpp:111-115 | in a fully initialised block every symbol is initialised, and a symbol not yet initialised keeps the count below symbols() |
| StorageStatusVector.StatusVector.constructor | src/kodo/storage_status_vector.hpp:34-40 | max_symbols bits, none set |
| StorageStatusVector.StatusVector.Initialize | src/kodo/storage_status_vector.hpp:43-49 | every bit reset |
| StorageStatusVector.StatusVector.SetSymbols | src/kodo/storage_status_vector.hpp:52-79 | every bit set; `copy_into_symbols` and `swap_symbols` do the same |
| StorageStatusVector.StatusVector.SetSymbol | src/kodo/storage_status_vector.hpp:59-65 | only that bit is set; the count rises by one when it was clear |
| ShallowSymbolStorage.ShallowStorage.constructor | src/kodo/shallow_symbol_storage.hpp:81-87 | max_symbols null mappings |
| ShallowSymbolStorage.ShallowStorage.Initialize | src/kodo/shallow_symbol_storage.hpp:89-94 | every mapping nulled |
| ShallowSymbolStorage.ShallowStorage.SetSymbol | src/kodo/shallow_symbol_storage.hpp:132-140 | records the non-null pointer of a symbol-size buffer at the index; nothing else changes |
| ShallowSymbolStorage.ShallowStorage.SetSymbols | src/kodo/shallow_symbol_storage.hpp:115-127 | the storage splits into exactly symbols() chunks and chunk i is mapped to index i |
| ShallowSymbolStorage.ShallowStorage.SymbolData | src/kodo/shallow_symbol_storage.hpp:106-111 | the mapped symbol has symbol_size bytes |
| ShallowSymbolStorage.ShallowStorage.Block | src/kodo/shallow_symbol_storage.hpp:144-171 | the block is the mapped symbols in index order |
| ShallowSymbolStorage.ShallowStorage.CopySymbols | src/kodo/shallow_symbol_storage.hpp:144-171 | copies the first min(destination size, block size) bytes of the mapped symbols, in order |
| ShallowSymbolStorage.BlockFrom | src/kodo/shallow_symbol_storage.hpp:144-171 | symbol i of the block is the memory at its mapping |
| ShallowSymbolStorage.ShallowStorage.MutableSymbol | src/kodo/mutable_shallow_symbol_storage.hpp:38-46 | a set symbol's mutable pointer is its mapping |
| ShallowSymbolStorage.ShallowStorage.CopyIntoSymbol | src/kodo/mutable_shallow_symbol_storage.hpp:74-82 | overwrites the memory the symbol's pointer points at; the mapping is unchanged |
| ShallowSymbolStorage.ShallowStorage.CopyIntoKeepsOthers | src/kodo/mutable_shallow_symbol_storage.hpp:74-82 | after the copy, symbol i reads back the data; with disjoint symbols every other symbol is unchanged |
| ShallowSymbolStorage.ShallowStorage.CopyIntoSymbols | src/kodo/mutable_shallow_symbol_storage.hpp:55-67 | with disjoint symbols, symbol i afterwards holds chunk i of the input |
| PayloadEncoder.PayloadCoder.constructor | src/kodo/payload_encoder.hpp:30-40 | a coder starts at the factory's maximal symbol size and header size, within the maxima |
| PayloadEncoder.PayloadCoder.PayloadSize | src/kodo/payload_encoder.hpp:36-80 | at least a whole symbol, and while the sizes fit their maxima never more than the factory's `max_payload_size` |
| PayloadEncoder.PayloadCoder.Encode | src/kodo/payload_encoder.hpp:62-72 | symbol data at offset 0, the id right after it, the rest untouched; it returns symbol size + id bytes, within the payload size and, for a coder within its maxima, within `max_payload_size` |
| PayloadRankWriter.PayloadSize | src/kodo/payload_rank_writer.hpp:45-76 | the lower payload plus a rank holds a rank and a whole symbol, and stays within the stack's `max_payload_size` while the lower sizes fit their maxima |
| PayloadRankWriter.WriteRank | src/kodo/payload_rank_writer.hpp:61-69 | writes the rank bytes at the front, returns the rank size and leaves the rest |
| DynamicBitset.BlockRoundTrip | src/kodo/symbol_decoding_status_bitset.hpp:135-146 | reading back the blocks a bitset was written to restores that bitset |
| DynamicBitset.RangeRoundTrip | src/kodo/symbol_decoding_status_bitset.hpp:135-146 | a bitset built from its own blocks has the same bits |
| SymbolDecodingStatus.TriStateCounts | src/kodo/symbol_decoding_status_bitset.hpp:93-106 | with seen and decoded exclusive, seen + decoded + neither = the number of symbols |
| SymbolDecodingStatus.StatusBitset.constructor | src/kodo/symbol_decoding_status_bitset.hpp:30-38 | both bitsets sized to max_symbols and cleared |
| SymbolDecodingStatus.StatusBitset.Initialize | src/kodo/symbol_decoding_status_bitset.hpp:40-46 | both bitsets reset; no symbol seen or decoded |
| SymbolDecodingStatus.StatusBitset.OneState | src/kodo/symbol_decoding_status_bitset.hpp:73-91 | each symbol is in exactly one of missing, seen, decoded |
| SymbolDecodingStatus.StatusBitset.SetSymbolMissing | src/kodo/symbol_decoding_status_bitset.hpp:49-55 | clears both bits of that index only; exclusivity is kept |
| SymbolDecodingStatus.StatusBitset.SetSymbolSeen | src/kodo/symbol_decoding_status_bitset.hpp:57-63 | seen set and decoded cleared at that index only |
| SymbolDecodingStatus.StatusBitset.SetSymbolDecoded | src/kodo/symbol_decoding_status_bitset.hpp:65-71 | decoded set and seen cleared at that index only |
| SymbolDecodingStatus.StatusBitset.MissingIsCount | src/kodo/symbol_decoding_status_bitset.hpp:93-106 | symbols − decoded − seen counts exactly the symbols that are neither |
| SymbolDecodingStatus.StatusBitset.GetSymbolsSeen | src/kodo/symbol_decoding_status_bitset.hpp:108-111 | writes symbols_status_len bytes |
| SymbolDecodingStatus.StatusBitset.GetSymbolsDecoded | src/kodo/symbol_decoding_status_bitset.hpp:118-121 | writes symbols_status_len bytes |
| SymbolDecodingStatus.StatusBitset.SetSymbolsSeen | src/kodo/symbol_decoding_status_bitset.hpp:113-116 | the seen bitset is read from the first symbols_status_len bytes; decoded is unchanged |
| SymbolDecodingStatus.StatusBitset.SetSymbolsDecoded | src/kodo/symbol_decoding_status_bitset.hpp:123-126 | the decoded bitset is read from the first symbols_status_len bytes; seen is unchanged |
| SymbolDecodingStatus.StatusRoundTrip | src/kodo/symbol_decoding_status_bitset.hpp:108-146 | get then set restores the same bits and the same count |
| DecoderStatusVector.DecoderStatus.constructor | src/kodo/decoder_status_vector.hpp:30-38 | both bitsets sized to max_symbols and cleared |
| DecoderStatusVector.DecoderStatus.GetDecoderStatus | src/kodo/decoder_status_vector.hpp:108-117 | writes decoder_status_len bytes |
| DecoderStatusVector.DecoderStatus.StatusBitIsNotMissing | src/kodo/decoder_status_vector.hpp:73-112 | bit i of the status is seen[i] or decoded[i], that is, "not missing" |
| EncoderStatusVector.CountOrExclusive | src/kodo/decoder_status_vector.hpp:93-112 | the popcount of an OR of exclusive bitsets is the sum of their popcounts |
| EncoderStatusVector.EncoderStatus.constructor | src/kodo/encoder_status_vector.hpp:35-42 | max_symbols bits, none set |
| EncoderStatusVector.EncoderStatus.Initialize | src/kodo/encoder_status_vector.hpp:44-49 | every bit reset; the decoder has no symbols |
| EncoderStatusVector.EncoderStatus.SetDecoderStatus | src/kodo/encoder_status_vector.hpp:51-67 | the bitset is read from exactly decoder_status_len bytes; `decoder_has_symbol(i)` is bit i of the input, low bit first |
| EncoderStatusVector.DecoderStatusReceived | src/kodo/encoder_status_vector.hpp:51-67 | fed a decoder's status, bit i holds exactly when the decoder saw or decoded i, and `decoder_symbols` counts those |
| PivotStatusReader.PivotReader.constructor | src/kodo/pivot_status_reader.hpp:45-50 | max_symbols clear bits and remote rank 0 |
| PivotStatusReader.PivotReader.Initialize | src/kodo/pivot_status_reader.hpp:45-50 | remote rank 0 and no remote pivot |
| PivotStatusReader.PivotReader.ReadPivotStatusAsWritten | src/kodo/pivot_status_reader.hpp:60-66 | the bitset is read from the buffer, padding bits included, and the rank counts every set bit |
| PivotStatusReader.PivotReader.ReadPivotStatus | src/kodo/pivot_status_reader.hpp:60-86 | `remote_is_symbol_pivot(i)` is bit i of the buffer, and the remote rank counts the set symbol bits, at most symbols |
| PivotStatusReader.ReadersAgreeOnCleanBuffers | src/kodo/pivot_status_reader.hpp:60-66 | on a buffer with no padding bits set, the two readings agree |
| PivotStatusReader.PaddingOvercounts | src/kodo/pivot_status_reader.hpp:60-66 | nine symbols with every bit of both bytes set: 16 as written, 9 intended |
| PartialDecodingTracker.PartialTracker.constructor | src/kodo/partial_decoding_tracker.hpp:56-58 | not partially complete |
| PartialDecodingTracker.PartialTracker.InitializeAsWritten | src/kodo/partial_decoding_tracker.hpp:62-66 | the statuses are reset but the partial-complete flag is kept |
| PartialDecodingTracker.PartialTracker.Initialize | src/kodo/partial_decoding_tracker.hpp:62-66 | the statuses are reset and the block is not partially complete |
| PartialDecodingTracker.PartialTracker.Decode | src/kodo/partial_decoding_tracker.hpp:74-99 | with equal ranks every seen symbol becomes decoded, otherwise the statuses are the lower layer's; the decoded count never drops, and partial completion holds exactly when it rose |
| PartialDecodingTracker.InitializeKeepsStaleFlag | src/kodo/partial_decoding_tracker.hpp:62-99 | after a completing decode, the re-initialised block stays flagged as written and is cleared as intended |
| CacheDecodeSymbol.SymbolCache.constructor | src/kodo/cache_decode_symbol.hpp:43-58 | buffers of the maximal sizes; the cache holds nothing valid |
| CacheDecodeSymbol.SymbolCache.Initialize | src/kodo/cache_decode_symbol.hpp:61-68 | the cache holds nothing valid |
| CacheDecodeSymbol.SymbolCache.DecodeCoded | src/kodo/cache_decode_symbol.hpp:71-98 | the cache holds a valid coded symbol whose data and coefficients read back as given; the call is passed on only when the lower layer decodes |
| CacheDecodeSymbol.SymbolCache.DecodeUncoded | src/kodo/cache_decode_symbol.hpp:102-124 | the cache holds a valid uncoded symbol whose data and index read back as given; the call is passed on only when the lower layer decodes |
| StorageAwareSystematicEncoder.FindFirstAvailable | src/kodo/storage_aware_systematic_encoder.hpp:68-77 | the lowest index that is stored and not yet sent, or none exactly when there is none |
| StorageAwareSystematicEncoder.SomeSymbolLeft | src/kodo/storage_aware_systematic_encoder.hpp:48-77 | while fewer symbols were sent than are stored, some symbol is left to send |
| StorageAwareSystematicEncoder.SystematicEncoder.constructor | src/kodo/storage_aware_systematic_encoder.hpp:26-31 | one clear sent flag per possible symbol |
| StorageAwareSystematicEncoder.SystematicEncoder.Initialize | src/kodo/storage_aware_systematic_encoder.hpp:35-40 | no symbol sent uncoded |
| StorageAwareSystematicEncoder.SystematicEncoder.Encode | src/kodo/storage_aware_systematic_encoder.hpp:43-77 | systematic off or outside the phase: non-systematic and nothing changes; otherwise it sends the lowest available symbol and marks it sent |
| StorageAwareSystematicEncoder.SendKeepsSentStored | src/kodo/storage_aware_systematic_encoder.hpp:59-77 | sending keeps every sent symbol stored, so the sent count rises by one and never exceeds the stored count |
| TraceLinearBlockDecoder.Decimal | src/kodo/trace_linear_block_decoder.hpp:102 | a non-empty string of decimal digits |
| TraceLinearBlockDecoder.DecimalRoundTrip | src/kodo/trace_linear_block_decoder.hpp:102 | the printed decimal reads back as the number printed |
| TraceLinearBlockDecoder.PadLeft | src/kodo/trace_linear_block_decoder.hpp:102 | the text right-aligned in the field width, padded on the left with spaces |
| TraceLinearBlockDecoder.StateOf | src/kodo/trace_linear_block_decoder.hpp:104-112 | missing first, then seen, otherwise uncoded |
| TraceLinearBlockDecoder.States | src/kodo/trace_linear_block_decoder.hpp:100-112 | one state per symbol, chosen by `StateOf` |
| TraceLinearBlockDecoder.RowIsOneLine | src/kodo/trace_linear_block_decoder.hpp:102-126 | a symbol's row is exactly one line |
| TraceLinearBlockDecoder.RowBegins | src/kodo/trace_linear_block_decoder.hpp:102-112 | a row starts with the padded index and then the state marker |
| TraceLinearBlockDecoder.IndexReadsBack | src/kodo/trace_linear_block_decoder.hpp:102 | the padded index reads back as the index |
| TraceLinearBlockDecoder.OneLinePerSymbol | src/kodo/trace_linear_block_decoder.hpp:98-127 | the text has exactly one line per symbol |
| TraceLinearBlockDecoder.PrintCoefficients | src/kodo/trace_linear_block_decoder.hpp:114-124 | the inner loop prints every coefficient followed by a space |
| TraceLinearBlockDecoder.PrintDecoderState | src/kodo/trace_linear_block_decoder.hpp:98-127 | the printed text is the rows in index order, one line per symbol |
| TraceLinearBlockDecoder.ThreeSymbolExample | test/src/test_trace_linear_block_decoder.cpp:61-79 | three symbols with the middle one seen as 0 1 1 print as the three expected rows, with space-padded indices |
| EliminationCoefficientOffset.OffsetFactory.constructor | src/kodo/elimination_coefficient_offset.hpp:28-31 | the offset starts at 0 |
| EliminationCoefficientOffset.OffsetFactory.SetEliminationOffset | src/kodo/elimination_coefficient_offset.hpp:44-48 | sets an offset below max_symbols |
| EliminationCoefficientOffset.EliminationOffset.Initialize | src/kodo/elimination_coefficient_offset.hpp:66-77 | takes the factory's offset; offset + symbols fits max_symbols |
| EliminationCoefficientOffset.OffsetExample | test/src/test_elimination_coefficient_offset.cpp:82-99 | offset 6, then 0 after a reset; the factory default is 0 |
| EliminationCoefficientInfo.CoefficientInfo.Initialize | src/kodo/elimination_coefficient_info.hpp:67-96 | length and size are computed for symbols + offset elements; both positive, and the size is the least byte count holding those elements |
| EliminationCoefficientInfo.InfoExample | test/src/test_elimination_coefficient_info.cpp:111-164 | binary: 10+6 elements take 2 bytes, 5+0 take 1; binary8: 16 and 5 |
| EliminationCoefficientValueAccess.SetCoefficientValue | src/kodo/elimination_coefficient_value_access.hpp:69-76 | writes position offset + i and only it; the layer's view changes at index i alone, and reading index i afterwards gives the value |
| EliminationCoefficientValueAccess.View | src/kodo/elimination_coefficient_value_access.hpp:58-65 | the vector the layer reads, index by index, is exactly the `symbols` elements after the elimination offset |
| EliminationCoefficientValueAccess.ValueAccessExample | test/src/test_elimination_coefficient_value_access.cpp:91-99 | offset 2, index 4 reads position 6 |
| ForwardCoefficientIterator.CoefficientIterator.constructor | src/kodo/forward_coefficient_iterator.hpp:55-65 | start ≤ stop, offset 0, index at start, not at end |
| ForwardCoefficientIterator.CoefficientIterator.Advance | src/kodo/forward_coefficient_iterator.hpp:68-84 | the index rises by one; the iterator is at its end exactly after passing stop |
| ForwardCoefficientIterator.MaxIndex | src/kodo/forward_coefficient_iterator.hpp:97-100 | the larger of the two indices |
| ForwardCoefficientIterator.MinIndex | src/kodo/forward_coefficient_iterator.hpp:107-110 | the smaller of the two indices |
| ForwardCoefficientIterator.Visit | src/kodo/forward_coefficient_iterator.hpp:55-90 | a walk visits the indices start..stop inclusive, in order, with their values |
| ForwardCoefficientIterator.BoundsAsWrittenAreReversed | src/kodo/forward_coefficient_iterator.hpp:132-147 | both factory functions pass a start above the stop |
| ForwardCoefficientIterator.WholeVectorIterator | src/kodo/forward_coefficient_iterator.hpp:132-136 | an iterator from 0 to symbols − 1 |
| ForwardCoefficientIterator.FromIndexIterator | src/kodo/forward_coefficient_iterator.hpp:141-147 | an iterator from the start index to symbols − 1 |
| ForwardCoefficientIterator.TenSymbolExample | src/kodo/forward_coefficient_iterator.hpp:132-136 | ten symbols: the intended iterator visits 0..9; the bounds as written are (10, 0) |
| PerpetualGenerator.WindowIndex | src/kodo/perpetual_generator.hpp:80-90 | a window position is a valid symbol index |
| PerpetualGenerator.WindowIndexIsMod | src/kodo/perpetual_generator.hpp:80-90 | window position i is (pivot + i) mod symbols |
| PerpetualGenerator.CalcWidth | src/kodo/perpetual_generator.hpp:257-267 | the width is below symbols, and the window position that many steps after the pivot is `back` |
| PerpetualGenerator.CalcWidthInverse | src/kodo/perpetual_generator.hpp:257-267 | `calc_width` from the pivot inverts the window position |
| PerpetualGenerator.ScanIndex | src/kodo/perpetual_generator.hpp:274-307 | a scan position is a valid symbol index |
| PerpetualGenerator.ScanIndexWidth | src/kodo/perpetual_generator.hpp:257-307 | step i of the backward scan is the index at width i behind `back`, and each index is visited once |
| PerpetualGenerator.ScanIndexAsWritten | src/kodo/perpetual_generator.hpp:295 | the 32-bit (back − i) mod symbols is a valid index |
| PerpetualGenerator.ScanAsWrittenWithoutWrap | src/kodo/perpetual_generator.hpp:293-295 | up to `back` the 32-bit scan agrees with the intended one |
| PerpetualGenerator.FindBackAsWritten | src/kodo/perpetual_generator.hpp:274-307 | a reported index holds a non-zero coefficient |
| PerpetualGenerator.PivotFor | src/kodo/perpetual_generator.hpp:72-78 | the pivot is a valid symbol index |
| PerpetualGenerator.ScheduleCoversEverySymbol | src/kodo/perpetual_generator.hpp:72-78 | within symbols + width calls the schedule is non-decreasing and visits every symbol as pivot |
| PerpetualGenerator.Window | src/kodo/perpetual_generator.hpp:80-90 | the vector keeps its length |
| PerpetualGenerator.WindowShape | src/kodo/perpetual_generator.hpp:80-129 | only positions at width 1..n after the pivot, and allowed by the mask, take a draw; all others are kept |
| PerpetualGenerator.WindowSupport | src/kodo/perpetual_generator.hpp:80-129 | for any width up to symbols, including a full window that wraps onto the pivot, a non-zero position was non-zero before or is a mask-allowed position within the width of the pivot |
| PerpetualGenerator.PerpetualGenerator.Initialize | src/kodo/perpetual_generator.hpp:48-62 | width = max(1, symbols / 10), at most symbols; nothing generated yet |
| PerpetualGenerator.PerpetualGenerator.SetWidth | src/kodo/perpetual_generator.hpp:237-248 | sets a width of at most symbols |
| PerpetualGenerator.PerpetualGenerator.Generate | src/kodo/perpetual_generator.hpp:65-93 | the pivot follows the schedule, the vector is zero except 1 at the pivot and draws in its width window, and the call count rises by one |
| PerpetualGenerator.PerpetualGenerator.GeneratePartial | src/kodo/perpetual_generator.hpp:96-129 | for any width up to symbols: rank 0 gives the zero vector; otherwise the window loop's vector, with non-zeros only at local pivots within `width` of the pivot, and 1 at the pivot when the width is below symbols |
| PerpetualGenerator.PerpetualGenerator.FindBack | src/kodo/perpetual_generator.hpp:274-307 | none exactly when the vector is zero; otherwise the non-zero index nearest behind the hint (default symbols − 1) |
| PerpetualGenerator.FindBackExample | src/kodo/perpetual_generator.hpp:274-307 | ten symbols, hint 2, one non-zero at 7: not found as written, found as intended |
| PerpetualGenerator.WriteWindow | src/kodo/perpetual_generator.hpp:80-90 | the window loop writes the draws at widths 1..width after the pivot |
| PerpetualGenerator.FillZero | src/kodo/perpetual_generator.hpp:70 | the vector becomes all zero |
| SparseUniformGenerator.Sparse | src/kodo/sparse_uniform_generator.hpp:49-97 | a coefficient is non-zero exactly where it is allowed and chosen; it is 1 in the binary field and within the field otherwise |
| SparseUniformGenerator.NonZero | src/kodo/sparse_uniform_generator.hpp:49-97 | marks exactly the non-zero coefficients |
| SparseUniformGenerator.PartialCountBelowRank | src/kodo/sparse_uniform_generator.hpp:80-97 | a partial vector has no more non-zeros than there are pivots |
| SparseUniformGenerator.SparseGenerator.constructor | src/kodo/sparse_uniform_generator.hpp:43-47 | the density starts at 0.5 |
| SparseUniformGenerator.SparseGenerator.SetDensity | src/kodo/sparse_uniform_generator.hpp:125-132 | sets a positive density, below 1 in the binary field |
| SparseUniformGenerator.SparseGenerator.SetAverageNonzeroSymbols | src/kodo/sparse_uniform_generator.hpp:136-151 | the density is the requested average divided by symbols() (as an exact real), within the field's bound |
| SparseUniformGenerator.SparseGenerator.Generate | src/kodo/sparse_uniform_generator.hpp:49-77 | after zero-filling, coefficient i is non-zero exactly when it was chosen |
| SparseUniformGenerator.SparseGenerator.GeneratePartial | src/kodo/sparse_uniform_generator.hpp:80-97 | every non-pivot index is zero and the non-zeros are no more than the pivots |
| SparseUniformGenerator.SparseGenerator.Fill | src/kodo/sparse_uniform_generator.hpp:55-73 | the zero-fill and draw loop builds `Sparse` of its inputs |
| SparseUniformGenerator.DensityExample | test/src/test_sparse_uniform_generator.cpp:123-139 | half the symbols give density 0.5; all of them give 1.0 outside the binary field |
| SystematicCoefficientMapper.UnitVector | src/kodo/systematic_coefficient_mapper.hpp:124-129 | a 1 at k and zero elsewhere |
| SystematicCoefficientMapper.VectorAdd | src/kodo/systematic_coefficient_mapper.hpp:100-110 | element-wise field addition, within the field |
| SystematicCoefficientMapper.VectorAddZero | src/kodo/systematic_coefficient_mapper.hpp:100-110 | adding to the zero vector gives the vector |
| SystematicCoefficientMapper.Systematic | src/kodo/systematic_coefficient_mapper.hpp:74-95 | 1 at each systematic bit set in the inner vector, 0 elsewhere |
| SystematicCoefficientMapper.Combine | src/kodo/systematic_coefficient_mapper.hpp:97-113 | the expansion sum stays a vector of the outer length within the field |
| SystematicCoefficientMapper.CombineNone | src/kodo/systematic_coefficient_mapper.hpp:97-113 | no expansion bit set: the vector is unchanged |
| SystematicCoefficientMapper.CombineOne | src/kodo/systematic_coefficient_mapper.hpp:97-113 | only expansion bit e set: the result is lookup[e] |
| SystematicCoefficientMapper.CoefficientMapper.constructor | src/kodo/systematic_coefficient_mapper.hpp:36-50 | no expansion yet, and the mapper invariant holds for the given field and maximal expansion |
| SystematicCoefficientMapper.CoefficientMapper.Initialize | src/kodo/systematic_coefficient_mapper.hpp:53-63 | lookup[i] is what the generator produces for seed i |
| SystematicCoefficientMapper.CoefficientMapper.MapSymbolToOuter | src/kodo/systematic_coefficient_mapper.hpp:117-142 | an outer symbol maps to its unit vector; expansion symbol k maps to lookup[k − symbols] |
| SystematicCoefficientMapper.CoefficientMapper.MapToOuter | src/kodo/systematic_coefficient_mapper.hpp:65-113 | the systematic part plus the sum of lookup[j] over the set expansion bits |
| SystematicCoefficientMapper.CoefficientMapper.OverloadsAgree | src/kodo/systematic_coefficient_mapper.hpp:65-142 | the vector overload on a single set bit k agrees with the symbol overload for k |
| SystematicCoefficientMapper.MapperExample | test/src/test_systematic_coefficient_mapper.cpp:158-179 | the test's lookup vectors combine by exclusive or as expected |
| FulcrumInfo.FulcrumFactory.constructor | src/kodo/rlnc/fulcrum_info.hpp:33-39 | the expansion starts at the default; max_inner_symbols = max_symbols + max_expansion |
| FulcrumInfo.FulcrumFactory.SetExpansion | src/kodo/rlnc/fulcrum_info.hpp:57-61 | sets an expansion of at most the maximum; the other settings are kept |
| FulcrumInfo.FulcrumFactory.SetSymbols | src/kodo/rlnc/fulcrum_info.hpp:33-61 | sets the symbols; the expansion is kept and inner symbols still fit max_inner_symbols |
| FulcrumInfo.FulcrumFactory.SetSymbolSize | src/kodo/rlnc/fulcrum_info.hpp:33-61 | sets the symbol size; the rest is kept |
| FulcrumInfo.FulcrumCoder.Initialize | src/kodo/rlnc/fulcrum_info.hpp:81-87 | expansion from the factory and inner_symbols = expansion + symbols, within max_inner_symbols |
| FulcrumNestedStack.NestedFits | src/kodo/rlnc/fulcrum_nested_stack.hpp:29-52 | over a fulcrum coder initialized from its factory, the nested maximum is the factory's maximal inner symbols, the nested symbols are the coder's inner symbols and fit that maximum, and the nested symbol size fits the maximal symbol size |
| FulcrumNestedStackInfo.NestedInfoFactory.constructor | src/kodo/rlnc/fulcrum_nested_stack_info.hpp:35-43 | the nested maxima are max_symbols + max_expansion and max_symbol_size, both positive |
| FulcrumNestedStackInfo.NestedInfo.Initialize | src/kodo/rlnc/fulcrum_nested_stack_info.hpp:69-77 | nested symbols = symbols + expansion and nested symbol size = symbol size |
| FulcrumNestedStackInfo.NestedInfoExample | test/src/test_fulcrum_nested_stack_info.cpp:92-93 | the test's sizes give 14 nested symbols of 10 bytes |
| FulcrumInnerDecoder.Rank | src/kodo/rlnc/fulcrum_inner_decoder.hpp:59-76 | never above the nested rank; 0 exactly when the nested rank is at most the expansion; otherwise nested rank − expansion |
| FulcrumInnerDecoder.FullRankExactly | src/kodo/rlnc/fulcrum_inner_decoder.hpp:59-76 | the reported rank is full exactly when the nested rank is symbols + expansion, and it never drops as the nested rank grows |
| FulcrumExpansionStorage.WiringIsBijective | src/kodo/rlnc/fulcrum_expansion_storage.hpp:64-85 | every nested index is wired to one outer or expansion symbol and back |
| FulcrumExpansionStorage.NestedCoder.SetSymbol | src/kodo/rlnc/fulcrum_expansion_storage.hpp:64-85 | records the source of one nested symbol and the call |
| FulcrumExpansionStorage.Indices | src/kodo/rlnc/fulcrum_expansion_storage.hpp:64-85 | the indices 0..n−1 in order |
| FulcrumExpansionStorage.ExpansionStorage.constructor | src/kodo/rlnc/fulcrum_expansion_storage.hpp:32-43 | max_expansion buffers of max_symbol_size bytes |
| FulcrumExpansionStorage.ExpansionStorage.Initialize | src/kodo/rlnc/fulcrum_expansion_storage.hpp:47-86 | nested symbol i < symbols points at outer symbol i and symbols + j at expansion buffer j, by exactly symbols + expansion calls in order |
| FulcrumExpansionStorage.SetSymbolCallsExample | test/src/test_fulcrum_expansion_storage.cpp:207-283 | the call counts the test expects |
| SystematicPrecoder.Precoder.constructor | src/kodo/systematic_precoder.hpp:27-39 | max_expansion buffers of max_symbol_size bytes |
| SystematicPrecoder.Precoder.Precode | src/kodo/systematic_precoder.hpp:42-83 | outer symbols wired first, then each expansion symbol encoded with its mapped coefficients and wired; the nested stack ends initialised |
| SystematicPrecoder.PrecodedMatchesMapping | src/kodo/systematic_precoder.hpp:53-80 | every nested symbol is the encoding of `map_to_outer` of its index |
| FulcrumTwoStageDecoder.StageDecodersFit | src/kodo/rlnc/fulcrum_two_stage_decoder.hpp:50-73 | stage one covers the expansion after an offset of symbols; stage two covers symbols + expansion; both fit their maxima |
| FulcrumTwoStageDecoder.Marked | src/kodo/rlnc/fulcrum_two_stage_decoder.hpp:211-235 | rows below n are marked exactly when copied before or a pivot |
| FulcrumTwoStageDecoder.PendingRows | src/kodo/rlnc/fulcrum_two_stage_decoder.hpp:211-235 | a row is handed over exactly when it is a pivot not yet copied |
| FulcrumTwoStageDecoder.AppendNewRow | src/kodo/rlnc/fulcrum_two_stage_decoder.hpp:211-235 | appending a row not yet delivered keeps every delivery distinct |
| FulcrumTwoStageDecoder.HandOverStageTwo | src/kodo/rlnc/fulcrum_two_stage_decoder.hpp:211-220 | handing over an uncopied stage-two pivot keeps the bookkeeping |
| FulcrumTwoStageDecoder.HandOverStageOne | src/kodo/rlnc/fulcrum_two_stage_decoder.hpp:225-235 | handing over an uncopied stage-one pivot keeps the bookkeeping |
| FulcrumTwoStageDecoder.SystematicKeeps | src/kodo/rlnc/fulcrum_two_stage_decoder.hpp:138-156 | a systematic symbol, with its stage-two row marked copied, keeps the bookkeeping |
| FulcrumTwoStageDecoder.TwoStageDecoder.constructor | src/kodo/rlnc/fulcrum_two_stage_decoder.hpp:89-104 | nothing delivered, and the bookkeeping holds |
| FulcrumTwoStageDecoder.TwoStageDecoder.Initialize | src/kodo/rlnc/fulcrum_two_stage_decoder.hpp:107-135 | no pivots, the used copied flags cleared, nothing delivered, combined rank 0 |
| FulcrumTwoStageDecoder.TwoStageDecoder.HandOverTwo | src/kodo/rlnc/fulcrum_two_stage_decoder.hpp:211-220 | one stage-two loop step hands over row i when it is pending |
| FulcrumTwoStageDecoder.TwoStageDecoder.MapStageTwo | src/kodo/rlnc/fulcrum_two_stage_decoder.hpp:211-220 | every pending stage-two row is handed over in index order and marked copied |
| FulcrumTwoStageDecoder.TwoStageDecoder.HandOverOne | src/kodo/rlnc/fulcrum_two_stage_decoder.hpp:225-235 | one stage-one loop step hands over row i when it is pending |
| FulcrumTwoStageDecoder.TwoStageDecoder.MapStageOne | src/kodo/rlnc/fulcrum_two_stage_decoder.hpp:225-235 | every pending stage-one row is handed over in index order and marked copied |
| FulcrumTwoStageDecoder.TwoStageDecoder.CheckCombinedRank | src/kodo/rlnc/fulcrum_two_stage_decoder.hpp:199-236 | below the combined rank nothing changes; otherwise stage two's then stage one's pending rows are handed over, so every pivot is delivered once |
| FulcrumTwoStageDecoder.TwoStageDecoder.AddStageOnePivot | src/kodo/rlnc/fulcrum_two_stage_decoder.hpp:159-176 | a new stage-one pivot raises the combined rank by one and runs the check |
| FulcrumTwoStageDecoder.TwoStageDecoder.AddStageTwoPivot | src/kodo/rlnc/fulcrum_two_stage_decoder.hpp:181-192 | a new stage-two pivot raises the combined rank by one and runs the check |
| FulcrumTwoStageDecoder.TwoStageDecoder.DecodeCoded | src/kodo/rlnc/fulcrum_two_stage_decoder.hpp:159-192 | stage one first; stage two only when stage one's rank did not rise; the check runs only after a rank rise |
| FulcrumTwoStageDecoder.TwoStageDecoder.DecodeUncodedAsWritten | src/kodo/rlnc/fulcrum_two_stage_decoder.hpp:138-156 | a source symbol is delivered and stage one's copied flag at its index is set |
| FulcrumTwoStageDecoder.TwoStageDecoder.DecodeUncoded | src/kodo/rlnc/fulcrum_two_stage_decoder.hpp:138-156 | every index becomes a stage-two pivot; a source symbol is delivered and its stage-two row marked copied, keeping the bookkeeping |
| FulcrumTwoStageDecoder.PendingExamples | src/kodo/rlnc/fulcrum_two_stage_decoder.hpp:211-235 | which rows are pending in the states of the two scenarios below |
| FulcrumTwoStageDecoder.SystematicThenCodedAsWritten | src/kodo/rlnc/fulcrum_two_stage_decoder.hpp:138-236 | systematic symbol 0, then stage-one pivot 0: stage-two row 0 is delivered again and stage one's row never |
| FulcrumTwoStageDecoder.SystematicThenCoded | src/kodo/rlnc/fulcrum_two_stage_decoder.hpp:138-236 | the same inputs deliver symbol 0 and stage one's row once each, and every pivot is delivered |
| ReedSolomonSymbolId.SymbolIdFactory.constructor | src/kodo/reed_solomon/reed_solomon_symbol_id.hpp:44-50 | an empty matrix cache |
| ReedSolomonSymbolId.SymbolIdFactory.SetSymbols | src/kodo/reed_solomon/reed_solomon_symbol_id.hpp:44-65 | changes the symbol count only; the cache is kept |
| ReedSolomonSymbolId.SymbolIdFactory.BuildMatrix | src/kodo/reed_solomon/reed_solomon_symbol_id.hpp:53-65 | a cached matrix is returned with no change; otherwise one is built, cached and returned |
| ReedSolomonSymbolId.SymbolId.Initialize | src/kodo/reed_solomon/reed_solomon_symbol_id.hpp:84-94 | takes the factory's matrix for the symbol count, whose row size is the coefficient vector size |
| ReedSolomonSymbolId.SharedMatrixExample | src/kodo/reed_solomon/reed_solomon_symbol_id.hpp:53-94 | coders of one count share one matrix, other counts get another; two constructions in all |
| ReedSolomonSymbolId.IdSizeExample | src/kodo/reed_solomon/reed_solomon_symbol_id.hpp:67-100 | the id, for factory and coder alike, is one field value: 1 byte in binary8, 2 in binary16 |
| Stub.ReturnHandler.constructor | test/src/stub.hpp:8-16 | nothing configured, position 0 |
| Stub.ReturnHandler.SetReturn | test/src/stub.hpp:17-20 | appends one value after those configured |
| Stub.ReturnHandler.SetReturns | test/src/stub.hpp:22-26 | appends all values after those configured |
| Stub.ReturnHandler.Next | test/src/stub.hpp:28-35 | returns the value at the position and advances it by one |
| Stub.Replay | test/src/stub.hpp:17-36 | n calls return the next n configured values in the order they were added |
| Stub.CallHandler.AddCall | test/src/stub.hpp:59-62 | records the arguments after the earlier ones |
| Stub.CallHandler.CalledWith | test/src/stub.hpp:85-91 | true exactly when the most recent call had these arguments |
| Stub.CallHandler.CalledOnceWith | test/src/stub.hpp:64-70 | true exactly when one call was recorded and it had these arguments |
| Stub.Call.Invoke | test/src/stub.hpp:115-119 | records the arguments, then returns the next configured value |
| Stub.Call.SetReturns | test/src/stub.hpp:127-131 | appends the values to the return handler |
| Stub.StubExample | test/src/stub.hpp:17-119 | three configured answers come back in order; the last call matches and there was not just one |

## Left out

- fifi, sak and boost are not part of this model. `FiniteField` assumes element sizes: binary is bit-packed, binary8 takes one byte per element, binary16 two, prime2325 four. Addition is exclusive or in the binary fields and addition modulo 2^32 − 5 in prime2325. No other field arithmetic is modelled.
- Buffers are byte sequences or arrays of `Byte`. A `sak` storage is a start index and a size into one memory array, so pointer arithmetic becomes index arithmetic.
- Memory aliasing between distinct user buffers is not modelled. Where it matters, it is a stated assumption (`ShallowStorage.Disjoint`).
- Unsigned 32-bit wrap-around is not modelled except in the two places where it shows a defect (see Findings). Counters such as the perpetual generator's `m_generated` are unbounded.
- The scipy mean and standard deviation are not modelled. Means are given reals, and a zero master mean yields a non-finite gain.
- Plot rendering, the database query and the command-line glue are not modelled.
- `plot_helper.codes`, which the comparison script uses but the helper does not define, is not modelled. The dense/sparse split is membership in a given set.
- Random draws are inputs: the pivots, coefficient values and Bernoulli choices of the generators. Seeding is therefore not modelled; the same inputs give the same vector because the model is functional.
- `sparse_uniform_generator`: the boost Bernoulli distribution's own bound (density at most 1) is taken as a precondition of `SetDensity`.
- SparseUniformGenerator.SparseGenerator.SetDensity and SparseUniformGenerator.SparseGenerator.SetAverageNonzeroSymbols: the density and the average are exact reals where the source uses `double`. The source's quotient `symbols/SuperCoder::symbols()` is rounded, so density × symbols need not equal the average exactly (1/49 × 49 is not exactly 1 in doubles). The model's `density * symbols == average` holds only for the exact quotient.
- `perpetual_generator::generate_recode` is not modelled. It needs the decoder's coefficient rows and fifi arithmetic.
- PerpetualGenerator.PerpetualGenerator.SetWidth: takes a whole width; the source accepts a `double` and truncates it on assignment.
- PerpetualGenerator.PerpetualGenerator.Generate: stated for any width up to symbols. The "1 at the pivot" clause is stated only for width < symbols, because a full-width window writes a draw over the pivot's position.
- PerpetualGenerator.PerpetualGenerator.GeneratePartial: the "1 at the pivot" clause is stated only for width < symbols, for the same reason as in `Generate`.
- `CalcWidth`: the source takes any two indices. The model requires both to be below symbols, which every caller meets.
- The `return_handler<void>` specialisation is not modelled. Variadic arguments are one value of a type parameter (a tuple in practice).
- The `called_*` overloads taking a binary predicate are modelled as `CalledWithBy`/`CalledOnceWithBy`. They have no contract of their own beyond the default equality versions.
- TraceLinearBlockDecoder.PrintDecoderState: follows the code, which pads the index with spaces (`std::setw(3)` with an explicit space fill, `std::setfill(' ')`). The repository's unit test (test/src/test_trace_linear_block_decoder.cpp:32) expects "000".
- The trace's coefficient values come from the decoder matrix through fifi and are inputs here.
- FulcrumTwoStageDecoder.TwoStageDecoder: the stage decoders are abstracted to their pivot flags, and the combined rank is the number of flags set. The outer decoder is the log of delivered rows.
- FulcrumTwoStageDecoder.TwoStageDecoder.DecodeUncoded: the assertion that the outer code is systematic is not modelled, because the mapper is always systematic. As in the source, a systematic symbol does not run the combined-rank check.
- SystematicPrecoder.Precoder.Precode: the unit test's stub stack reports nested sizes that are not symbols + expansion. The model requires the relation the source asserts, so that stub configuration is outside it.
- ReedSolomonSymbolId: `construct_matrix` (the Vandermonde matrix) is not modelled. Its row size is taken to be the coefficient vector size, as `initialize` asserts.
- EncoderStatusVector.EncoderStatus: `decoder_symbols` counts the bits of every received block, padding included. It equals the decoder's count when the decoder's padding bits are clear, which `DecoderStatusReceived` proves for a decoder's own output.
- `pivot_status_bitset` (the base of `pivot_status_reader`) is not part of this model. Its bitset is modelled as a field of the reader.
- Partitioning.PartitioningLayer.Initialize, ObjectStorage.* and ObjectDecoder.*: the library instantiates these object layers with `rfc5052_partitioning_scheme` (src/kodo/object_decoder.hpp:15, src/kodo/object/storage_decoder.hpp:18, src/kodo/object_storage.hpp:12). `rfc5052_partitioning_scheme` is not part of this model. The layers are modelled over the gcd scheme of the repository's customize_partitioning_scheme example (`PartitioningScheme.Scheme`). Their contracts speak only of the scheme's block count, block sizes, offsets and total block size, but the concrete block layout RFC 5052 prescribes is not captured.
- The layers' forwarding of calls to the layers below (`SuperCoder::...`) is modelled only where the layer's behaviour depends on it. Pure forwarding accessors are not modelled.

## Findings

| source | as written | input that shows it | evidently intended | confidence | as-written member | corrected member |
|---|---|---|---|---|---|---|
| examples/customize_partitioning_scheme/customize_partitioning_scheme.cpp:97-127 | `block_size` and `bytes_used` compute 32-bit products, which wrap | max_symbols 2, max_symbol_size 2^31, object_size 2^32−1: block size 0, bytes_used 0 | the block holds the whole object | not executed | PartitioningScheme.BlockSizeWraps | PartitioningScheme.Scheme.BytesUsed |
| src/kodo/object/is_complete_decoder.hpp:40 | `resize(blocks, false)` keeps flags set by an earlier use while the count restarts at 0 | reuse a layer whose block 0 of 2 completed: block 0 stays flagged, so `is_block_complete(0)` reports true before block 0 decodes; in a build with assertions its callback then aborts on the cleared-flag assertion (hpp:77-78) | every flag cleared on initialize | not executed | IsCompleteDecoder.ReinitializeKeepsCompletion | IsCompleteDecoder.CompletionLayer.Initialize |
| src/kodo/segmented_symbol_storage.hpp:93-114 | `swap_symbols` sets the count to symbols() but no per-symbol flag | one symbol: swap_symbols, then set_symbol(0): count 2, no longer available | the flags set along with the count | not executed | SegmentedSymbolStorage.SwapThenSetOvercounts | SegmentedSymbolStorage.SegmentedStorage.SwapSymbols |
| src/kodo/pivot_status_reader.hpp:60-66 | `from_block_range` keeps the padding bits of the last block, and `count()` counts them | nine symbols, two bytes 0xFF: remote rank 16 | remote rank 9, counting symbols only | not executed | PivotStatusReader.PaddingOvercounts | PivotStatusReader.PivotReader.ReadPivotStatus |
| src/kodo/partial_decoding_tracker.hpp:62 | the member is spelt `inititalize`, so the stack's `initialize` never clears the partial-complete flag | a decode that completes a symbol, then initialize: the fresh block reports partially complete | the flag cleared on initialize | not executed | PartialDecodingTracker.InitializeKeepsStaleFlag | PartialDecodingTracker.PartialTracker.Initialize |
| src/kodo/forward_coefficient_iterator.hpp:132-147 | both factories pass `symbols()` as the start and 0 or the start index as the stop | ten symbols: start 10, stop 0, which the iterator's `start <= stop` assertion rejects | start 0 (or the start index), stop symbols − 1 | not executed | ForwardCoefficientIterator.TenSymbolExample | ForwardCoefficientIterator.WholeVectorIterator |
| src/kodo/perpetual_generator.hpp:293-295 | the scan index (back − i) % symbols is computed in 32-bit unsigned arithmetic, which wraps below zero | ten symbols, hint 2, the only non-zero at index 7: visits 2,1,0,5,4,3,2,1,0,9 and reports none | the indices back, back−1, … modulo symbols, each once | not executed | PerpetualGenerator.FindBackExample | PerpetualGenerator.PerpetualGenerator.FindBack |
| src/kodo/rlnc/fulcrum_two_stage_decoder.hpp:143-146 | a systematic symbol sets `m_stage_one_decoder_copied[symbol_index]` instead of the stage-two flag | 2 symbols, expansion 2: systematic symbol 0, then a coded symbol giving stage-one pivot 0: stage-two row 0 is handed over again and stage one's row never | the stage-two copied flag of that index | not executed | FulcrumTwoStageDecoder.SystematicThenCodedAsWritten | FulcrumTwoStageDecoder.SystematicThenCoded |
