# parenchyma: shared tensors and their memory coherence, in Dafny

parenchyma is a Rust library for computing on heterogeneous hardware: a
backend wraps a framework (native host, OpenCL, CUDA), a context over the
devices it selected, and extension packages such as BLAS. Its central value
is the *shared tensor*, a tensor whose data may live in several memories at
once, one per device (or context). The tensor keeps the list of those
memories and a 64-bit map whose bit `i` says that memory `i` holds the latest
data. Reading on a device finds or allocates that device's memory, brings it
up to date from the lowest-numbered up-to-date memory when it is stale, and
marks it. Writing marks that memory as the only up-to-date one. Dropping a
memory removes it and closes the gap in the map.

The repository carries several generations of the shared tensor side by side.
They differ in their names, their error kinds and the way they try a transfer
between two devices. This project models them all:

- `src/tensor/mod.rs` and `src/tensor/into_tensor.rs`;
- `src/tensor.rs`;
- `src1/tensor/mod.rs`;
- `src2/tensor/mod.rs`;
- `src/shared/tensor.rs` and `_src/shared/tensor.rs`;
- `src_/tensor.rs`;
- `src/shared_tensor/shared.rs`;
- `src/api/tensor/shared.rs`.

Each is one generic coherence protocol, written once as functions over
values (module `Coherence`) and proved to keep the memories coherent. The
steps on the memory list and the map are written once as methods (module
`Tracking`). Each tensor generation is a class whose methods change its own
list and map and are proved against `Coherence`.

Around the tensor, the project also models:

- the 64-bit version maps, with the bit operations written out on
  `nat < 2^64` (modules `Bits` and `VersionMaps`);
- shapes, descriptors and strides;
- the error values and the error kinds of the crate and of the CUDA and
  OpenCL drivers;
- memory downcasts and the default transfers;
- the native context and device;
- hardware selection in the backends and OpenCL contexts;
- the ranged write of `src2/_main.rs`;
- the index logic of the native BLAS backend.

Conventions:

- Element data are `seq<int>`; memories are `array<byte>` where bytes are
  copied.
- A panic in the source (`unwrap`, `assert!`, `unimplemented!`, an index out
  of bounds) becomes a `requires`.
- A recoverable error becomes a `Result`.
- Allocation and transfers, which call device drivers, are function
  parameters.

## Model

| member | source | states |
|---|---|---|
| Coherence.Position | src/shared/tensor.rs:285-290 | the index found is the first copy on the device; `None` exactly when no copy is on it |
| Coherence.PositionAppend | src/shared/tensor.rs:264-283 | a copy appended for a device that had none is found at the old length |
| Coherence.GetOrCreate | src/shared/tensor.rs:264-283 | an existing copy is returned unchanged; otherwise a copy is allocated and appended; capacity is exceeded exactly when the device has no copy and 64 exist; an allocation error is passed through |
| Coherence.SyncIfNeeded | src/shared/tensor.rs:199-260 | an up-to-date destination is left alone; otherwise it takes the data of an up-to-date copy; the map and every other copy are unchanged; failure only when the destination was stale |
| Coherence.Access | src/shared/tensor.rs:95-166 | read or read-write on an empty map fails as uninitialized and changes nothing; read adds the copy to the up-to-date ones; read-write and write-only leave it the only one; up-to-date copies are never altered |
| Coherence.SyncAndMark | src/shared/tensor.rs:95-141 | after the lookup: synchronize, then mark the copy (joined to the old marks for read, alone for read-write); a failed transfer keeps the map |
| Coherence.SameDevicesSamePosition | src/shared/tensor.rs:285-290 | lists with the same devices in the same order give the same position for every device |
| Coherence.Drop | src/shared/tensor.rs:171-188 | succeeds exactly when the device holds a copy; removes it, shifts later copies and map bits down by one, keeps the lower ones |
| Coherence.SyncSource | src/shared/tensor.rs:206-213 | the source chosen by `trailing_zeros` is an existing up-to-date copy other than the stale destination, the lowest such |
| Coherence.AccessKeepsCoherent | src/shared/tensor.rs:95-166 | every access, successful or not, keeps the invariant: at most 64 copies, distinct devices, equal sizes, all up-to-date copies agree |
| Coherence.GrownCoherent | src/shared/tensor.rs:264-283 | finding or creating a copy keeps the invariant |
| Coherence.SyncedCoherent | src/shared/tensor.rs:199-260 | a successful synchronization keeps the invariant, and the destination agrees with the up-to-date copies |
| Coherence.ReadSeesLatest | src/shared/tensor.rs:95-141 | a successful read or read-write hands out a copy holding the data every up-to-date copy held |
| Coherence.DropKeepsCoherent | src/shared/tensor.rs:171-188 | dropping a copy keeps the invariant |
| Coherence.DroppedCopies | src/shared/tensor.rs:171-188 | the remaining copies stay on distinct devices and keep their size |
| Coherence.DropLastLatest | src/shared/tensor.rs:171-188 | dropping the only up-to-date copy leaves the map empty |
| Coherence.UninitializedAfterDroppingOnlyWrite | src/shared/tensor.rs:95-188 | a fresh tensor cannot be read; after a write-only access and a drop of that copy it cannot be read again |
| Tracking.Locate | src/shared/tensor.rs:285-290 | returns the position of the first copy on the device |
| Tracking.GetOrCreateLocationIndex | src/shared/tensor.rs:264-283 | the list and the result are those of `Coherence.GetOrCreate` |
| Tracking.Synchronize | src/shared/tensor.rs:199-260 | the copies and the map after the call are those of `Coherence.SyncIfNeeded` |
| Tracking.AccessCopy | src/shared/tensor.rs:95-166 | the copies, the map and the result are those of `Coherence.Access` |
| Tracking.DropCopy | src/shared/tensor.rs:171-188 | the state is that of `Coherence.Drop`, and the removed copy is handed back |
| Tracking.Reset | src/tensor.rs:141-145 | no copy and an empty map remain |
| Locations.CopyList.constructor | src/shared/ref_vec.rs:11-15 | an empty list |
| Locations.CopyList.Position | src/shared/ref_vec.rs:17-19 | the first index satisfying the predicate; `None` exactly when no element does |
| Locations.CopyList.Push | src/shared/ref_vec.rs:21-23 | the copy is appended at the end |
| Locations.CopyList.Len | src/shared/ref_vec.rs:25-27 | the number of copies |
| Locations.CopyList.Remove | src/shared/ref_vec.rs:29-31 | returns copy `i`; the later copies shift down by one |
| Locations.CopyList.Overwrite | src/shared/tensor.rs:232-256 | only the data of copy `i` changes, to the transferred data |
| Locations.CopyList.Clear | src/tensor.rs:141-145 | no copy remains |
| VersionMaps.MarkedIffNonZero | src/utility/bitmap.rs:36-38 | a map is zero exactly when no bit is set |
| VersionMaps.VersionMap.constructor | src/utility/bitmap.rs:15-17 | a new map is empty |
| VersionMaps.VersionMap.With | src/utility/bitmap.rs:20-22 | holds the given word |
| VersionMaps.VersionMap.Set | src/utility/bitmap.rs:28-30 | `get` afterwards returns the word set |
| VersionMaps.VersionMap.Clear | src/utility/bitmap.rs:32-34 | afterwards the map is empty |
| VersionMaps.VersionMap.Empty | src/utility/bitmap.rs:36-38 | true exactly when no copy is marked |
| VersionMaps.VersionMap.Insert | src/utility/bitmap.rs:40-42 | marks copy `k` and keeps every other mark |
| VersionMaps.VersionMap.Contains | src/utility/bitmap.rs:44-46 | true exactly when `k < 64` and copy `k` is marked |
| VersionMaps.VersionMap.Latest | src/utility/bitmap.rs:48-50 | the lowest marked copy; 64 exactly when the map is empty |
| Bits.Shl1 | src/utility/bitmap.rs:40-42 | `1 << k` has bit `k` and no other |
| Bits.LowMask | src/tensor.rs:158-159 | `(1 << k) - 1` has exactly the bits below `k` |
| Bits.TrailingZeros | src/utility/bitmap.rs:48-50 | the index of the lowest set bit, every lower bit clear; 64 exactly for 0 |
| Bits.Insert | src/utility/bitmap.rs:40-42 | `v` or-ed with `1 << k` has the bits of `v` and bit `k` |
| Bits.Contains | src/utility/bitmap.rs:44-46 | `v & (1 << k) != 0` exactly when bit `k` is set |
| Bits.CompactBit | src/tensor.rs:158-161 | after the mask-and-shift, bits below `i` are kept and each bit above moves down by one |
| MemoryTensor.Zeros | src/tensor/mod.rs:109-113 | `length` zeros |
| MemoryTensor.SharedTensor.Uninitialized | src/tensor/mod.rs:207-213 | the given shape, no memory, empty map |
| MemoryTensor.SharedTensor.FromShape | src/tensor/mod.rs:103-114 | the shape, with one zero-filled host memory marked up to date |
| MemoryTensor.SharedTensor.FromArray | src/tensor/into_tensor.rs:22-36 | the array's dimensions as the shape, its elements in one up-to-date host memory |
| MemoryTensor.SharedTensor.Scalar | src/tensor/mod.rs:117-119 | a rank-1 tensor of one element holding the value |
| MemoryTensor.SharedTensor.With | src/tensor/mod.rs:121-137 | fails with `IncompatibleShape` exactly when the data do not fill the dimensions; else the data in one up-to-date host memory |
| MemoryTensor.SharedTensor.Reshape | src/tensor/mod.rs:148-157 | the new shape is taken exactly when its capacity is the current one; otherwise `InvalidReshapedTensorSize` and the shape is unchanged |
| MemoryTensor.SharedTensor.Resize | src/tensor/mod.rs:169-176 | the new shape, with one zero-filled up-to-date host memory |
| MemoryTensor.SharedTensor.Realloc | src/tensor/mod.rs:199-203 | the new shape, no memory, empty map |
| MemoryTensor.SharedTensor.Synch | src/tensor/mod.rs:178-181 | the state is that of a read access |
| MemoryTensor.SharedTensor.SynchronizeReturn | src/tensor/mod.rs:184-187 | the state is that of a read access |
| MemoryTensor.SharedTensor.Reference | src/tensor/mod.rs:227-236 | a read access: uninitialized on an empty map; else the memory on the device, added to the up-to-date ones |
| MemoryTensor.SharedTensor.MutReference | src/tensor/mod.rs:248-257 | a read-write access: the memory on the device becomes the only up-to-date one |
| MemoryTensor.SharedTensor.MutReferenceUnsynched | src/tensor/mod.rs:277-287 | the memory is found or allocated, then marked alone, without check or transfer |
| MemoryTensor.SharedTensor.AsSlice | src/tensor/mod.rs:291-297 | the host memory's elements after a read access |
| MemoryTensor.SharedTensor.AsMutSlice | src/tensor/mod.rs:301-307 | the host memory's elements after a read-write access |
| MemoryTensor.SharedTensor.AsMutSliceUnsynched | src/tensor/mod.rs:311-317 | the host memory, found or allocated, marked alone |
| MemoryTensor.SharedTensor.WriteSlice | src/tensor/mod.rs:320-322 | the data overlay the host memory from position 0 and every other memory is unchanged; the host memory becomes the only up-to-date one; a failed lookup is reported with nothing changed |
| MemoryTensor.SharedTensor.WriteOffsetSlice | src/tensor/mod.rs:325-333 | the data overlay the host memory from the offset, the rest is kept; the host memory becomes the only up-to-date one; a failed lookup is reported |
| MemoryTensor.SharedTensor.Autosync | src/tensor/mod.rs:364-389 | the state and result are those of a read (or, when overwritable, read-write) access |
| MemoryTensor.SharedTensor.Synchronize | src/tensor/mod.rs:391-428 | the state is that of `Coherence.SyncIfNeeded` on the stale destination |
| MemoryTensor.SharedTensor.Synchronized | src/tensor/mod.rs:439-441 | true exactly when the memory is marked |
| MemoryTensor.SharedTensor.Position | src/tensor/mod.rs:444-450 | the first memory on the device |
| MemoryTensor.SharedTensor.Fetchsert | src/tensor/mod.rs:454-469 | the memory list and result are those of `Coherence.GetOrCreate`; 64 memories and none on the device give `CapacityExceeded` |
| TrackedTensor.SharedTensor.New | src/tensor.rs:104-110 | the shape, no chunk, empty tracker |
| TrackedTensor.SharedTensor.Reshape | src/tensor.rs:118-128 | the new shape is taken exactly when its capacity is the current one; otherwise `InvalidReshapedTensorSize` |
| TrackedTensor.SharedTensor.Realloc | src/tensor.rs:141-145 | the new shape, no chunk, empty tracker |
| TrackedTensor.SharedTensor.Dealloc | src/tensor.rs:152-169 | succeeds exactly when a chunk is on the device; the state is that of `Coherence.Drop`; otherwise `AllocatedMemoryNotFoundForDevice` and nothing changes |
| TrackedTensor.SharedTensor.Read | src/tensor.rs:217-227 | uninitialized on an empty tracker; otherwise the chunk on the device; the tracker is unchanged |
| TrackedTensor.SharedTensor.Autosync | src/tensor.rs:248-279 | uninitialized on an empty tracker; otherwise the chunk on the device, marked alone when writing |
| TrackedTensor.SharedTensor.OutOfSync | src/tensor.rs:286-288 | true exactly when the chunk is not marked |
| TrackedTensor.SharedTensor.GetOrCreate | src/tensor.rs:290-307 | the chunk on the device, or the capacity error when none is and 64 exist |
| TrackedTensor.SharedTensor.Position | src/tensor.rs:309-316 | the first chunk on the device |
| TrackedTensor.Found | src/tensor.rs:290-307 | the chunk on the device exactly when there is one; the capacity fault otherwise |
| TrackedTensor.ReachableAccess | src/tensor.rs:248-279 | where this version returns, it agrees with `Coherence.Access` for every allocator and route: no chunk changes, the result is the chunk on the device |
| TrackedTensor.InsertPresent | src/tensor.rs:270-276 | marking a chunk that is already marked changes nothing |
| ChunkTensor.CheckShape | src2/tensor/mod.rs:355-361 | accepts exactly data of the shape's capacity, else `IncompatibleShape` |
| ChunkTensor.SharedTensor.New | src2/tensor/mod.rs:99-106 | the shape, no chunk, empty versions |
| ChunkTensor.SharedTensor.With | src2/tensor/mod.rs:109-122 | fails with `IncompatibleShape` on data of the wrong length, or with the placement's error; else one up-to-date chunk holding the data |
| ChunkTensor.SharedTensor.Prealloc | src2/tensor/mod.rs:125-137 | `capacity * size_of::<T>()` bytes on the device as the one up-to-date chunk, or the allocation error |
| ChunkTensor.SharedTensor.Realloc | src2/tensor/mod.rs:150-154 | the new shape, no chunk, empty versions |
| ChunkTensor.SharedTensor.Dealloc | src2/tensor/mod.rs:161-178 | succeeds exactly when a chunk is on the device; the state is that of `Coherence.Drop`; otherwise `AllocatedMemoryNotFoundForDevice` |
| ChunkTensor.SharedTensor.Reshape | src2/tensor/mod.rs:186-196 | the new shape is taken exactly when its capacity is the current one |
| ChunkTensor.SharedTensor.Autosync | src2/tensor/mod.rs:232-250 | the state and result of a read (read-write when `tick`) access over the `syncable` route |
| ChunkTensor.SharedTensor.Synchronize | src2/tensor/mod.rs:252-291 | the state is that of `Coherence.SyncIfNeeded` over the `syncable` route |
| ChunkTensor.SharedTensor.Position | src2/tensor/mod.rs:293-302 | the first chunk on the device |
| ChunkTensor.SharedTensor.GetOrCreate | src2/tensor/mod.rs:304-319 | the chunks and result are those of `Coherence.GetOrCreate`; capacity exceeded with 64 chunks and none on the device |
| CopyTensor.OffsetNeverFits | src1/tensor/mod.rs:211-222 | as written, a call that passes the length check stays in bounds exactly when the offset is 0 or the data are empty (empty data pass at any offset); every such call also passes the corrected check, which in addition admits two elements at offset 2 of four |
| CopyTensor.SharedTensor.New | src1/tensor/mod.rs:103-110 | the shape, no copy, empty versions |
| CopyTensor.SharedTensor.With | src1/tensor/mod.rs:113-126 | fails with `IncompatibleShape` on data of the wrong length, or with the device's error; else one up-to-date copy holding the data |
| CopyTensor.SharedTensor.Alloc | src1/tensor/mod.rs:129-141 | memory for the shape on the device as the one up-to-date copy, or the allocation error |
| CopyTensor.SharedTensor.Dealloc | src1/tensor/mod.rs:148-168 | succeeds exactly when a copy is on the device; the state is that of `Coherence.Drop` |
| CopyTensor.SharedTensor.Realloc | src1/tensor/mod.rs:181-185 | the new shape, no copy, empty versions |
| CopyTensor.SharedTensor.Reshape | src1/tensor/mod.rs:193-203 | the new shape is taken exactly when its capacity is the current one |
| CopyTensor.SharedTensor.WriteToMemory | src1/tensor/mod.rs:206-208 | data of exactly the capacity replace the host memory, which becomes the only up-to-date copy; the list is that of `Coherence.GetOrCreate` with every other copy unchanged; another length gives `IncompatibleShape`, and a failed lookup its error, with nothing changed |
| CopyTensor.SharedTensor.WriteToMemoryOffset | src1/tensor/mod.rs:211-222 | as written: succeeds exactly when the data have the capacity's length and the host lookup succeeds; the host copy then holds the data and is the only up-to-date one, every other copy unchanged; else `IncompatibleShape` or the lookup's error, with nothing changed |
| CopyTensor.SharedTensor.WriteToMemoryAt | src1/tensor/mod.rs:211-222 | corrected: any data fitting from the offset (and empty data at any offset) are written there, the rest kept, the host memory marked alone; anything else gives `IncompatibleShape` and changes nothing |
| CopyTensor.SharedTensor.Read | src1/tensor/mod.rs:238-250 | a read access over the fallback route |
| CopyTensor.SharedTensor.ReadWrite | src1/tensor/mod.rs:263-275 | a read-write access over the fallback route |
| CopyTensor.SharedTensor.Write | src1/tensor/mod.rs:296-309 | the copy is found or allocated and marked alone, without check or transfer |
| CopyTensor.SharedTensor.Autosync | src1/tensor/mod.rs:355-370 | a read (read-write when `tick`) access |
| CopyTensor.SharedTensor.AutosyncTo | src1/tensor/mod.rs:372-412 | the state is that of `Coherence.SyncIfNeeded` |
| CopyTensor.SharedTensor.GetLocationIndex | src1/tensor/mod.rs:314-323 | the first copy on the location |
| CopyTensor.SharedTensor.GetOrCreateLocationIndex | src1/tensor/mod.rs:325-343 | the result of `Coherence.GetOrCreate` |
| ContextTensor.SharedTensor.From | src/shared/tensor.rs:296-310 | rank and capacity of the shape, no memory, empty map |
| ContextTensor.SharedTensor.Read | src/shared/tensor.rs:95-116 | a read access on the context: uninitialized on an empty map, else marked next to the others |
| ContextTensor.SharedTensor.ReadWrite | src/shared/tensor.rs:120-141 | a read-write access: the copy becomes the only up-to-date one |
| ContextTensor.SharedTensor.WriteOnly | src/shared/tensor.rs:151-166 | a write-only access: the copy on the context, marked alone |
| ContextTensor.SharedTensor.DropContext | src/shared/tensor.rs:171-188 | succeeds exactly when the context holds a copy; the state is that of `Coherence.Drop`; else `AllocatedMemoryNotFoundForContext` |
| ContextTensor.SharedTensor.SyncIfNeeded | src/shared/tensor.rs:199-260 | the state is that of `Coherence.SyncIfNeeded` over read-then-write fallback |
| ContextTensor.SharedTensor.GetLocationIndex | src/shared/tensor.rs:285-290 | the first copy on the context |
| ContextTensor.SharedTensor.GetOrCreateLocationIndex | src/shared/tensor.rs:264-283 | the result of `Coherence.GetOrCreate` for `mem_size(capacity)` bytes |
| ContextTensor.UninitializedReads | src/shared/tensor.rs:95-188 | a fresh tensor reads as uninitialized, and so does one whose only written copy was dropped |
| DeviceTensor.SharedTensor.From | _src/shared/tensor.rs:296-310 | rank and capacity of the shape, no memory, empty map |
| DeviceTensor.SharedTensor.Read | _src/shared/tensor.rs:95-116 | a read access on the device |
| DeviceTensor.SharedTensor.ReadWrite | _src/shared/tensor.rs:120-141 | a read-write access on the device |
| DeviceTensor.SharedTensor.WriteOnly | _src/shared/tensor.rs:151-166 | a write-only access on the device |
| DeviceTensor.SharedTensor.DropDevice | _src/shared/tensor.rs:171-188 | the state is that of `Coherence.Drop`, else `AllocatedMemoryNotFoundForDevice` |
| DeviceTensor.SharedTensor.SyncIfNeeded | _src/shared/tensor.rs:199-260 | the state is that of `Coherence.SyncIfNeeded` |
| DeviceTensor.SharedTensor.GetLocationIndex | _src/shared/tensor.rs:285-290 | the first copy on the device |
| DeviceTensor.SharedTensor.GetOrCreateLocationIndex | _src/shared/tensor.rs:264-283 | the result of `Coherence.GetOrCreate` |
| BufferTensor.Tensor.From | src_/tensor.rs:320-334 | rank and capacity of the shape, no memory, empty map |
| BufferTensor.Tensor.Read | src_/tensor.rs:138-155 | a read access over the sequential out-then-in route |
| BufferTensor.Tensor.ReadWrite | src_/tensor.rs:159-176 | a read-write access |
| BufferTensor.Tensor.WriteOnly | src_/tensor.rs:186-197 | a write-only access |
| BufferTensor.Tensor.DropDevice | src_/tensor.rs:202-219 | the state is that of `Coherence.Drop`, else `AllocatedMemoryNotFoundForDevice` |
| BufferTensor.Tensor.SyncIfNeeded | src_/tensor.rs:230-287 | the state is that of `Coherence.SyncIfNeeded` over the sequential route |
| BufferTensor.Tensor.GetLocationIndex | src_/tensor.rs:312-315 | the first copy on the device |
| BufferTensor.Tensor.GetOrCreateLocationIndex | src_/tensor.rs:291-310 | the result of `Coherence.GetOrCreate` for `mem_size()` bytes |
| LocationTensor.SharedTensor.New | src/shared_tensor/shared.rs:27-35 | the shape, no location, empty map |
| LocationTensor.SharedTensor.Reshape | src/shared_tensor/shared.rs:38-56 | the new shape is taken exactly when it has as many components; the locations are kept |
| ErrorCore.Decimal | src/shared_tensor/shared.rs:46-51 | the `{}` rendering of a count is a nonempty string of decimal digits without a leading zero |
| ErrorCore.DecimalRoundTrip | src/shared_tensor/shared.rs:46-51 | reading the rendered digits back gives the count |
| LocationTensor.SharedTensor.Resize | src/shared_tensor/shared.rs:58-62 | the new shape, no location, empty map |
| LocationTensor.SharedTensor.Read | src/shared_tensor/shared.rs:90-108 | a read access; uninitialized memory on an empty map |
| LocationTensor.SharedTensor.ReadWrite | src/shared_tensor/shared.rs:110-129 | a read-write access |
| LocationTensor.SharedTensor.WriteOnly | src/shared_tensor/shared.rs:131-148 | a write-only access |
| LocationTensor.SharedTensor.DropContext | src/shared_tensor/shared.rs:64-83 | the state is that of `Coherence.Drop`, else the tensor-remove error |
| LocationTensor.SharedTensor.SyncIfNeeded | src/shared_tensor/shared.rs:150-191 | the state is that of `Coherence.SyncIfNeeded` |
| LocationTensor.SharedTensor.GetLocationIndex | src/shared_tensor/shared.rs:193-204 | the first copy on the context |
| LocationTensor.SharedTensor.GetOrCreateLocationIndex | src/shared_tensor/shared.rs:206-228 | the result of `Coherence.GetOrCreate`; capacity-exceeded error at 64 |
| ApiTensor.SharedTensor.New | src/api/tensor/shared.rs:19-31 | the primary memory for the descriptor's bytes on the context, or the allocation error |
| ApiTensor.SharedTensor.Resize | src/api/tensor/shared.rs:39-49 | every copy is dropped; the primary memory is reallocated for the new descriptor, or the allocation error is returned |
| ApiTensor.SharedTensor.Get | src/api/tensor/shared.rs:61-79 | the primary memory for the own context, else the copy for the context; `None` exactly when neither exists |
| ApiTensor.SharedTensor.SyncFromTo | src/api/tensor/shared.rs:81-98 | nothing for equal endpoints; otherwise the destination's copy, which must exist, is filled from the primary memory |
| ApiTensor.SharedTensor.ReturnCopy | src/api/tensor/shared.rs:107-110 | stores the copy for the context, replacing any |
| ApiTensor.SharedTensor.Add | src/api/tensor/shared.rs:112-132 | refused for the own context or one that holds a copy; else a new copy is allocated for it |
| ApiTensor.SharedTensor.Capacity | src/api/tensor/shared.rs:134-137 | the product of the descriptor's dimensions; 1 for a scalar |
| Shapes.ProductCons | src/tensor/tensor_shape.rs:74-83 | the capacity fold equals the first dimension times the product of the rest |
| Shapes.ProductAppend | src/tensor/tensor_shape.rs:74-83 | products of concatenated shapes multiply |
| Shapes.ProductZero | src/tensor/tensor_shape.rs:74-83 | a capacity is 0 exactly when some dimension is 0 |
| Shapes.LastStride | src/shared_tensor/tensor.rs:41-63 | the last row-major stride is 1 |
| Shapes.StrideRecurrence | src/shared_tensor/tensor.rs:41-63 | each stride is the next dimension times the next stride |
| Shapes.FirstStride | src/shared_tensor/tensor.rs:41-63 | the first stride times the first dimension is the element count |
| Shapes.SuffixStep | src/shared_tensor/tensor.rs:41-63 | one step of the suffix products |
| Shapes.StrideExamples | src/shared_tensor/tensor.rs:41-63 | the strides of `[]`, `[5]`, `[2, 4]`, `[2, 2, 4]` and `[2, 2, 4, 4]` |
| Shapes.DefaultStride | src/shared_tensor/tensor.rs:41-63 | the loop yields the row-major strides |
| Shapes.AsI32 | src/tensor/desc.rs:21-23 | `as i32`: in range, unchanged below 2^31, congruent modulo 2^32 |
| Shapes.AsUsize | src/tensor/desc.rs:85-88 | `as usize`: below 2^64, unchanged when non-negative, congruent modulo 2^64 |
| ShapeTensor.Tensor.DefaultStride | src/shared_tensor/tensor.rs:41-63 | the row-major strides of the shape; `[]` for rank 0 and `[1]` for rank 1 |
| ShapeTensor.From | src/shared_tensor/tensor.rs:66-103 | the rank is the number of dimensions and the component count their product |
| ShapeTensor.ComponentExamples | src/shared_tensor/tensor.rs:91-103 | rank 0 has one component; `[2, 4]` has 8 |
| TensorDescs.TensorDesc.Size | src/tensor/desc.rs:10-15 | the product of the dimensions; 1 for a scalar |
| TensorDescs.TensorDesc.DimsI32 | src/tensor/desc.rs:21-23 | each dimension cast to `i32` in order, unchanged below 2^31 |
| TensorDescs.TensorDesc.DefaultStride | src/tensor/desc.rs:25-43 | the row-major strides; the last is 1 and the first times the first dimension is the size |
| TensorDescs.TensorDesc.DefaultStrideI32 | src/tensor/desc.rs:45-47 | each stride cast to `i32`, unchanged below 2^31 |
| TensorDescs.FromUnit | src/tensor/desc.rs:59-65 | rank 0, size 1 |
| TensorDescs.FromUsize | src/tensor/desc.rs:67-81 | the single dimension `n`, of size `n` |
| TensorDescs.FromSigned | src/tensor/desc.rs:83-97 | the single dimension `n as usize`: `n` when non-negative, `n + 2^64` when negative |
| TensorDescs.FromDims | src/tensor/desc.rs:99-172 | the dimensions as given; size their product |
| TensorDescs.PairDims | src/tensor/desc.rs:126-132 | a pair `(a, b)` has size `a * b` |
| Descriptors.VecExtn.Size | src/api/tensor/descriptor.rs:12-18 | the product of the dimensions; 1 for a scalar |
| Descriptors.FromVec | src/api/tensor/descriptor.rs:31-37 | the vector's dimensions as given |
| Descriptors.FromUnit | src/api/tensor/descriptor.rs:39-45 | rank 0, size 1 |
| Descriptors.FromUsize | src/api/tensor/descriptor.rs:47-61 | the single dimension `n` |
| Descriptors.FromSigned | src/api/tensor/descriptor.rs:63-77 | the single dimension `n as usize` |
| TensorShapes.TensorShape.Check | src/tensor/tensor_shape.rs:34-47 | accepts data exactly when its length is the capacity; else `IncompatibleShape` carrying the message "TODO: incompatible shape. Capacity = …, Length = …" with both counts |
| TensorShapes.MismatchMessageInjective | src/tensor/tensor_shape.rs:37-40 | the mismatch message determines the capacity and the length it reports |
| TensorShapes.FromDims | src/tensor/tensor_shape.rs:74-93 | capacity the product of the dimensions, which are kept; rank their number |
| TensorShapes.FromUsize | src/tensor/tensor_shape.rs:95-103 | one dimension `n`, capacity `n` |
| TensorShapes.FromUsizeIsFromDims | src/tensor/tensor_shape.rs:95-103 | `From<usize>` of `n` is the shape of `[n]` |
| TensorShapes.CheckFromDims | src/tensor/tensor_shape.rs:34-47 | a shape from dimensions accepts exactly data of their product's length; a zero dimension admits only empty data |
| TensorShapes.CapacityExamples | src/tensor/tensor_shape.rs:55-57 | `[2, 4]` holds 8, `[3, 3]` holds 9, `[]` holds 1 |
| HostWrites.Overlay | src/tensor/mod.rs:325-333 | the data appear from the offset on; every other position keeps its element; empty data leave the buffer as it was, at any offset |
| HostWrites.WriteAt | src/tensor/mod.rs:325-333 | the write loop produces `Overlay` |
| ErrorCore.FromKind | src/error.rs:68-74 | an error of that kind with no payload |
| ErrorCore.New | src/error.rs:80-86 | an error of that kind carrying the payload |
| ErrorCore.Message | src/error.rs:80-86 | a message string becomes a payload whose description is the message |
| ErrorCore.FromKindFacts | src/error.rs:106-151 | a bare-kind error reports its kind, no payload and no cause, and describes itself as it displays |
| ErrorCore.NewFacts | src/error.rs:106-151 | an error with a payload hands it back and takes its description and cause from it |
| SrcError.FrameworkMessage | src/error.rs:49-66 | a framework error shows the framework's name |
| SrcError.PayloadIsHandedBack | src/error.rs:159-169 | an `Other` error with a payload hands it back with its description "abc" |
| Src2Error.FrameworkMessage | src2/error.rs:49-66 | a framework error shows the framework's name |
| Src2Error.PayloadIsHandedBack | src2/error.rs:160-170 | the payload is handed back; the description is the payload's, the display the kind's |
| ContextError.FrameworkMessage | src/error/kind.rs:31-47 | a framework error shows the framework's name |
| ContextError.PayloadIsHandedBack | src/error/mod.rs:90-100 | the payload is handed back with its description; no cause |
| CudaError.StatusOf | frameworks/cuda/src/api/error.rs:204-387 | the status each kind comes from is never success |
| CudaError.StatusOfKindOf | frameworks/cuda/src/api/error.rs:204-387 | converting an error status to its kind and back gives the status |
| CudaError.KindOfInjective | frameworks/cuda/src/api/error.rs:204-387 | no two error statuses give the same kind |
| CudaError.DeprecatedMessages | frameworks/cuda/src/api/error.rs:392-456 | the deprecated kinds read "[deprecated]" |
| CudaError.StatusErrorFacts | frameworks/cuda/src/api/error.rs:459-530 | an error from a status's kind has no payload, reports the kind and describes itself with the kind's message |
| OpenClError.StatusOf | frameworks/opencl/src/error.rs:70-127 | the status each kind comes from is never success |
| OpenClError.StatusOfKindOf | frameworks/opencl/src/error.rs:70-127 | converting an error status to its kind and back gives the status |
| OpenClError.KindOfInjective | frameworks/opencl/src/error.rs:70-127 | no two error statuses give the same kind |
| OpenClError.Description | frameworks/opencl/src/error.rs:190-197 | the payload's description |
| OpenClError.StatusErrorFacts | frameworks/opencl/src/error.rs:138-197 | an error from a status's kind has no payload; one with a payload hands it back and is described by it |
| Memories.Downcast | src/memory.rs:91-112 | the value exactly when its type is the one asked for |
| Memories.DowncastRoundTrip | src/memory.rs:77-99 | a downcast to the boxed type gives the value back; to any other, nothing |
| Memories.DefaultTransfer | src/memory.rs:54-56 | the default transfer reports no route, without payload |
| Memories.DefaultSynchronize | src2/memory.rs:153-162 | the default `synchronize_in`/`synchronize_out` report no route |
| Memories.SrcOutcome | src/shared/tensor.rs:240-245 | the no-route kind is read as no route; any other error as a failure |
| Memories.Src2Outcome | src2/tensor/mod.rs:276-282 | the same for the kinds of `src2/error.rs` |
| Memories.DefaultsNeverSync | src/memory.rs:54-56 | with default transfers in both directions a stale copy is never brought up to date: no route |
| Memories.DefaultSyncableNeverSyncs | src2/memory.rs:148-162 | with the default `syncable` neither direction is asked: no route |
| Memories.FromFramework | src/error.rs:89-94 | a framework error under the framework's name, carrying the error |
| Memories.Alloc | src/device.rs:81-85 | the device's allocation, boxed with its memory type, or its error under the framework's name |
| Memories.Synch | src/device.rs:87-119 | `synch_in` for a write and `synch_out` for a read when all parts downcast; any other type gives no route, and no route only then |
| Memories.AllocatedMemoryDispatches | src/device.rs:87-103 | a memory the device allocated passes its downcast, so a write from native memory reaches `synch_in` |
| Memories.FromBoxAsWritten | src2/memory.rs:229-247 | as written: the byte size is counted, the pointer keeps the element count |
| Memories.FromBox | src2/memory.rs:229-247 | corrected: the byte size is counted and the whole allocation is freed |
| Memories.NewFlatBox | src2/memory.rs:183-187 | a box of `capacity` bytes, freed whole |
| Memories.SliceLenRoundTrip | src2/memory.rs:190-203 | a box of `n` elements viewed as elements again has `n` |
| Memories.NewSliceLen | src2/memory.rs:190-195 | a fresh box viewed as elements holds the whole elements that fit |
| Memories.DropFreesElementCount | src2/memory.rs:211-227 | as written, dropping a box of `n` elements of more than one byte frees fewer bytes than it holds |
| NativeMemories.NativeMemory.Allocate | src/native/context.rs:19-22 | `size` bytes of host memory |
| NativeMemories.CloneFromSlice | src/native/context.rs:24-36 | the destination takes the source's bytes; the source is kept |
| NativeContexts.NativeContext.New | src/native/context.rs:14-17 | a context over the given devices |
| NativeContexts.NativeContext.AllocateMemory | src/native/context.rs:19-22 | `size` bytes of fresh host memory; never fails |
| NativeContexts.NativeContext.SynchIn | src/native/context.rs:24-29 | the destination takes the source's bytes; never fails |
| NativeContexts.NativeContext.SynchOut | src/native/context.rs:31-36 | the destination takes the source's bytes; never fails |
| NativeContexts.ContextsAreInterchangeable | src/native/context.rs:39-52 | any two native contexts are equal, and `hash` agrees with `eq` |
| NativeContexts.OutAndBack | src/native/context.rs:24-36 | copying a memory out and back in leaves it as it was |
| NativeDevices.NativeDevice.AllocateMemory | src_/frameworks/native/device.rs:14-17 | `size` bytes of fresh host memory |
| NativeDevices.NativeDevice.SynchIn | src_/frameworks/native/device.rs:20-27 | the destination takes the native source's bytes |
| NativeDevices.NativeDevice.SynchOut | src_/frameworks/native/device.rs:30-37 | the native destination takes the source's bytes |
| NativeDevices.DevicesAreInterchangeable | src_/frameworks/native/device.rs:40-43 | any two native devices are equal |
| Hardwares.FirstMatch | src/backend.rs:126-140 | the lowest index whose hardware satisfies the predicate; `None` exactly when none does |
| Hardwares.LowestMatchWins | src/backend.rs:126-140 | when some hardware matches, a match is found at or before it |
| Hardwares.FirstMatchCharacterized | src2/context.rs:35-46 | the result is `n` exactly when `n` matches and nothing before it does |
| Src2Contexts.Context.From | src2/frameworks/opencl/context.rs:77-101 | a device for each selected hardware, in order; the first is active |
| Src2Contexts.Context.Active | src2/frameworks/opencl/context.rs:56-58 | the device of the active hardware |
| Src2Contexts.Context.Activate | src2/frameworks/opencl/context.rs:64-72 | an index past the selection is refused and the active device kept; otherwise it becomes active |
| Src2Contexts.Context.Select | src2/context.rs:35-46 | the first matching hardware becomes active; with none, an error and nothing changes |
| SrcContexts.DevicesFor | src/frameworks/open_cl/context.rs:103-139 | one device per selected hardware, in order |
| SrcContexts.OpenClContext.New | src/frameworks/open_cl/context.rs:103-139 | devices for the selection, the first active, the package built over them; its failure is the result |
| SrcContexts.OpenClContext.Device | src/frameworks/open_cl/context.rs:50-80 | the device of the active hardware |
| SrcContexts.OpenClContext.Activate | src/frameworks/open_cl/context.rs:86-94 | an index past the devices is refused and the active one kept; otherwise it becomes active |
| InterfaceContexts.OpenClContext.Device | src/frameworks/opencl/interface/context.rs:52-76 | the active device is one of the selection |
| InterfaceContexts.OpenClContext.SetActive | src/frameworks/opencl/interface/context.rs:78-86 | an index past the selection is refused; otherwise that device becomes the active one |
| SrcBackends.Backend.With | src/backend.rs:94-102 | the context over the selection, or its failure |
| SrcBackends.Backend.New | src/backend.rs:74-81 | a framework failure is the result; else the context over all its hardware |
| SrcBackends.Backend.Select | src/backend.rs:126-140 | the first matching hardware becomes active; with none, an error and nothing changes |
| Src1Backends.Backend.With | src1/backend.rs:50-57 | the framework's enclosure of the selection, or its failure |
| Src1Backends.Backend.SetActive | src1/backend.rs:72-75 | the context's `set_active` |
| Src1Backends.Backend.Select | src1/backend.rs:87-102 | the first matching hardware becomes active; with none, a `Framework` error under the framework's name; an index past the context's devices gives `set_active`'s out-of-range error |
| Src1Backends.Backend.TryFrom | src1/backend.rs:60-67 | succeeds exactly when the context is built and the first hardware of the configured kind is within it, which then is active; otherwise `enclose`'s error, the no-match `Framework` error, or the out-of-range error |
| Src1Backends.New | src1/backend.rs:42-47 | a framework failure is the result; else a backend over all its hardware |
| DefaultBackends.Default | src_/backend.rs:68-95 | OpenCL over its first platform's devices when both steps succeed; otherwise a native context |
| DefaultBackends.Devices | src_/backend.rs:51-58 | one view per device of the context, in order |
| DefaultBackends.DefaultDevices | src_/backend.rs:51-95 | the default backend lists exactly its context's devices; a native fallback lists only native ones |
| RangedWrite.BoundsDetermineRange | src2/_main.rs:53-89 | a range argument is exactly its two optional bounds |
| RangedWrite.Write | src2/_main.rs:20-35 | each position of the range inside the buffer takes its data element; the rest is kept; past the end is cut |
| RangedWrite.WriteAll | src2/_main.rs:20-35 | writing the full range with data of the buffer's length replaces it |
| BlasNative.IndexInjective | crates/parenchyma-blas/src/frameworks/native/mod.rs:100-113 | distinct cells of a row-major matrix have distinct indices |
| BlasNative.CellOfPrefix | crates/parenchyma-blas/src/frameworks/native/mod.rs:100-113 | the matrix built from a slice holds `slice[cols * i + j]` in cell (i, j) |
| BlasNative.AsMatrix | crates/parenchyma-blas/src/frameworks/native/mod.rs:100-113 | an `nrows` x `ncols` matrix whose cells are the slice's first `nrows * ncols` elements |
| BlasNative.ReadFromMatrix | crates/parenchyma-blas/src/frameworks/native/mod.rs:115-124 | the slice's prefix takes the matrix's cells; its tail is unchanged |
| BlasNative.MatrixRoundTrip | crates/parenchyma-blas/src/frameworks/native/mod.rs:100-124 | reading back a matrix view of a tensor stores the tensor's own elements |
| BlasNative.MatrixShapeCoversTensor | crates/parenchyma-blas/src/frameworks/native/mod.rs:69-76 | when the dimensions fit in an `i32`, rows times columns is the tensor's capacity |
| BlasNative.Scalar | crates/parenchyma-blas/src/frameworks/native/mod.rs:21-28 | the first element when there is one; otherwise an `Other` error "Index out of bounds" |
| BlasNative.StoreResult | crates/parenchyma-blas/src/frameworks/native/mod.rs:16-19 | element 0 takes the value; the others are kept |

## Left out

- Integer widths: `usize` and `u64` arithmetic on shapes and byte sizes is unbounded here, so overflow of a capacity or a byte size is not modelled. The explicit casts (`as i32`, `as usize`) and the 64-bit version map are modelled exactly.
- Floating point: element data are integers, and the BLAS kernels of `rblas` (asum, axpy, copy, dot, nrm2, scal, swap, gemm's arithmetic) are not modelled. Only their index, shape and scalar-operand logic is.
- Device drivers: allocations and transfers on OpenCL and CUDA devices are function parameters (`Allocator`, `Route`). What a driver does with its memory is not part of this model.
- Copy lookup: every tensor generation finds a device's copy by equality of the abstract `Coherence.Device` value (framework and ordinal). The source decides this per version, and three of those rules are not modelled:
  - `synchronized` (src/memory.rs:69-71, used by src/tensor/mod.rs:444-450) and `located_on` (src2/memory.rs:33-35) default to `false`, so in the source a memory that keeps the default is never found and is allocated again on every access. Only OpenCL overrides `synchronized` with device and context equality (src/frameworks/open_cl/memory.rs:33-37).
  - The native contexts and devices compare equal whatever they hold (src/native/context.rs:39-42, src_/frameworks/native/device.rs:40-43), so all native copies are one copy in the source. The model treats `Device(Native, k)` with `k` other than 0 as a device distinct from `HOST`.
  - The `downcast_ref` of `get_location_index` (src/shared/tensor.rs:285-290, src/shared_tensor/shared.rs:193-204) is folded into the same equality.
- Src2Contexts.Context.From: always succeeds. The source panics through `.expect` when the OpenCL context or a command queue cannot be created (src2/frameworks/opencl/context.rs:81,91). Both are driver calls outside this model, so there is no input to exclude by a `requires`.
- `write_iter` and `write_offset_iter` (src/tensor/mod.rs:336-351) are `MemoryTensor.SharedTensor.WriteSlice` and `WriteOffsetSlice` over the sequence of the iterator's elements, with the same out-of-bounds panic. An iterator is modelled by the elements it yields, so they are not separate members.
- SrcContexts.OpenClContext.New: the failures of `ocl::Context::new` and `ocl::Queue::new` (src/frameworks/open_cl/context.rs:107,113) are not modelled. Those calls go into the OpenCL driver, and the model's context creation fails only through the extension package.
- Futures: the `BoxFuture` transfers of `src2/memory.rs` are modelled by their resolved result.
- Error messages: a failed `_sync_out`/`_sync_in` that reports no route becomes the bare `NoMemorySyncRoute` category with an empty message in `LocationTensor`. The route parameters return only an outcome, so the context's own message is not carried. The other messages are rendered as the source formats them.
- `as_slice`, `as_mut_slice` and `as_mut_slice_unsynched` (src/tensor/mod.rs:290-316) can fail with `ErrorKind::Other` ("the array's data is not contiguous and in standard order"). The model's host memory is a flat sequence, always contiguous and in standard order, so `MemoryTensor.SharedTensor.AsSlice`, `AsMutSlice` and `AsMutSliceUnsynched` never produce that error.
- Interior mutability: `RefCell` and `Cell` borrows are plain field updates. A borrow conflict at run time is not modelled.
- Runtime type identity: `is`, `downcast_ref` and `downcast_mut` become a type tag compared with the wanted one. `downcast_mut` is the same `Downcast`; `get_mut` is the same `Get`; `active_codev` is the same `Device`.
- The `MemoryDowncasting` error kind is never produced in the model, because every memory an allocator hands out carries its device's type tag.
- `FlatBox` pointers are abstract: a box is its byte size and the length its pointer carries.
- `Error::from_framework` is commented out in `src/error.rs`. It is modelled from that text as `Memories.FromFramework`.
- The error modules that `src/tensor/mod.rs`, `src/tensor.rs` and `src/shared_tensor/shared.rs` import are not part of this model. For those tensors the model declares only the kinds they report (`TensorError`, and the categories in `LocationTensor`).
- `src1/tensor/mod.rs` takes `ErrorKind` from its crate root, which is not part of this model. Its tensor (`CopyTensor`) is assumed to share the error kinds of `src2/error.rs` and is given that whole table (`Src2Error`).
- TrackedTensor.SharedTensor.Read: requires the chunk on the device to exist and be up to date (or the tracker to be empty). The source reaches `unimplemented!` for synchronization there.
- TrackedTensor.SharedTensor.Autosync: same requirement, for the same `unimplemented!`.
- TrackedTensor.SharedTensor.GetOrCreate: requires a chunk on the device or a full tracker, because allocating a chunk is `unimplemented!` in the source.
- ApiTensor.SharedTensor.SyncFromTo: the transfer always reads the primary memory, as in the source, which ignores `source`.
- MemoryTensor.SharedTensor.WriteOffsetSlice: requires nonempty data to fit from the offset. With nonempty data that do not fit, the source indexes past the host memory and panics. Empty data are accepted at any offset and write nothing, as in the source.
- CopyTensor.SharedTensor.WriteToMemoryOffset: when the length check passes with nonempty data, requires offset 0. At any other offset the source's writes go out of bounds and panic; see Findings. Empty data (capacity 0) are accepted at any offset and write nothing, as in the source.
- RangedWrite.Write: the two `assert!`s of `chyma::write` are `requires`. Positions past the buffer's end are dropped silently, as in the source's iterator zip.
- MemoryTensor.SharedTensor.FromArray: the `ndarray` layout check of `into_tensor` is not modelled. The array is taken as given in standard (C) order, so the non-standard-layout panic is out of scope.
- BlasNative.MatrixShape: a tensor without dimensions panics in the source. It is excluded by `requires`.
- Gemm: `alpha` and `beta` are read with `[0]`, which panics on an empty tensor. The transposition flags and the call into `rblas::Gemm` are not modelled.
- The OpenCL `as_str` is `unimplemented!`, so `OpenClError.Description` requires a payload.
- `enclose` and `package` are function parameters in the backends, because they call into the framework.

## Findings

| source | as written | input that shows it | evidently intended | confidence | as-written member | corrected member |
|---|---|---|---|---|---|---|
| src1/tensor/mod.rs:211-222 | `write_to_memory_offset` checks `data.len() == capacity` and then writes `data` from `offset` into host memory of `capacity` elements | offset 1 with data of the capacity's length (4 elements into 4): the last write lands at index 4, past the end; offset 2 with 2 elements of 4 is refused though it fits | accept data that fit from the offset (`offset + data.len() <= capacity`, or empty data at any offset) and write them there | not executed | CopyTensor.SharedTensor.WriteToMemoryOffset, CopyTensor.OffsetNeverFits | CopyTensor.SharedTensor.WriteToMemoryAt |
| src2/memory.rs:229-247 | `From<Box<[T]>>` records `byte_size = n * size_of::<T>()` but casts `*mut [T]` to `*mut [u8]`, so the pointer keeps length `n`; `Drop` (211-227) frees through that pointer | four 4-byte elements: 16 bytes allocated, 4 freed | the flat pointer carries `byte_size`, so the whole allocation is freed | not executed | Memories.FromBoxAsWritten, Memories.DropFreesElementCount | Memories.FromBox |
