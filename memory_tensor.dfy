/** The shared tensor of `src/tensor/mod.rs` and `src/tensor/into_tensor.rs`:
    a `TensorShape`, the memories allocated on compute devices and a
    `TensorMap` of synchronization flags. A tensor built from data holds it in
    native (host) memory. A transfer asks the source memory to transfer out;
    only when that finds no route does the destination memory transfer in. */
module MemoryTensor {
  import opened Wrappers
  import opened Bits
  import opened Coherence
  import opened Locations
  import opened VersionMaps
  import opened ErrorCore
  import opened TensorError
  import opened TensorShapes
  import opened HostWrites
  import Shapes
  import Tracking

  /** The error each fault of the protocol is reported as: allocation and
      transfer failures pass the device's error through. */
  function ErrorOf(f: Fault<Failure>): Failure
  {
    match f
    case Uninitialized => FromKind(UninitializedMemory)
    case CapacityExceeded => FromKind(ErrorKind.CapacityExceeded)
    case AllocationFailed(e) => e
    case NoSyncRoute => FromKind(NoAvailableSynchronizationRouteFound)
    case SyncFailed(e) => e
  }

  /** The `ShapeError` that `ndarray` reports when the data does not fill the
      dimensions; it becomes the cause of an `IncompatibleShape` error. */
  const SHAPE_ERROR: Payload := Payload("ShapeError", "incompatible shapes", None)

  /** `vec![T::zero(); length]`. */
  function Zeros(length: nat): (r: seq<int>)
    ensures |r| == length && forall k :: 0 <= k < length ==> r[k] == 0
  {
    seq(length, _ => 0)
  }

  class SharedTensor {
    var shape: TensorShape
    const memories: CopyList
    const synchMap: VersionMap

    ghost function View(): State
      reads this, memories, synchMap
    {
      Tracking.ViewOf(memories, synchMap)
    }

    ghost predicate Valid()
      reads this, memories, synchMap
    {
      Aligned(View())
    }

    /** `uninitialized`: a tensor of the given shape with no memory. */
    constructor Uninitialized(shape: TensorShape)
      ensures this.shape == shape && View() == State([], 0) && Valid()
      ensures fresh(memories) && fresh(synchMap)
    {
      this.shape := shape;
      memories := new CopyList();
      synchMap := new VersionMap();
    }

    /** A tensor whose only memory is host memory holding `data`, flagged in
        sync (`TensorMap::with(1 << 0)`). */
    constructor Holding(shape: TensorShape, data: seq<int>)
      ensures this.shape == shape && View() == State([Copy(HOST, data)], 1) && Valid()
      ensures fresh(memories) && fresh(synchMap)
    {
      this.shape := shape;
      var list := new CopyList();
      list.Push(Copy(HOST, data));
      memories := list;
      synchMap := new VersionMap.With(Shl1(0));
      new;
      forall j: nat ensures Bit(1, j) ==> j < 1 { BitPow2(0, j); }
    }

    /** `From<I: Into<TensorShape>>`: `with` the shape and `capacity` zeros,
        unwrapped; the shape's capacity must be the product of its dimensions. */
    constructor FromShape(shape: TensorShape)
      requires shape.Consistent()
      ensures this.shape == shape && View() == State([Copy(HOST, Zeros(shape.capacity))], 1) && Valid()
      ensures fresh(memories) && fresh(synchMap)
    {
      this.shape := shape;
      var list := new CopyList();
      list.Push(Copy(HOST, Zeros(shape.capacity)));
      memories := list;
      synchMap := new VersionMap.With(Shl1(0));
      new;
      forall j: nat ensures Bit(1, j) ==> j < 1 { BitPow2(0, j); }
    }

    /** `From<Array<T, D>>` and `IntoTensor::into_tensor`: an array in standard
        layout with dimensions `dims` and elements `data` becomes a tensor of
        that shape holding the elements in host memory. */
    constructor FromArray(dims: seq<nat>, data: seq<int>)
      requires |data| == Shapes.Product(dims)
      ensures shape == FromDims(dims) && shape.capacity == |data|
      ensures View() == State([Copy(HOST, data)], 1) && Valid()
      ensures fresh(memories) && fresh(synchMap)
    {
      shape := FromDims(dims);
      var list := new CopyList();
      list.Push(Copy(HOST, data));
      memories := list;
      synchMap := new VersionMap.With(Shl1(0));
      new;
      forall j: nat ensures Bit(1, j) ==> j < 1 { BitPow2(0, j); }
    }

    /** `scalar`: the rank-1 array `[value]` as a tensor. */
    static method Scalar(value: int) returns (r: Result<SharedTensor, Failure>)
      ensures r.Ok? && fresh(r.value)
      ensures r.Ok? ==> (r.value.shape.dimsizes == [1] && r.value.shape.capacity == 1 && r.value.Valid() &&
        r.value.View() == State([Copy(HOST, [value])], 1))
    {
      Shapes.ProductSingle(1);
      var tensor := new SharedTensor.FromArray([1], [value]);
      return Ok(tensor);
    }

    /** `with`: the data must fill the shape's dimensions exactly; it is then
        held in host memory, flagged in sync. */
    static method With(shape: TensorShape, data: seq<int>) returns (r: Result<SharedTensor, Failure>)
      ensures r.Ok? <==> |data| == Shapes.Product(shape.dimsizes)
      ensures r.Err? ==> r.error == New(IncompatibleShape, SHAPE_ERROR)
      ensures r.Ok? ==> (fresh(r.value) && r.value.shape == shape && r.value.Valid() &&
        r.value.View() == State([Copy(HOST, data)], 1))
    {
      if |data| != Shapes.Product(shape.Dimensions()) {
        return Err(New(IncompatibleShape, SHAPE_ERROR));
      }
      var tensor := new SharedTensor.Holding(shape, data);
      return Ok(tensor);
    }

    /** `reshape`: take the new shape only when its capacity is the current one. */
    method Reshape(shape: TensorShape) returns (r: Result<(), Failure>)
      modifies this
      ensures r.Ok? <==> shape.capacity == old(this.shape.capacity)
      ensures r.Ok? ==> this.shape == shape
      ensures r.Err? ==> r.error == FromKind(InvalidReshapedTensorSize) && this.shape == old(this.shape)
    {
      if shape.capacity != this.shape.capacity {
        return Err(FromKind(InvalidReshapedTensorSize));
      }
      this.shape := shape;
      return Ok(());
    }

    /** `resize`: replace the tensor by a fresh one of the new shape, whose
        only memory is zero-filled host memory in sync. */
    method Resize(shape: TensorShape) returns (r: Result<(), Failure>)
      requires shape.Consistent()
      modifies this, memories, synchMap
      ensures r.Ok? && Valid()
      ensures this.shape == shape && View() == State([Copy(HOST, Zeros(shape.capacity))], 1)
    {
      Tracking.Reset(memories, synchMap);
      memories.Push(Copy(HOST, Zeros(shape.capacity)));
      synchMap.Set(Shl1(0));
      this.shape := shape;
      forall j: nat ensures Bit(1, j) ==> j < 1 { BitPow2(0, j); }
      return Ok(());
    }

    /** `realloc`: drop every memory, clear the flags and take the new shape. */
    method Realloc(shape: TensorShape)
      modifies this, memories, synchMap
      ensures this.shape == shape && View() == State([], 0) && Valid()
    {
      Tracking.Reset(memories, synchMap);
      this.shape := shape;
      assert Aligned(State([], 0)) by { ZeroHasNoBits(0); }
    }

    /** `synch`: `autosync` for reading on `codev`, the index discarded. */
    method Synch(codev: Device, alloc: Allocator<Failure>, out: Route<Failure>, inward: Route<Failure>)
      returns (r: Result<(), Failure>)
      requires Valid()
      modifies memories, synchMap
      ensures Valid()
      ensures var step := Access(old(View()), codev, Mode.Read, alloc, shape.capacity, Fallback(out, inward));
        View() == step.state && (r.Ok? <==> step.result.Ok?) &&
        (r.Err? ==> r.error == ErrorOf(step.result.error))
    {
      var i := Autosync(codev, false, alloc, out, inward);
      if i.Err? {
        return Err(i.error);
      }
      return Ok(());
    }

    /** `synchronize_return`: `synch`, then hand the tensor itself back. */
    method SynchronizeReturn(codev: Device, alloc: Allocator<Failure>, out: Route<Failure>, inward: Route<Failure>)
      returns (r: Result<SharedTensor, Failure>)
      requires Valid()
      modifies memories, synchMap
      ensures Valid()
      ensures var step := Access(old(View()), codev, Mode.Read, alloc, shape.capacity, Fallback(out, inward));
        View() == step.state && (r.Ok? <==> step.result.Ok?) &&
        (r.Ok? ==> r.value == this) &&
        (r.Err? ==> r.error == ErrorOf(step.result.error))
    {
      var synched := Synch(codev, alloc, out, inward);
      if synched.Err? {
        return Err(synched.error);
      }
      return Ok(this);
    }

    /** `reference`: the memory on `codev`, synchronized and flagged in sync
        next to the memories that already were. */
    method Reference(codev: Device, alloc: Allocator<Failure>, out: Route<Failure>, inward: Route<Failure>)
      returns (r: Result<nat, Failure>)
      requires Valid()
      modifies memories, synchMap
      ensures Valid()
      ensures var step := Access(old(View()), codev, Mode.Read, alloc, shape.capacity, Fallback(out, inward));
        View() == step.state && r == Report(step.result, ErrorOf)
      ensures old(synchMap.bits) == 0 ==> r == Err(FromKind(UninitializedMemory)) && View() == old(View())
      ensures r.Ok? ==> memories.items[r.value].device == codev
      ensures r.Ok? ==> forall j: nat :: Bit(synchMap.bits, j) <==> Bit(old(synchMap.bits), j) || j == r.value
    {
      r := Autosync(codev, false, alloc, out, inward);
    }

    /** `mut_reference`: the memory on `codev`, synchronized and flagged as the
        only memory in sync. */
    method MutReference(codev: Device, alloc: Allocator<Failure>, out: Route<Failure>, inward: Route<Failure>)
      returns (r: Result<nat, Failure>)
      requires Valid()
      modifies memories, synchMap
      ensures Valid()
      ensures var step := Access(old(View()), codev, Mode.ReadWrite, alloc, shape.capacity, Fallback(out, inward));
        View() == step.state && r == Report(step.result, ErrorOf)
      ensures old(synchMap.bits) == 0 ==> r == Err(FromKind(UninitializedMemory)) && View() == old(View())
      ensures r.Ok? ==> memories.items[r.value].device == codev
      ensures r.Ok? ==> forall j: nat :: Bit(synchMap.bits, j) <==> j == r.value
    {
      r := Autosync(codev, true, alloc, out, inward);
    }

    /** `mut_reference_unsynched`: the memory on `codev`, found or allocated,
        flagged as the only memory in sync without checking or transferring. */
    method MutReferenceUnsynched(codev: Device, alloc: Allocator<Failure>) returns (r: Result<nat, Failure>)
      requires Valid()
      modifies memories, synchMap
      ensures Valid()
      ensures var expected := GetOrCreate(old(memories.items), codev, alloc, shape.capacity);
        (r.Ok? <==> expected.Ok?) &&
        (r.Ok? ==> r.value == expected.value.index && memories.items == expected.value.copies &&
                   forall j: nat :: Bit(synchMap.bits, j) <==> j == r.value) &&
        (r.Err? ==> r.error == ErrorOf(expected.error) && View() == old(View()))
    {
      var found := Tracking.GetOrCreateLocationIndex(memories, codev, alloc, shape.capacity);
      if found.Err? {
        return Err(ErrorOf(found.error));
      }
      var i := found.value;
      synchMap.Set(Shl1(i));
      return Ok(i);
    }

    /** `as_slice`: the elements of the host memory, synchronized for reading. */
    method AsSlice(alloc: Allocator<Failure>, out: Route<Failure>, inward: Route<Failure>)
      returns (r: Result<seq<int>, Failure>)
      requires Valid()
      modifies memories, synchMap
      ensures Valid()
      ensures var step := Access(old(View()), HOST, Mode.Read, alloc, shape.capacity, Fallback(out, inward));
        View() == step.state && (r.Ok? <==> step.result.Ok?) &&
        (r.Ok? ==> memories.items[step.result.value].device == HOST &&
                   r.value == memories.items[step.result.value].data) &&
        (r.Err? ==> r.error == ErrorOf(step.result.error))
    {
      var i := Reference(HOST, alloc, out, inward);
      if i.Err? {
        return Err(i.error);
      }
      return Ok(memories.items[i.value].data);
    }

    /** `as_mut_slice`: the elements of the host memory, synchronized and then
        flagged as the only memory in sync. */
    method AsMutSlice(alloc: Allocator<Failure>, out: Route<Failure>, inward: Route<Failure>)
      returns (r: Result<seq<int>, Failure>)
      requires Valid()
      modifies memories, synchMap
      ensures Valid()
      ensures var step := Access(old(View()), HOST, Mode.ReadWrite, alloc, shape.capacity, Fallback(out, inward));
        View() == step.state && (r.Ok? <==> step.result.Ok?) &&
        (r.Ok? ==> memories.items[step.result.value].device == HOST &&
                   r.value == memories.items[step.result.value].data) &&
        (r.Err? ==> r.error == ErrorOf(step.result.error))
    {
      var i := MutReference(HOST, alloc, out, inward);
      if i.Err? {
        return Err(i.error);
      }
      return Ok(memories.items[i.value].data);
    }

    /** `as_mut_slice_unsynched`: the elements of the host memory, found or
        allocated, flagged as the only memory in sync. */
    method AsMutSliceUnsynched(alloc: Allocator<Failure>) returns (r: Result<seq<int>, Failure>)
      requires Valid()
      modifies memories, synchMap
      ensures Valid()
      ensures var expected := GetOrCreate(old(memories.items), HOST, alloc, shape.capacity);
        (r.Ok? <==> expected.Ok?) &&
        (r.Ok? ==> memories.items == expected.value.copies &&
                   r.value == expected.value.copies[expected.value.index].data &&
                   forall j: nat :: Bit(synchMap.bits, j) <==> j == expected.value.index) &&
        (r.Err? ==> r.error == ErrorOf(expected.error) && View() == old(View()))
    {
      var i := MutReferenceUnsynched(HOST, alloc);
      if i.Err? {
        return Err(i.error);
      }
      return Ok(memories.items[i.value].data);
    }

    /** `write_slice`: `write_offset_slice` at offset 0. */
    method WriteSlice(data: seq<int>, alloc: Allocator<Failure>) returns (r: Result<(), Failure>)
      requires Valid() && Sized(memories.items, shape.capacity) && AllocSized(alloc, shape.capacity, shape.capacity)
      requires |data| <= shape.capacity
      modifies memories, synchMap
      ensures Valid()
      ensures r.Ok? <==> GetOrCreate(old(memories.items), HOST, alloc, shape.capacity).Ok?
      ensures r.Ok? ==>
        var before := GetOrCreate(old(memories.items), HOST, alloc, shape.capacity).value;
        (|memories.items| == |before.copies| &&
         memories.items[before.index].device == HOST &&
         memories.items[before.index].data == data + before.copies[before.index].data[|data|..] &&
         (forall k :: 0 <= k < |memories.items| && k != before.index ==> memories.items[k] == before.copies[k]) &&
         forall j: nat :: Bit(synchMap.bits, j) <==> j == before.index)
      ensures r.Err? ==> (r.error == ErrorOf(GetOrCreate(old(memories.items), HOST, alloc, shape.capacity).error) &&
        View() == old(View()))
    {
      r := WriteOffsetSlice(data, 0, alloc);
    }

    /** `write_offset_slice`: write `data` into the host memory from `offset`
        on, the host memory becoming the only memory in sync. The host memory
        holds `capacity` elements, and an index past it panics, so nonempty
        data must fit; empty data write nothing at any offset. */
    method WriteOffsetSlice(data: seq<int>, offset: nat, alloc: Allocator<Failure>) returns (r: Result<(), Failure>)
      requires Valid() && Sized(memories.items, shape.capacity) && AllocSized(alloc, shape.capacity, shape.capacity)
      requires WithinBuffer(shape.capacity, offset, |data|)
      modifies memories, synchMap
      ensures Valid()
      ensures r.Ok? <==> GetOrCreate(old(memories.items), HOST, alloc, shape.capacity).Ok?
      ensures r.Err? ==> (r.error == ErrorOf(GetOrCreate(old(memories.items), HOST, alloc, shape.capacity).error) &&
        View() == old(View()))
      ensures r.Ok? ==>
        var before := GetOrCreate(old(memories.items), HOST, alloc, shape.capacity).value;
        (|memories.items| == |before.copies| && memories.items[before.index].device == HOST &&
         memories.items[before.index].data == Overlay(before.copies[before.index].data, offset, data) &&
         (forall k :: 0 <= k < |memories.items| && k != before.index ==> memories.items[k] == before.copies[k]) &&
         forall j: nat :: Bit(synchMap.bits, j) <==> j == before.index)
    {
      var written := MutReferenceUnsynched(HOST, alloc);
      if written.Err? {
        return Err(written.error);
      }
      var i := written.value;
      var buffer := memories.items[i].data;
      var filled := WriteAt(buffer, data, offset);
      memories.Overwrite(i, filled);
      return Ok(());
    }

    /** `autosync`: refuse when no memory is in sync, find or allocate the
        memory on `codev`, synchronize it unless it is in sync, then make it
        the only memory in sync (`overwritable`) or add it to those in sync. */
    method Autosync(codev: Device, overwritable: bool, alloc: Allocator<Failure>, out: Route<Failure>, inward: Route<Failure>)
      returns (r: Result<nat, Failure>)
      requires Valid()
      modifies memories, synchMap
      ensures Valid()
      ensures var step := Access(old(View()), codev, if overwritable then Mode.ReadWrite else Mode.Read,
                                 alloc, shape.capacity, Fallback(out, inward));
        View() == step.state && r == Report(step.result, ErrorOf)
    {
      var res := Tracking.AccessCopy(memories, synchMap, codev, if overwritable then Mode.ReadWrite else Mode.Read,
                                     alloc, shape.capacity, Fallback(out, inward));
      r := Report(res, ErrorOf);
    }

    /** `synchronize`: bring memory `destination`, which must be out of sync,
        in sync from the lowest-numbered memory in sync. */
    method Synchronize(destination: nat, out: Route<Failure>, inward: Route<Failure>) returns (r: Result<(), Failure>)
      requires Valid() && synchMap.bits != 0 && destination < |memories.items|
      requires !Bit(synchMap.bits, destination)
      modifies memories
      ensures Valid()
      ensures var expected := SyncIfNeeded(old(View()), destination, Fallback(out, inward));
        (r.Ok? <==> expected.Ok?) &&
        (r.Ok? ==> View() == expected.value) &&
        (r.Err? ==> r.error == ErrorOf(expected.error) && View() == old(View()))
    {
      var res := Tracking.Synchronize(memories, synchMap, destination, Fallback(out, inward));
      if res.Err? {
        return Err(ErrorOf(res.error));
      }
      return Ok(());
    }

    /** `synchronized`: whether memory `index` is flagged in sync. */
    method Synchronized(index: nat) returns (r: bool)
      ensures r <==> index < WIDTH && Bit(synchMap.bits, index)
    {
      r := synchMap.Contains(index);
    }

    /** `position`: the first memory on `codev`. */
    method Position(codev: Device) returns (r: Option<nat>)
      ensures r == Coherence.Position(memories.items, codev)
    {
      r := Tracking.Locate(memories, codev);
    }

    /** `fetchsert`: the memory on `codev`, or a new one allocated for the
        shape and appended unless 64 exist. */
    method Fetchsert(codev: Device, alloc: Allocator<Failure>) returns (r: Result<nat, Failure>)
      requires Valid()
      modifies memories
      ensures Valid()
      ensures var expected := GetOrCreate(old(memories.items), codev, alloc, shape.capacity);
        (r.Ok? <==> expected.Ok?) &&
        (r.Ok? ==> r.value == expected.value.index && memories.items == expected.value.copies) &&
        (r.Err? ==> r.error == ErrorOf(expected.error) && memories.items == old(memories.items))
      ensures Coherence.Position(old(memories.items), codev).None? && |old(memories.items)| == WIDTH ==>
        r == Err(FromKind(ErrorKind.CapacityExceeded))
    {
      var res := Tracking.GetOrCreateLocationIndex(memories, codev, alloc, shape.capacity);
      if res.Err? {
        return Err(ErrorOf(res.error));
      }
      return Ok(res.value);
    }
  }
}
