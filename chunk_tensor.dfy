/** The shared tensor of `src2/tensor/mod.rs`: a `TensorShape`, a list of boxed
    chunks (memory placed on a hardware device) and a `u64Map` of versions. A
    transfer asks the source chunk whether it can push to the destination's
    device, else the destination whether it can pull from the source's; memory
    is sized `capacity * size_of::<T>()` bytes. */
module ChunkTensor {
  import opened Wrappers
  import opened Bits
  import opened Coherence
  import opened Locations
  import opened VersionMaps
  import opened ErrorCore
  import opened Src2Error
  import opened TensorShapes
  import Tracking

  type Failure = ErrorCore.Error<ErrorKind>

  /** The error each fault of the protocol is reported as: allocation and
      transfer failures pass the device's error through. */
  function ErrorOf(f: Fault<Failure>): Failure
  {
    match f
    case Uninitialized => FromKind(UninitializedMemory)
    case CapacityExceeded => FromKind(BitMapCapacityExceeded)
    case AllocationFailed(e) => e
    case NoSyncRoute => FromKind(NoAvailableSynchronizationRouteFound)
    case SyncFailed(e) => e
  }

  /** `TensorShape::check`: the data must hold exactly `capacity` elements. */
  function CheckShape<T>(shape: TensorShape, data: seq<T>): (r: Result<(), Failure>)
    ensures r.Ok? <==> |data| == shape.capacity
    ensures r.Err? ==> r.error == FromKind(IncompatibleShape)
  {
    if shape.capacity != |data| then Err(FromKind(IncompatibleShape)) else Ok(())
  }

  /** `utility::allocated`: the bytes taken by `length` elements of `elemSize` bytes. */
  function Allocated(elemSize: nat, length: nat): nat
  {
    length * elemSize
  }

  class SharedTensor {
    var shape: TensorShape
    /** `size_of::<T>()` of the element type. */
    const elemSize: nat
    const chunks: CopyList
    const versions: VersionMap

    ghost function View(): State
      reads this, chunks, versions
    {
      Tracking.ViewOf(chunks, versions)
    }

    ghost predicate Valid()
      reads this, chunks, versions
    {
      Aligned(View())
    }

    /** `new`: a tensor of the given shape with no chunk yet. */
    constructor New(shape: TensorShape, elemSize: nat)
      ensures this.shape == shape && this.elemSize == elemSize
      ensures View() == State([], 0) && Valid()
      ensures fresh(chunks) && fresh(versions)
    {
      this.shape := shape;
      this.elemSize := elemSize;
      chunks := new CopyList();
      versions := new VersionMap();
    }

    /** A tensor holding the single chunk `c`, flagged up to date (`u64Map::with(1 << 0)`). */
    constructor Holding(shape: TensorShape, elemSize: nat, c: Copy)
      ensures this.shape == shape && this.elemSize == elemSize
      ensures View() == State([c], 1) && Valid()
      ensures fresh(chunks) && fresh(versions)
    {
      this.shape := shape;
      this.elemSize := elemSize;
      var list := new CopyList();
      list.Push(c);
      chunks := list;
      versions := new VersionMap.With(Shl1(0));
      new;
      forall j: nat ensures Bit(1, j) ==> j < 1 { BitPow2(0, j); }
    }

    /** `with`: check the data against the shape, then let `device` place it in
        memory of its own (`alloc_place`); the tensor holds that one chunk, up
        to date. */
    static method With(device: Device, shape: TensorShape, elemSize: nat, data: seq<int>,
                       allocPlace: (Device, seq<int>) -> Result<seq<int>, Failure>)
      returns (r: Result<SharedTensor, Failure>)
      ensures |data| != shape.capacity ==> r == Err(FromKind(IncompatibleShape))
      ensures r.Ok? <==> |data| == shape.capacity && allocPlace(device, data).Ok?
      ensures r.Err? && |data| == shape.capacity ==> r.error == allocPlace(device, data).error
      ensures r.Ok? ==> (fresh(r.value) && r.value.shape == shape && r.value.Valid() &&
        r.value.View() == State([Copy(device, allocPlace(device, data).value)], 1))
    {
      var checked := CheckShape(shape, data);
      if checked.Err? {
        return Err(checked.error);
      }
      var placed := allocPlace(device, data);
      if placed.Err? {
        return Err(placed.error);
      }
      var tensor := new SharedTensor.Holding(shape, elemSize, Copy(device, placed.value));
      return Ok(tensor);
    }

    /** `prealloc`: `capacity * size_of::<T>()` bytes on `device`, held as the
        one chunk and flagged up to date although nothing was written. */
    static method Prealloc(device: Device, shape: TensorShape, elemSize: nat, alloc: Allocator<Failure>)
      returns (r: Result<SharedTensor, Failure>)
      ensures r.Ok? <==> alloc(device, Allocated(elemSize, shape.capacity)).Ok?
      ensures r.Err? ==> r.error == alloc(device, Allocated(elemSize, shape.capacity)).error
      ensures r.Ok? ==> (fresh(r.value) && r.value.shape == shape && r.value.Valid() &&
        r.value.View() == State([Copy(device, alloc(device, Allocated(elemSize, shape.capacity)).value)], 1))
    {
      var memory := alloc(device, Allocated(elemSize, shape.capacity));
      if memory.Err? {
        return Err(memory.error);
      }
      var tensor := new SharedTensor.Holding(shape, elemSize, Copy(device, memory.value));
      return Ok(tensor);
    }

    /** `realloc`: drop every chunk, clear the versions and take the new shape. */
    method Realloc(shape: TensorShape)
      modifies this, chunks, versions
      ensures this.shape == shape && View() == State([], 0) && Valid()
    {
      Tracking.Reset(chunks, versions);
      this.shape := shape;
      assert Aligned(State([], 0)) by { ZeroHasNoBits(0); }
    }

    /** `dealloc`: remove the chunk on `device`, close the gap in the versions
        and hand the chunk back, or report that there is none. */
    method Dealloc(device: Device) returns (r: Result<Copy, Failure>)
      requires Valid()
      modifies chunks, versions
      ensures Valid()
      ensures r.Ok? <==> Coherence.Position(old(chunks.items), device).Some?
      ensures r.Ok? ==> (View() == Drop(old(View()), device).value &&
        r.value == old(chunks.items)[Coherence.Position(old(chunks.items), device).value])
      ensures r.Err? ==> r.error == FromKind(AllocatedMemoryNotFoundForDevice) && View() == old(View())
    {
      var dropped := Tracking.DropCopy(chunks, versions, device);
      if dropped.None? {
        return Err(FromKind(AllocatedMemoryNotFoundForDevice));
      }
      return Ok(dropped.value);
    }

    /** `reshape`: take the new shape only when its capacity is the current one. */
    method Reshape(shape: TensorShape) returns (r: Result<(), Failure>)
      modifies this
      ensures r.Ok? <==> shape.capacity == old(this.shape.capacity)
      ensures r.Ok? ==> this.shape == shape
      ensures r.Err? ==> r.error == FromKind(InvalidReshapedTensorSize) && this.shape == old(this.shape)
    {
      if shape.Capacity() != this.shape.Capacity() {
        return Err(FromKind(InvalidReshapedTensorSize));
      }
      this.shape := shape;
      return Ok(());
    }

    /** `autosync`: refuse when no chunk is up to date, find or allocate the
        chunk on `device`, bring it up to date, then make it the only up-to-date
        chunk (`tick`) or add it to the up-to-date ones. */
    method Autosync(device: Device, tick: bool, alloc: Allocator<Failure>,
                    syncable: (Device, Device) -> bool, out: Route<Failure>, inward: Route<Failure>)
      returns (r: Result<nat, Failure>)
      requires Valid()
      modifies chunks, versions
      ensures Valid()
      ensures var step := Access(old(View()), device, if tick then Mode.ReadWrite else Mode.Read,
                                 alloc, Allocated(elemSize, shape.capacity), Syncable(syncable, out, inward));
        View() == step.state && r == Report(step.result, ErrorOf)
      ensures old(versions.bits) == 0 ==> r == Err(FromKind(UninitializedMemory)) && View() == old(View())
      ensures r.Ok? && tick ==> forall j: nat :: Bit(versions.bits, j) <==> j == r.value
      ensures r.Ok? && !tick ==> forall j: nat :: Bit(versions.bits, j) <==> Bit(old(versions.bits), j) || j == r.value
    {
      var res := Tracking.AccessCopy(chunks, versions, device, if tick then Mode.ReadWrite else Mode.Read,
                                     alloc, Allocated(elemSize, shape.capacity), Syncable(syncable, out, inward));
      r := Report(res, ErrorOf);
    }

    /** `synchronize`: bring chunk `destination`, which must not be up to date,
        up to date from the lowest-numbered up-to-date chunk. */
    method Synchronize(destination: nat, syncable: (Device, Device) -> bool, out: Route<Failure>, inward: Route<Failure>)
      returns (r: Result<(), Failure>)
      requires Valid() && versions.bits != 0 && destination < |chunks.items|
      requires !Bit(versions.bits, destination)
      modifies chunks
      ensures Valid()
      ensures var expected := SyncIfNeeded(old(View()), destination, Syncable(syncable, out, inward));
        (r.Ok? <==> expected.Ok?) &&
        (r.Ok? ==> View() == expected.value) &&
        (r.Err? ==> r.error == ErrorOf(expected.error) && View() == old(View()))
    {
      var res := Tracking.Synchronize(chunks, versions, destination, Syncable(syncable, out, inward));
      if res.Err? {
        return Err(ErrorOf(res.error));
      }
      return Ok(());
    }

    /** `position`: the first chunk located on `device`. */
    method Position(device: Device) returns (r: Option<nat>)
      ensures r == Coherence.Position(chunks.items, device)
    {
      r := Tracking.Locate(chunks, device);
    }

    /** `get_or_create`: the chunk on `device`, or a new one of
        `capacity * size_of::<T>()` bytes appended unless 64 exist. */
    method GetOrCreate(device: Device, alloc: Allocator<Failure>) returns (r: Result<nat, Failure>)
      requires Valid()
      modifies chunks
      ensures Valid()
      ensures var expected := Coherence.GetOrCreate(old(chunks.items), device, alloc, Allocated(elemSize, shape.capacity));
        (r.Ok? <==> expected.Ok?) &&
        (r.Ok? ==> r.value == expected.value.index && chunks.items == expected.value.copies) &&
        (r.Err? ==> r.error == ErrorOf(expected.error) && chunks.items == old(chunks.items))
      ensures Coherence.Position(old(chunks.items), device).None? && |old(chunks.items)| == WIDTH ==>
        r == Err(FromKind(BitMapCapacityExceeded))
    {
      var res := Tracking.GetOrCreateLocationIndex(chunks, device, alloc, Allocated(elemSize, shape.capacity));
      if res.Err? {
        return Err(ErrorOf(res.error));
      }
      return Ok(res.value);
    }
  }
}
