/** The shared tensor of `src/shared_tensor/shared.rs`: a shape (`Tensor`), a
    list of locations (context and memory) and an up-to-date bitmap. Errors carry
    a category and a message. A transfer tries the source context's `_sync_out`
    and, only when that reports no route, the destination context's `_sync_in`. */
module LocationTensor {
  import opened Wrappers
  import opened Bits
  import opened Coherence
  import opened Locations
  import opened VersionMaps
  import Tracking
  import ShapeTensor
  import Shapes
  import opened ErrorCore

  datatype TensorCategory = Shape | Remove | CapacityExceeded
  datatype MemoryCategory = Uninitialized | NoMemorySyncRoute
  /** The categories this file raises; a framework reports its errors under its name. */
  datatype Category = Tensor(tensor: TensorCategory) | Memory(memory: MemoryCategory) | Framework(name: string)
  datatype Failure = Failure(category: Category, message: string)

  const BIT_MAP_SIZE: nat := WIDTH

  /** The error each fault of the protocol is reported as: allocation and
      transfer failures pass the framework's error through. */
  function ErrorOf(f: Fault<Failure>): Failure
  {
    match f
    case Uninitialized => Failure(Memory(MemoryCategory.Uninitialized), "Uninitialized memory")
    case CapacityExceeded => Failure(Tensor(TensorCategory.CapacityExceeded), "Size: 64")
    case AllocationFailed(e) => e
    case NoSyncRoute => Failure(Memory(NoMemorySyncRoute), "")
    case SyncFailed(e) => e
  }

  class SharedTensor {
    var tensor: ShapeTensor.Tensor
    /** `size_of::<T>()` of the element type. */
    const elemSize: nat
    const locations: CopyList
    const upToDate: VersionMap

    ghost function View(): State
      reads this, locations, upToDate
    {
      Tracking.ViewOf(locations, upToDate)
    }

    ghost predicate Valid()
      reads this, locations, upToDate
    {
      Aligned(View())
    }

    /** `new`: a tensor of the given shape with no location yet. */
    constructor New(shape: seq<nat>, elemSize: nat)
      ensures tensor == ShapeTensor.From(shape) && this.elemSize == elemSize
      ensures View() == State([], 0) && Valid()
      ensures fresh(locations) && fresh(upToDate)
    {
      tensor := ShapeTensor.From(shape);
      this.elemSize := elemSize;
      locations := new CopyList();
      upToDate := new VersionMap();
    }

    /** `reshape`: take the new shape only when it has as many components as
        the current one; the locations are kept either way. */
    method Reshape(shape: seq<nat>) returns (r: Result<(), Failure>)
      modifies this
      ensures r.Ok? <==> ShapeTensor.From(shape).ncomponents == old(tensor.ncomponents)
      ensures r.Ok? ==> tensor == ShapeTensor.From(shape)
      ensures r.Err? ==> tensor == old(tensor) && r.error.category == Tensor(Shape)
    {
      var next := ShapeTensor.From(shape);
      if tensor.ncomponents == next.ncomponents {
        tensor := next;
        return Ok(());
      }
      return Err(Failure(Tensor(Shape), "Size of the provided shape is not equal to the size of the current shape. "
        + Decimal(next.ncomponents) + " (provided) != " + Decimal(tensor.ncomponents) + " (current)"));
    }

    /** `resize`: forget every location and take the new shape. */
    method Resize(shape: seq<nat>)
      modifies this, locations, upToDate
      ensures tensor == ShapeTensor.From(shape)
      ensures View() == State([], 0) && Valid()
    {
      tensor := ShapeTensor.From(shape);
      Tracking.Reset(locations, upToDate);
      assert Aligned(State([], 0)) by { ZeroHasNoBits(0); }
    }

    /** `read`: the memory on `context`, brought up to date and flagged as up to
        date next to the copies that already were. */
    method Read(context: Device, alloc: Allocator<Failure>, syncOut: Route<Failure>, syncIn: Route<Failure>)
      returns (r: Result<nat, Failure>)
      requires Valid()
      modifies locations, upToDate
      ensures Valid()
      ensures var step := Access(old(View()), context, Mode.Read, alloc, Shapes.MemSize(elemSize, tensor.ncomponents), Fallback(syncOut, syncIn));
        View() == step.state && r == Report(step.result, ErrorOf)
      ensures old(upToDate.bits) == 0 ==> r == Err(Failure(Memory(MemoryCategory.Uninitialized), "Uninitialized memory")) && View() == old(View())
      ensures r.Ok? ==> forall j: nat :: Bit(upToDate.bits, j) <==> Bit(old(upToDate.bits), j) || j == r.value
    {
      var res := Tracking.AccessCopy(locations, upToDate, context, Mode.Read, alloc, Shapes.MemSize(elemSize, tensor.ncomponents), Fallback(syncOut, syncIn));
      r := Report(res, ErrorOf);
    }

    /** `read_write`: the memory on `context`, brought up to date and flagged as
        the only up-to-date copy. */
    method ReadWrite(context: Device, alloc: Allocator<Failure>, syncOut: Route<Failure>, syncIn: Route<Failure>)
      returns (r: Result<nat, Failure>)
      requires Valid()
      modifies locations, upToDate
      ensures Valid()
      ensures var step := Access(old(View()), context, Mode.ReadWrite, alloc, Shapes.MemSize(elemSize, tensor.ncomponents), Fallback(syncOut, syncIn));
        View() == step.state && r == Report(step.result, ErrorOf)
      ensures old(upToDate.bits) == 0 ==> r == Err(Failure(Memory(MemoryCategory.Uninitialized), "Uninitialized memory")) && View() == old(View())
      ensures r.Ok? ==> forall j: nat :: Bit(upToDate.bits, j) <==> j == r.value
    {
      var res := Tracking.AccessCopy(locations, upToDate, context, Mode.ReadWrite, alloc, Shapes.MemSize(elemSize, tensor.ncomponents), Fallback(syncOut, syncIn));
      r := Report(res, ErrorOf);
    }

    /** `write_only`: the memory on `context` without initialisation check or
        transfer, flagged as the only up-to-date copy. */
    method WriteOnly(context: Device, alloc: Allocator<Failure>)
      returns (r: Result<nat, Failure>)
      requires Valid()
      modifies locations, upToDate
      ensures Valid()
      ensures var step := Access(old(View()), context, Mode.WriteOnly, alloc, Shapes.MemSize(elemSize, tensor.ncomponents), NeverRoutes);
        View() == step.state && r == Report(step.result, ErrorOf)
      ensures r.Ok? ==> forall j: nat :: Bit(upToDate.bits, j) <==> j == r.value
      ensures r.Ok? ==> locations.items[r.value].device == context
    {
      var res := Tracking.AccessCopy(locations, upToDate, context, Mode.WriteOnly, alloc, Shapes.MemSize(elemSize, tensor.ncomponents), NeverRoutes);
      r := Report(res, ErrorOf);
    }

    /** `drop_context`: remove the memory on `context` and close the gap in the
        flags, or report that there is none. */
    method DropContext(context: Device) returns (r: Result<(), Failure>)
      requires Valid()
      modifies locations, upToDate
      ensures Valid()
      ensures r.Ok? <==> Position(old(locations.items), context).Some?
      ensures r.Ok? ==> View() == Drop(old(View()), context).value
      ensures r.Err? ==> r.error == Failure(Tensor(Remove), "Memory isn't allocated for this context") && View() == old(View())
    {
      var dropped := Tracking.DropCopy(locations, upToDate, context);
      if dropped.None? {
        return Err(Failure(Tensor(Remove), "Memory isn't allocated for this context"));
      }
      return Ok(());
    }

    /** `sync_if_needed`: bring copy `dst` up to date from the lowest-numbered
        up-to-date copy unless it already is. */
    method SyncIfNeeded(dst: nat, syncOut: Route<Failure>, syncIn: Route<Failure>) returns (r: Result<(), Failure>)
      requires Valid() && upToDate.bits != 0 && dst < |locations.items|
      modifies locations
      ensures Valid()
      ensures var expected := Coherence.SyncIfNeeded(old(View()), dst, Fallback(syncOut, syncIn));
        (r.Ok? <==> expected.Ok?) &&
        (r.Ok? ==> View() == expected.value) &&
        (r.Err? ==> r.error == ErrorOf(expected.error) && View() == old(View()))
    {
      var res := Tracking.Synchronize(locations, upToDate, dst, Fallback(syncOut, syncIn));
      if res.Err? {
        return Err(ErrorOf(res.error));
      }
      return Ok(());
    }

    /** `get_location_index`: the first copy on `context`. */
    method GetLocationIndex(context: Device) returns (r: Option<nat>)
      ensures r == Position(locations.items, context)
    {
      r := Tracking.Locate(locations, context);
    }

    /** `get_or_create_location_index`: the copy on `context`, or a new one of
        `mem_size(ncomponents)` bytes appended unless 64 exist. */
    method GetOrCreateLocationIndex(context: Device, alloc: Allocator<Failure>) returns (r: Result<nat, Failure>)
      requires Valid()
      modifies locations
      ensures Valid()
      ensures var expected := GetOrCreate(old(locations.items), context, alloc, Shapes.MemSize(elemSize, tensor.ncomponents));
        (r.Ok? <==> expected.Ok?) &&
        (r.Ok? ==> r.value == expected.value.index && locations.items == expected.value.copies) &&
        (r.Err? ==> r.error == ErrorOf(expected.error) && locations.items == old(locations.items))
      ensures r.Err? && r.error.category == Tensor(TensorCategory.CapacityExceeded) <== Position(old(locations.items), context).None? && |old(locations.items)| == WIDTH
    {
      var res := Tracking.GetOrCreateLocationIndex(locations, context, alloc, Shapes.MemSize(elemSize, tensor.ncomponents));
      if res.Err? {
        return Err(ErrorOf(res.error));
      }
      return Ok(res.value);
    }
  }

}
