/** The shared tensor of `src/shared/tensor.rs`: copies keyed by context, kept
    in an `RVec` with a `U64Map` of up-to-date flags. A transfer first asks the
    source context to read its memory out; only when it has no route does the
    destination context write it in. */
module ContextTensor {
  import opened Wrappers
  import opened Bits
  import opened Coherence
  import opened Locations
  import opened VersionMaps
  import opened ErrorCore
  import opened ContextError
  import Tracking
  import Shapes

  type Failure = ErrorCore.Error<ErrorKind>

  /** The error each fault of the protocol is reported as: allocation and
      transfer failures pass the framework's error through. */
  function ErrorOf(f: Fault<Failure>): Failure
  {
    match f
    case Uninitialized => FromKind(UninitializedMemory)
    case CapacityExceeded => FromKind(BitMapCapacityExceeded)
    case AllocationFailed(e) => e
    case NoSyncRoute => FromKind(NoAvailableSynchronizationRouteFound)
    case SyncFailed(e) => e
  }

  class SharedTensor {
    var rank: nat
    var capacity: nat
    var shape: seq<nat>
    /** `size_of::<T>()` of the element type. */
    const elemSize: nat
    const rvec: CopyList
    const u64map: VersionMap

    ghost function View(): State
      reads this, rvec, u64map
    {
      Tracking.ViewOf(rvec, u64map)
    }

    ghost predicate Valid()
      reads this, rvec, u64map
    {
      Aligned(View())
    }

    /** `From<I: Into<Vec<usize>>>`: a tensor of the given shape with no memory yet. */
    constructor From(shape: seq<nat>, elemSize: nat)
      ensures rank == |shape| && capacity == Shapes.Product(shape) && this.shape == shape
      ensures this.elemSize == elemSize
      ensures View() == State([], 0) && Valid()
      ensures fresh(rvec) && fresh(u64map)
    {
      rank := |shape|;
      capacity := Shapes.Product(shape);
      this.shape := shape;
      this.elemSize := elemSize;
      rvec := new CopyList();
      u64map := new VersionMap();
    }

    /** `read`: the memory on `context`, brought up to date and flagged as up to
        date next to the copies that already were. */
    method Read(context: Device, alloc: Allocator<Failure>, synchRead: Route<Failure>, synchWrite: Route<Failure>)
      returns (r: Result<nat, Failure>)
      requires Valid()
      modifies rvec, u64map
      ensures Valid()
      ensures var step := Access(old(View()), context, Mode.Read, alloc, Shapes.MemSize(elemSize, capacity), Fallback(synchRead, synchWrite));
        View() == step.state && r == Report(step.result, ErrorOf)
      ensures old(u64map.bits) == 0 ==> r == Err(FromKind(UninitializedMemory)) && View() == old(View())
      ensures r.Ok? ==> forall j: nat :: Bit(u64map.bits, j) <==> Bit(old(u64map.bits), j) || j == r.value
    {
      var res := Tracking.AccessCopy(rvec, u64map, context, Mode.Read, alloc, Shapes.MemSize(elemSize, capacity), Fallback(synchRead, synchWrite));
      r := Report(res, ErrorOf);
    }

    /** `read_write`: the memory on `context`, brought up to date and flagged as
        the only up-to-date copy. */
    method ReadWrite(context: Device, alloc: Allocator<Failure>, synchRead: Route<Failure>, synchWrite: Route<Failure>)
      returns (r: Result<nat, Failure>)
      requires Valid()
      modifies rvec, u64map
      ensures Valid()
      ensures var step := Access(old(View()), context, Mode.ReadWrite, alloc, Shapes.MemSize(elemSize, capacity), Fallback(synchRead, synchWrite));
        View() == step.state && r == Report(step.result, ErrorOf)
      ensures old(u64map.bits) == 0 ==> r == Err(FromKind(UninitializedMemory)) && View() == old(View())
      ensures r.Ok? ==> forall j: nat :: Bit(u64map.bits, j) <==> j == r.value
    {
      var res := Tracking.AccessCopy(rvec, u64map, context, Mode.ReadWrite, alloc, Shapes.MemSize(elemSize, capacity), Fallback(synchRead, synchWrite));
      r := Report(res, ErrorOf);
    }

    /** `write_only`: the memory on `context` without initialisation check or
        transfer, flagged as the only up-to-date copy. */
    method WriteOnly(context: Device, alloc: Allocator<Failure>)
      returns (r: Result<nat, Failure>)
      requires Valid()
      modifies rvec, u64map
      ensures Valid()
      ensures var step := Access(old(View()), context, Mode.WriteOnly, alloc, Shapes.MemSize(elemSize, capacity), NeverRoutes);
        View() == step.state && r == Report(step.result, ErrorOf)
      ensures r.Ok? ==> forall j: nat :: Bit(u64map.bits, j) <==> j == r.value
      ensures r.Ok? ==> rvec.items[r.value].device == context
    {
      var res := Tracking.AccessCopy(rvec, u64map, context, Mode.WriteOnly, alloc, Shapes.MemSize(elemSize, capacity), NeverRoutes);
      r := Report(res, ErrorOf);
    }

    /** `drop_context`: remove the memory on `context` and close the gap in the
        flags, or report that there is none. */
    method DropContext(context: Device) returns (r: Result<(), Failure>)
      requires Valid()
      modifies rvec, u64map
      ensures Valid()
      ensures r.Ok? <==> Position(old(rvec.items), context).Some?
      ensures r.Ok? ==> View() == Drop(old(View()), context).value
      ensures r.Err? ==> r.error == FromKind(AllocatedMemoryNotFoundForContext) && View() == old(View())
    {
      var dropped := Tracking.DropCopy(rvec, u64map, context);
      if dropped.None? {
        return Err(FromKind(AllocatedMemoryNotFoundForContext));
      }
      return Ok(());
    }

    /** `sync_if_needed`: bring copy `dst` up to date from the lowest-numbered
        up-to-date copy unless it already is. */
    method SyncIfNeeded(dst: nat, synchRead: Route<Failure>, synchWrite: Route<Failure>) returns (r: Result<(), Failure>)
      requires Valid() && u64map.bits != 0 && dst < |rvec.items|
      modifies rvec
      ensures Valid()
      ensures var expected := Coherence.SyncIfNeeded(old(View()), dst, Fallback(synchRead, synchWrite));
        (r.Ok? <==> expected.Ok?) &&
        (r.Ok? ==> View() == expected.value) &&
        (r.Err? ==> r.error == ErrorOf(expected.error) && View() == old(View()))
    {
      var res := Tracking.Synchronize(rvec, u64map, dst, Fallback(synchRead, synchWrite));
      if res.Err? {
        return Err(ErrorOf(res.error));
      }
      return Ok(());
    }

    /** `get_location_index`: the first copy on `context`. */
    method GetLocationIndex(context: Device) returns (r: Option<nat>)
      ensures r == Position(rvec.items, context)
    {
      r := Tracking.Locate(rvec, context);
    }

    /** `get_or_create_location_index`: the copy on `context`, or a new one of
        `mem_size(capacity)` bytes appended unless 64 exist. */
    method GetOrCreateLocationIndex(context: Device, alloc: Allocator<Failure>) returns (r: Result<nat, Failure>)
      requires Valid()
      modifies rvec
      ensures Valid()
      ensures var expected := GetOrCreate(old(rvec.items), context, alloc, Shapes.MemSize(elemSize, capacity));
        (r.Ok? <==> expected.Ok?) &&
        (r.Ok? ==> r.value == expected.value.index && rvec.items == expected.value.copies) &&
        (r.Err? ==> r.error == ErrorOf(expected.error) && rvec.items == old(rvec.items))
      ensures r.Err? && r.error == FromKind(BitMapCapacityExceeded) <== Position(old(rvec.items), context).None? && |old(rvec.items)| == WIDTH
    {
      var res := Tracking.GetOrCreateLocationIndex(rvec, context, alloc, Shapes.MemSize(elemSize, capacity));
      if res.Err? {
        return Err(ErrorOf(res.error));
      }
      return Ok(res.value);
    }
  }

  /** A fresh tensor cannot be read, and neither can one whose only copy was
      written and then dropped: the flags are empty again. */
  method UninitializedReads(shape: seq<nat>, elemSize: nat, context: Device, alloc: Allocator<Failure>,
                            synchRead: Route<Failure>, synchWrite: Route<Failure>)
    returns (first: Result<nat, Failure>, second: Result<nat, Failure>, last: Result<nat, Failure>)
    requires alloc(context, Shapes.MemSize(elemSize, Shapes.Product(shape))).Ok?
    ensures first.Err? && first.error.kind == UninitializedMemory
    ensures second.Err? && second.error.kind == UninitializedMemory
    ensures last.Err? && last.error.kind == UninitializedMemory
  {
    var tensor := new SharedTensor.From(shape, elemSize);
    first := tensor.Read(context, alloc, synchRead, synchWrite);
    second := tensor.ReadWrite(context, alloc, synchRead, synchWrite);
    var written := tensor.WriteOnly(context, alloc);
    assert written == Ok(0);
    DropLastLatest(tensor.View(), context);
    var dropped := tensor.DropContext(context);
    last := tensor.Read(context, alloc, synchRead, synchWrite);
  }
}
