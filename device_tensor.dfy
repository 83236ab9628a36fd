/** The shared tensor of `_src/shared/tensor.rs`: the protocol of
    `src/shared/tensor.rs` with copies keyed by device instead of context, and
    the error kinds of `src/error.rs`. */
module DeviceTensor {
  import opened Wrappers
  import opened Bits
  import opened Coherence
  import opened Locations
  import opened VersionMaps
  import opened ErrorCore
  import opened SrcError
  import Tracking
  import Shapes

  type Failure = ErrorCore.Error<ErrorKind>

  /** The error each fault of the protocol is reported as: allocation and
      transfer failures pass the framework's error through. */
  function ErrorOf(f: Fault<Failure>): Failure
  {
    match f
    case Uninitialized => FromKind(UninitializedMemory)
    case CapacityExceeded => FromKind(BitMapCapacityExceeded)
    case AllocationFailed(e) => e
    case NoSyncRoute => FromKind(NoAvailableSynchronizationRouteFound)
    case SyncFailed(e) => e
  }

  class SharedTensor {
    var rank: nat
    var capacity: nat
    var shape: seq<nat>
    /** `size_of::<T>()` of the element type. */
    const elemSize: nat
    const rvec: CopyList
    const u64map: VersionMap

    ghost function View(): State
      reads this, rvec, u64map
    {
      Tracking.ViewOf(rvec, u64map)
    }

    ghost predicate Valid()
      reads this, rvec, u64map
    {
      Aligned(View())
    }

    /** `From<I: Into<Vec<usize>>>`: a tensor of the given shape with no memory yet. */
    constructor From(shape: seq<nat>, elemSize: nat)
      ensures rank == |shape| && capacity == Shapes.Product(shape) && this.shape == shape
      ensures this.elemSize == elemSize
      ensures View() == State([], 0) && Valid()
      ensures fresh(rvec) && fresh(u64map)
    {
      rank := |shape|;
      capacity := Shapes.Product(shape);
      this.shape := shape;
      this.elemSize := elemSize;
      rvec := new CopyList();
      u64map := new VersionMap();
    }

    /** `read`: the memory on `device`, brought up to date and flagged as up to
        date next to the copies that already were. */
    method Read(device: Device, alloc: Allocator<Failure>, synchRead: Route<Failure>, synchWrite: Route<Failure>)
      returns (r: Result<nat, Failure>)
      requires Valid()
      modifies rvec, u64map
      ensures Valid()
      ensures var step := Access(old(View()), device, Mode.Read, alloc, Shapes.MemSize(elemSize, capacity), Fallback(synchRead, synchWrite));
        View() == step.state && r == Report(step.result, ErrorOf)
      ensures old(u64map.bits) == 0 ==> r == Err(FromKind(UninitializedMemory)) && View() == old(View())
      ensures r.Ok? ==> forall j: nat :: Bit(u64map.bits, j) <==> Bit(old(u64map.bits), j) || j == r.value
    {
      var res := Tracking.AccessCopy(rvec, u64map, device, Mode.Read, alloc, Shapes.MemSize(elemSize, capacity), Fallback(synchRead, synchWrite));
      r := Report(res, ErrorOf);
    }

    /** `read_write`: the memory on `device`, brought up to date and flagged as
        the only up-to-date copy. */
    method ReadWrite(device: Device, alloc: Allocator<Failure>, synchRead: Route<Failure>, synchWrite: Route<Failure>)
      returns (r: Result<nat, Failure>)
      requires Valid()
      modifies rvec, u64map
      ensures Valid()
      ensures var step := Access(old(View()), device, Mode.ReadWrite, alloc, Shapes.MemSize(elemSize, capacity), Fallback(synchRead, synchWrite));
        View() == step.state && r == Report(step.result, ErrorOf)
      ensures old(u64map.bits) == 0 ==> r == Err(FromKind(UninitializedMemory)) && View() == old(View())
      ensures r.Ok? ==> forall j: nat :: Bit(u64map.bits, j) <==> j == r.value
    {
      var res := Tracking.AccessCopy(rvec, u64map, device, Mode.ReadWrite, alloc, Shapes.MemSize(elemSize, capacity), Fallback(synchRead, synchWrite));
      r := Report(res, ErrorOf);
    }

    /** `write_only`: the memory on `device` without initialisation check or
        transfer, flagged as the only up-to-date copy. */
    method WriteOnly(device: Device, alloc: Allocator<Failure>)
      returns (r: Result<nat, Failure>)
      requires Valid()
      modifies rvec, u64map
      ensures Valid()
      ensures var step := Access(old(View()), device, Mode.WriteOnly, alloc, Shapes.MemSize(elemSize, capacity), NeverRoutes);
        View() == step.state && r == Report(step.result, ErrorOf)
      ensures r.Ok? ==> forall j: nat :: Bit(u64map.bits, j) <==> j == r.value
      ensures r.Ok? ==> rvec.items[r.value].device == device
    {
      var res := Tracking.AccessCopy(rvec, u64map, device, Mode.WriteOnly, alloc, Shapes.MemSize(elemSize, capacity), NeverRoutes);
      r := Report(res, ErrorOf);
    }

    /** `drop_device`: remove the memory on `device` and close the gap in the
        flags, or report that there is none. */
    method DropDevice(device: Device) returns (r: Result<(), Failure>)
      requires Valid()
      modifies rvec, u64map
      ensures Valid()
      ensures r.Ok? <==> Position(old(rvec.items), device).Some?
      ensures r.Ok? ==> View() == Drop(old(View()), device).value
      ensures r.Err? ==> r.error == FromKind(AllocatedMemoryNotFoundForDevice) && View() == old(View())
    {
      var dropped := Tracking.DropCopy(rvec, u64map, device);
      if dropped.None? {
        return Err(FromKind(AllocatedMemoryNotFoundForDevice));
      }
      return Ok(());
    }

    /** `sync_if_needed`: bring copy `dst` up to date from the lowest-numbered
        up-to-date copy unless it already is. */
    method SyncIfNeeded(dst: nat, synchRead: Route<Failure>, synchWrite: Route<Failure>) returns (r: Result<(), Failure>)
      requires Valid() && u64map.bits != 0 && dst < |rvec.items|
      modifies rvec
      ensures Valid()
      ensures var expected := Coherence.SyncIfNeeded(old(View()), dst, Fallback(synchRead, synchWrite));
        (r.Ok? <==> expected.Ok?) &&
        (r.Ok? ==> View() == expected.value) &&
        (r.Err? ==> r.error == ErrorOf(expected.error) && View() == old(View()))
    {
      var res := Tracking.Synchronize(rvec, u64map, dst, Fallback(synchRead, synchWrite));
      if res.Err? {
        return Err(ErrorOf(res.error));
      }
      return Ok(());
    }

    /** `get_location_index`: the first copy on `device`. */
    method GetLocationIndex(device: Device) returns (r: Option<nat>)
      ensures r == Position(rvec.items, device)
    {
      r := Tracking.Locate(rvec, device);
    }

    /** `get_or_create_location_index`: the copy on `device`, or a new one of
        `mem_size(capacity)` bytes appended unless 64 exist. */
    method GetOrCreateLocationIndex(device: Device, alloc: Allocator<Failure>) returns (r: Result<nat, Failure>)
      requires Valid()
      modifies rvec
      ensures Valid()
      ensures var expected := GetOrCreate(old(rvec.items), device, alloc, Shapes.MemSize(elemSize, capacity));
        (r.Ok? <==> expected.Ok?) &&
        (r.Ok? ==> r.value == expected.value.index && rvec.items == expected.value.copies) &&
        (r.Err? ==> r.error == ErrorOf(expected.error) && rvec.items == old(rvec.items))
      ensures r.Err? && r.error == FromKind(BitMapCapacityExceeded) <== Position(old(rvec.items), device).None? && |old(rvec.items)| == WIDTH
    {
      var res := Tracking.GetOrCreateLocationIndex(rvec, device, alloc, Shapes.MemSize(elemSize, capacity));
      if res.Err? {
        return Err(ErrorOf(res.error));
      }
      return Ok(res.value);
    }
  }

}
