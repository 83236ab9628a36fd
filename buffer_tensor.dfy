/** The `Tensor` of `src_/tensor.rs`: copies kept in `Buffers` with a `U64Map`
    version. A transfer runs the source device's `synch_out` and then the
    destination device's `synch_in`; an error from either ends it. */
module BufferTensor {
  import opened Wrappers
  import opened Bits
  import opened Coherence
  import opened Locations
  import opened VersionMaps
  import opened ErrorCore
  import opened SrcError
  import Tracking
  import DeviceTensor
  import Shapes

  type Failure = ErrorCore.Error<ErrorKind>

  class Tensor {
    var rank: nat
    var capacity: nat
    var shape: seq<nat>
    /** `size_of::<T>()` of the element type. */
    const elemSize: nat
    const buffers: CopyList
    const version: VersionMap

    /** `mem_size`: the bytes of `capacity` elements of `elemSize` bytes each. */
    function MemSize(): nat
      reads this
    {
      elemSize * capacity
    }

    ghost function View(): State
      reads this, buffers, version
    {
      Tracking.ViewOf(buffers, version)
    }

    ghost predicate Valid()
      reads this, buffers, version
    {
      Aligned(View())
    }

    /** `From<A: AsRef<[usize]>>`: a tensor of the given shape with no memory yet. */
    constructor From(shape: seq<nat>, elemSize: nat)
      ensures rank == |shape| && capacity == Shapes.Product(shape) && this.shape == shape
      ensures this.elemSize == elemSize
      ensures View() == State([], 0) && Valid()
      ensures fresh(buffers) && fresh(version)
    {
      rank := |shape|;
      capacity := Shapes.Product(shape);
      this.shape := shape;
      this.elemSize := elemSize;
      buffers := new CopyList();
      version := new VersionMap();
    }

    /** `read`: the memory on `device`, brought up to date and flagged as up to
        date next to the copies that already were. */
    method Read(device: Device, alloc: Allocator<Failure>, synchOut: Route<Failure>, synchIn: Route<Failure>)
      returns (r: Result<nat, Failure>)
      requires Valid()
      modifies buffers, version
      ensures Valid()
      ensures var step := Access(old(View()), device, Mode.Read, alloc, MemSize(), Sequential(synchOut, synchIn));
        View() == step.state && r == Report(step.result, DeviceTensor.ErrorOf)
      ensures old(version.bits) == 0 ==> r == Err(FromKind(UninitializedMemory)) && View() == old(View())
      ensures r.Ok? ==> forall j: nat :: Bit(version.bits, j) <==> Bit(old(version.bits), j) || j == r.value
    {
      var res := Tracking.AccessCopy(buffers, version, device, Mode.Read, alloc, MemSize(), Sequential(synchOut, synchIn));
      r := Report(res, DeviceTensor.ErrorOf);
    }

    /** `read_write`: the memory on `device`, brought up to date and flagged as
        the only up-to-date copy. */
    method ReadWrite(device: Device, alloc: Allocator<Failure>, synchOut: Route<Failure>, synchIn: Route<Failure>)
      returns (r: Result<nat, Failure>)
      requires Valid()
      modifies buffers, version
      ensures Valid()
      ensures var step := Access(old(View()), device, Mode.ReadWrite, alloc, MemSize(), Sequential(synchOut, synchIn));
        View() == step.state && r == Report(step.result, DeviceTensor.ErrorOf)
      ensures old(version.bits) == 0 ==> r == Err(FromKind(UninitializedMemory)) && View() == old(View())
      ensures r.Ok? ==> forall j: nat :: Bit(version.bits, j) <==> j == r.value
    {
      var res := Tracking.AccessCopy(buffers, version, device, Mode.ReadWrite, alloc, MemSize(), Sequential(synchOut, synchIn));
      r := Report(res, DeviceTensor.ErrorOf);
    }

    /** `write_only`: the memory on `device` without initialisation check or
        transfer, flagged as the only up-to-date copy. */
    method WriteOnly(device: Device, alloc: Allocator<Failure>)
      returns (r: Result<nat, Failure>)
      requires Valid()
      modifies buffers, version
      ensures Valid()
      ensures var step := Access(old(View()), device, Mode.WriteOnly, alloc, MemSize(), NeverRoutes);
        View() == step.state && r == Report(step.result, DeviceTensor.ErrorOf)
      ensures r.Ok? ==> forall j: nat :: Bit(version.bits, j) <==> j == r.value
      ensures r.Ok? ==> buffers.items[r.value].device == device
    {
      var res := Tracking.AccessCopy(buffers, version, device, Mode.WriteOnly, alloc, MemSize(), NeverRoutes);
      r := Report(res, DeviceTensor.ErrorOf);
    }

    /** `drop_device`: remove the memory on `device` and close the gap in the
        flags, or report that there is none. */
    method DropDevice(device: Device) returns (r: Result<(), Failure>)
      requires Valid()
      modifies buffers, version
      ensures Valid()
      ensures r.Ok? <==> Position(old(buffers.items), device).Some?
      ensures r.Ok? ==> View() == Drop(old(View()), device).value
      ensures r.Err? ==> r.error == FromKind(AllocatedMemoryNotFoundForDevice) && View() == old(View())
    {
      var dropped := Tracking.DropCopy(buffers, version, device);
      if dropped.None? {
        return Err(FromKind(AllocatedMemoryNotFoundForDevice));
      }
      return Ok(());
    }

    /** `sync_if_needed`: bring copy `dst` up to date from the lowest-numbered
        up-to-date copy unless it already is. */
    method SyncIfNeeded(dst: nat, synchOut: Route<Failure>, synchIn: Route<Failure>) returns (r: Result<(), Failure>)
      requires Valid() && version.bits != 0 && dst < |buffers.items|
      modifies buffers
      ensures Valid()
      ensures var expected := Coherence.SyncIfNeeded(old(View()), dst, Sequential(synchOut, synchIn));
        (r.Ok? <==> expected.Ok?) &&
        (r.Ok? ==> View() == expected.value) &&
        (r.Err? ==> r.error == DeviceTensor.ErrorOf(expected.error) && View() == old(View()))
    {
      var res := Tracking.Synchronize(buffers, version, dst, Sequential(synchOut, synchIn));
      if res.Err? {
        return Err(DeviceTensor.ErrorOf(res.error));
      }
      return Ok(());
    }

    /** `get_location_index`: the first copy on `device`. */
    method GetLocationIndex(device: Device) returns (r: Option<nat>)
      ensures r == Position(buffers.items, device)
    {
      r := Tracking.Locate(buffers, device);
    }

    /** `get_or_create_location_index`: the copy on `device`, or a new one of
        `mem_size()` bytes appended unless 64 exist. */
    method GetOrCreateLocationIndex(device: Device, alloc: Allocator<Failure>) returns (r: Result<nat, Failure>)
      requires Valid()
      modifies buffers
      ensures Valid()
      ensures var expected := GetOrCreate(old(buffers.items), device, alloc, MemSize());
        (r.Ok? <==> expected.Ok?) &&
        (r.Ok? ==> r.value == expected.value.index && buffers.items == expected.value.copies) &&
        (r.Err? ==> r.error == DeviceTensor.ErrorOf(expected.error) && buffers.items == old(buffers.items))
      ensures r.Err? && r.error == FromKind(BitMapCapacityExceeded) <== Position(old(buffers.items), device).None? && |old(buffers.items)| == WIDTH
    {
      var res := Tracking.GetOrCreateLocationIndex(buffers, device, alloc, MemSize());
      if res.Err? {
        return Err(DeviceTensor.ErrorOf(res.error));
      }
      return Ok(res.value);
    }
  }

}
