/** The shared tensor of `src1/tensor/mod.rs`: a `TensorShape`, a list of
    copies (device and memory) and a `u64Map` of versions. A transfer asks the
    source device to `read` into the destination; only when it has no route does
    the destination device `write` from the source. The error kinds are those of
    `src2/error.rs`, the closest error module to this version. */
module CopyTensor {
  import opened Wrappers
  import opened Bits
  import opened Coherence
  import opened Locations
  import opened VersionMaps
  import opened ErrorCore
  import opened Src2Error
  import opened TensorShapes
  import Tracking
  import ChunkTensor
  import opened HostWrites

  type Failure = ErrorCore.Error<ErrorKind>

  /** Whether `write_to_memory_offset` as written gets past its shape check and
      through its writes without indexing out of bounds: the data must fill the
      whole capacity, and unless there are no data at all (then nothing is
      written) the last index plus the offset must stay inside the host memory,
      which holds `capacity` elements. */
  predicate OffsetWriteFits(capacity: nat, length: nat, offset: nat)
  {
    length == capacity && WithinBuffer(capacity, offset, length)
  }

  /** Whether the corrected write accepts `length` elements at `offset`. */
  predicate OverlayFits(capacity: nat, length: nat, offset: nat)
  {
    WithinBuffer(capacity, offset, length)
  }

  /** As written, no call that writes anything at a nonzero offset can succeed;
      empty data pass at any offset (capacity 0), and the corrected check
      accepts every slice that fits, such as two elements at offset 2 of four. */
  lemma OffsetNeverFits(capacity: nat, length: nat, offset: nat)
    ensures OffsetWriteFits(capacity, length, offset) ==> offset == 0 || length == 0
    ensures OffsetWriteFits(capacity, length, offset) ==> OverlayFits(capacity, length, offset)
    ensures OffsetWriteFits(0, 0, offset)
    ensures !OffsetWriteFits(4, 2, 2) && OverlayFits(4, 2, 2)
    ensures !OffsetWriteFits(4, 4, 1)
  {
  }

  class SharedTensor {
    var shape: TensorShape
    const copies: CopyList
    const versions: VersionMap

    ghost function View(): State
      reads this, copies, versions
    {
      Tracking.ViewOf(copies, versions)
    }

    ghost predicate Valid()
      reads this, copies, versions
    {
      Aligned(View())
    }

    /** `new`: a tensor of the given shape with no copy yet. */
    constructor New(shape: TensorShape)
      ensures this.shape == shape && View() == State([], 0) && Valid()
      ensures fresh(copies) && fresh(versions)
    {
      this.shape := shape;
      copies := new CopyList();
      versions := new VersionMap();
    }

    /** A tensor holding the single copy `c`, marked up to date (`u64Map::with(1)`). */
    constructor Holding(shape: TensorShape, c: Copy)
      ensures this.shape == shape && View() == State([c], 1) && Valid()
      ensures fresh(copies) && fresh(versions)
    {
      this.shape := shape;
      var list := new CopyList();
      list.Push(c);
      copies := list;
      versions := new VersionMap.With(1);
      new;
      forall j: nat ensures Bit(1, j) ==> j < 1 { BitPow2(0, j); }
    }

    /** `with`: check the data against the shape, then let `device` allocate
        memory holding it; the result holds that one copy, up to date. */
    static method With(device: Device, shape: TensorShape, chunk: seq<int>,
                       allocwrite: (Device, seq<int>) -> Result<seq<int>, Failure>)
      returns (r: Result<SharedTensor, Failure>)
      ensures |chunk| != shape.capacity ==> r == Err(FromKind(IncompatibleShape))
      ensures r.Ok? <==> |chunk| == shape.capacity && allocwrite(device, chunk).Ok?
      ensures r.Err? && |chunk| == shape.capacity ==> r.error == allocwrite(device, chunk).error
      ensures r.Ok? ==> (fresh(r.value) && r.value.shape == shape && r.value.Valid() &&
        r.value.View() == State([Copy(device, allocwrite(device, chunk).value)], 1))
    {
      var checked := ChunkTensor.CheckShape(shape, chunk);
      if checked.Err? {
        return Err(checked.error);
      }
      var buffer := allocwrite(device, chunk);
      if buffer.Err? {
        return Err(buffer.error);
      }
      var tensor := new SharedTensor.Holding(shape, Copy(device, buffer.value));
      return Ok(tensor);
    }

    /** `alloc`: memory for the shape on `device`, held as the one copy and
        marked up to date although nothing was written. */
    static method Alloc(device: Device, shape: TensorShape, alloc: Allocator<Failure>)
      returns (r: Result<SharedTensor, Failure>)
      ensures r.Ok? <==> alloc(device, shape.capacity).Ok?
      ensures r.Err? ==> r.error == alloc(device, shape.capacity).error
      ensures r.Ok? ==> (fresh(r.value) && r.value.shape == shape && r.value.Valid() &&
        r.value.View() == State([Copy(device, alloc(device, shape.capacity).value)], 1))
    {
      var buffer := alloc(device, shape.capacity);
      if buffer.Err? {
        return Err(buffer.error);
      }
      var tensor := new SharedTensor.Holding(shape, Copy(device, buffer.value));
      return Ok(tensor);
    }

    /** `dealloc`: remove the copy on `device`, close the gap in the versions
        and hand the memory back, or report that there is none. */
    method Dealloc(device: Device) returns (r: Result<seq<int>, Failure>)
      requires Valid()
      modifies copies, versions
      ensures Valid()
      ensures r.Ok? <==> Position(old(copies.items), device).Some?
      ensures r.Ok? ==> (View() == Drop(old(View()), device).value &&
        r.value == old(copies.items)[Position(old(copies.items), device).value].data)
      ensures r.Err? ==> r.error == FromKind(AllocatedMemoryNotFoundForDevice) && View() == old(View())
    {
      var dropped := Tracking.DropCopy(copies, versions, device);
      if dropped.None? {
        return Err(FromKind(AllocatedMemoryNotFoundForDevice));
      }
      return Ok(dropped.value.data);
    }

    /** `realloc`: drop every copy, clear the versions and take the new shape. */
    method Realloc(shape: TensorShape)
      modifies this, copies, versions
      ensures this.shape == shape && View() == State([], 0) && Valid()
    {
      this.shape := shape;
      Tracking.Reset(copies, versions);
      assert Aligned(State([], 0)) by { ZeroHasNoBits(0); }
    }

    /** `reshape`: take the new shape only when its capacity is the current one. */
    method Reshape(shape: TensorShape) returns (r: Result<(), Failure>)
      modifies this
      ensures r.Ok? <==> shape.capacity == old(this.shape.capacity)
      ensures r.Ok? ==> this.shape == shape
      ensures r.Err? ==> r.error == FromKind(InvalidReshapedTensorSize) && this.shape == old(this.shape)
    {
      if shape.Capacity() != this.shape.Capacity() {
        return Err(FromKind(InvalidReshapedTensorSize));
      }
      this.shape := shape;
      return Ok(());
    }

    /** `write_to_memory`: `write_to_memory_offset` at offset 0. */
    method WriteToMemory(data: seq<int>, alloc: Allocator<Failure>) returns (r: Result<(), Failure>)
      requires Valid() && Sized(copies.items, shape.capacity) && AllocSized(alloc, shape.capacity, shape.capacity)
      modifies copies, versions
      ensures Valid()
      ensures r.Ok? <==> |data| == shape.capacity && GetOrCreate(old(copies.items), HOST, alloc, shape.capacity).Ok?
      ensures |data| != shape.capacity ==> r == Err(FromKind(IncompatibleShape)) && View() == old(View())
      ensures r.Ok? ==> (Position(copies.items, HOST).Some? &&
        copies.items[Position(copies.items, HOST).value].data == data &&
        forall j: nat :: Bit(versions.bits, j) <==> j == Position(copies.items, HOST).value)
      ensures r.Ok? ==>
        var before := GetOrCreate(old(copies.items), HOST, alloc, shape.capacity).value;
        |copies.items| == |before.copies| && before.index == Position(copies.items, HOST).value &&
        copies.items[before.index].device == HOST &&
        forall k :: 0 <= k < |copies.items| && k != before.index ==> copies.items[k] == before.copies[k]
      ensures r.Err? && |data| == shape.capacity ==>
        r.error == ChunkTensor.ErrorOf(GetOrCreate(old(copies.items), HOST, alloc, shape.capacity).error) &&
        View() == old(View())
    {
      r := WriteToMemoryOffset(data, 0, alloc);
    }

    /** `write_to_memory_offset` as written: the data must be exactly as long as
        the capacity, and is then written from `offset` on into the host memory,
        which holds `capacity` elements; so the writes stay in bounds only when
        the offset is 0 or there are no data to write. */
    method WriteToMemoryOffset(data: seq<int>, offset: nat, alloc: Allocator<Failure>) returns (r: Result<(), Failure>)
      requires Valid() && Sized(copies.items, shape.capacity) && AllocSized(alloc, shape.capacity, shape.capacity)
      requires |data| == shape.capacity ==> OffsetWriteFits(shape.capacity, |data|, offset)
      modifies copies, versions
      ensures Valid()
      ensures r.Ok? <==> |data| == shape.capacity && GetOrCreate(old(copies.items), HOST, alloc, shape.capacity).Ok?
      ensures |data| != shape.capacity ==> r == Err(FromKind(IncompatibleShape)) && View() == old(View())
      ensures r.Ok? ==> (Position(copies.items, HOST).Some? &&
        copies.items[Position(copies.items, HOST).value].data == data &&
        forall j: nat :: Bit(versions.bits, j) <==> j == Position(copies.items, HOST).value)
      ensures r.Ok? ==>
        var before := GetOrCreate(old(copies.items), HOST, alloc, shape.capacity).value;
        |copies.items| == |before.copies| && before.index == Position(copies.items, HOST).value &&
        copies.items[before.index].device == HOST &&
        forall k :: 0 <= k < |copies.items| && k != before.index ==> copies.items[k] == before.copies[k]
      ensures r.Err? && |data| == shape.capacity ==>
        r.error == ChunkTensor.ErrorOf(GetOrCreate(old(copies.items), HOST, alloc, shape.capacity).error) &&
        View() == old(View())
    {
      var checked := ChunkTensor.CheckShape(shape, data);
      if checked.Err? {
        return Err(checked.error);
      }
      var written := Write(HOST, alloc);
      if written.Err? {
        return Err(written.error);
      }
      var i := written.value;
      label afterWrite:
      var buffer := copies.items[i].data;
      var filled := WriteAt(buffer, data, offset);
      copies.Overwrite(i, filled);
      assert filled == data;
      SameDevicesSamePosition(old@afterWrite(copies.items), copies.items, HOST);
      return Ok(());
    }

    /** The evidently intended `write_to_memory_offset`: accept any data that
        fits into the capacity from `offset` on (empty data at any offset, as
        the source does), and write it there into the host memory, keeping the
        elements around it. */
    method WriteToMemoryAt(data: seq<int>, offset: nat, alloc: Allocator<Failure>) returns (r: Result<(), Failure>)
      requires Valid() && Sized(copies.items, shape.capacity) && AllocSized(alloc, shape.capacity, shape.capacity)
      modifies copies, versions
      ensures Valid()
      ensures r.Ok? <==> OverlayFits(shape.capacity, |data|, offset) && GetOrCreate(old(copies.items), HOST, alloc, shape.capacity).Ok?
      ensures !OverlayFits(shape.capacity, |data|, offset) ==> r == Err(FromKind(IncompatibleShape)) && View() == old(View())
      ensures r.Ok? ==>
        var before := GetOrCreate(old(copies.items), HOST, alloc, shape.capacity).value;
        |copies.items| == |before.copies| && copies.items[before.index].device == HOST &&
        copies.items[before.index].data == Overlay(before.copies[before.index].data, offset, data) &&
        (forall k :: 0 <= k < |copies.items| && k != before.index ==> copies.items[k] == before.copies[k]) &&
        forall j: nat :: Bit(versions.bits, j) <==> j == before.index
    {
      if !OverlayFits(shape.capacity, |data|, offset) {
        return Err(FromKind(IncompatibleShape));
      }
      var written := Write(HOST, alloc);
      if written.Err? {
        return Err(written.error);
      }
      var i := written.value;
      var buffer := copies.items[i].data;
      var filled := WriteAt(buffer, data, offset);
      copies.Overwrite(i, filled);
      return Ok(());
    }

    /** `read`: `autosync` without tick. */
    method Read(device: Device, alloc: Allocator<Failure>, read: Route<Failure>, write: Route<Failure>)
      returns (r: Result<nat, Failure>)
      requires Valid()
      modifies copies, versions
      ensures Valid()
      ensures var step := Access(old(View()), device, Mode.Read, alloc, shape.capacity, Fallback(read, write));
        View() == step.state && r == Report(step.result, ChunkTensor.ErrorOf)
      ensures old(versions.bits) == 0 ==> r == Err(FromKind(UninitializedMemory)) && View() == old(View())
      ensures r.Ok? ==> forall j: nat :: Bit(versions.bits, j) <==> Bit(old(versions.bits), j) || j == r.value
    {
      r := Autosync(device, false, alloc, read, write);
    }

    /** `read_write`: `autosync` with tick. */
    method ReadWrite(device: Device, alloc: Allocator<Failure>, read: Route<Failure>, write: Route<Failure>)
      returns (r: Result<nat, Failure>)
      requires Valid()
      modifies copies, versions
      ensures Valid()
      ensures var step := Access(old(View()), device, Mode.ReadWrite, alloc, shape.capacity, Fallback(read, write));
        View() == step.state && r == Report(step.result, ChunkTensor.ErrorOf)
      ensures old(versions.bits) == 0 ==> r == Err(FromKind(UninitializedMemory)) && View() == old(View())
      ensures r.Ok? ==> forall j: nat :: Bit(versions.bits, j) <==> j == r.value
    {
      r := Autosync(device, true, alloc, read, write);
    }

    /** `write`: the copy on `device`, found or allocated, becomes the only
        up-to-date copy; nothing is checked or transferred. */
    method Write(device: Device, alloc: Allocator<Failure>) returns (r: Result<nat, Failure>)
      requires Valid()
      modifies copies, versions
      ensures Valid()
      ensures var expected := GetOrCreate(old(copies.items), device, alloc, shape.capacity);
        (r.Ok? <==> expected.Ok?) &&
        (r.Ok? ==> r.value == expected.value.index && copies.items == expected.value.copies &&
                   forall j: nat :: Bit(versions.bits, j) <==> j == r.value) &&
        (r.Err? ==> r.error == ChunkTensor.ErrorOf(expected.error) && View() == old(View()))
    {
      var found := Tracking.GetOrCreateLocationIndex(copies, device, alloc, shape.capacity);
      if found.Err? {
        return Err(ChunkTensor.ErrorOf(found.error));
      }
      var i := found.value;
      versions.Set(Shl1(i));
      return Ok(i);
    }

    /** `autosync`: refuse when no copy is up to date, find or allocate the copy
        on `device`, bring it up to date, then make it the only up-to-date copy
        (`tick`) or add it to the up-to-date ones. */
    method Autosync(device: Device, tick: bool, alloc: Allocator<Failure>, read: Route<Failure>, write: Route<Failure>)
      returns (r: Result<nat, Failure>)
      requires Valid()
      modifies copies, versions
      ensures Valid()
      ensures var step := Access(old(View()), device, if tick then Mode.ReadWrite else Mode.Read,
                                 alloc, shape.capacity, Fallback(read, write));
        View() == step.state && r == Report(step.result, ChunkTensor.ErrorOf)
    {
      var res := Tracking.AccessCopy(copies, versions, device, if tick then Mode.ReadWrite else Mode.Read,
                                     alloc, shape.capacity, Fallback(read, write));
      r := Report(res, ChunkTensor.ErrorOf);
    }

    /** `autosync_`: bring copy `destination` up to date from the lowest-numbered
        up-to-date copy, unless it already is. */
    method AutosyncTo(destination: nat, read: Route<Failure>, write: Route<Failure>) returns (r: Result<(), Failure>)
      requires Valid() && versions.bits != 0 && destination < |copies.items|
      modifies copies
      ensures Valid()
      ensures var expected := SyncIfNeeded(old(View()), destination, Fallback(read, write));
        (r.Ok? <==> expected.Ok?) &&
        (r.Ok? ==> View() == expected.value) &&
        (r.Err? ==> r.error == ChunkTensor.ErrorOf(expected.error) && View() == old(View()))
    {
      var res := Tracking.Synchronize(copies, versions, destination, Fallback(read, write));
      if res.Err? {
        return Err(ChunkTensor.ErrorOf(res.error));
      }
      return Ok(());
    }

    /** `get_location_index`: the first copy on `location`. */
    method GetLocationIndex(location: Device) returns (r: Option<nat>)
      ensures r == Position(copies.items, location)
    {
      r := Tracking.Locate(copies, location);
    }

    /** `get_or_create_location_index`: the copy on `device`, or a new one for
        the shape appended unless 64 exist. */
    method GetOrCreateLocationIndex(device: Device, alloc: Allocator<Failure>) returns (r: Result<nat, Failure>)
      requires Valid()
      modifies copies
      ensures Valid()
      ensures var expected := GetOrCreate(old(copies.items), device, alloc, shape.capacity);
        (r.Ok? <==> expected.Ok?) &&
        (r.Ok? ==> r.value == expected.value.index && copies.items == expected.value.copies) &&
        (r.Err? ==> r.error == ChunkTensor.ErrorOf(expected.error) && copies.items == old(copies.items))
    {
      var res := Tracking.GetOrCreateLocationIndex(copies, device, alloc, shape.capacity);
      if res.Err? {
        return Err(ChunkTensor.ErrorOf(res.error));
      }
      return Ok(res.value);
    }
  }
}
