/** The shared tensor of `src/tensor.rs`: a `TensorShape`, boxed chunks and a
    `Bitmap` tracker of the chunks in sync. In this version allocating a new
    chunk and synchronizing an outdated one are not implemented (both panic),
    so an access succeeds only on a chunk that already exists and is in sync. */
module TrackedTensor {
  import opened Wrappers
  import opened Bits
  import opened Coherence
  import opened Locations
  import opened VersionMaps
  import opened ErrorCore
  import opened TensorError
  import opened TensorShapes
  import Tracking

  /** Whether `autosync` on `device` ends without reaching the unimplemented
      allocation or synchronization: no chunk is in sync, or the chunk on
      `device` exists and is in sync, or there is none and the tracker is full. */
  predicate Reachable(copies: seq<Copy>, upToDate: u64, device: Device)
  {
    upToDate == 0 ||
    match Position(copies, device)
    case Some(i) => Bit(upToDate, i)
    case None => |copies| == WIDTH
  }

  class SharedTensor {
    var shape: TensorShape
    const chunks: CopyList
    const tracker: VersionMap

    ghost function View(): State
      reads this, chunks, tracker
    {
      Tracking.ViewOf(chunks, tracker)
    }

    ghost predicate Valid()
      reads this, chunks, tracker
    {
      Aligned(View())
    }

    /** `new`: a tensor of the given shape with no chunk. */
    constructor New(shape: TensorShape)
      ensures this.shape == shape && View() == State([], 0) && Valid()
      ensures fresh(chunks) && fresh(tracker)
    {
      this.shape := shape;
      chunks := new CopyList();
      tracker := new VersionMap();
    }

    /** `reshape`: take the new shape only when its capacity is the current one. */
    method Reshape(shape: TensorShape) returns (r: Result<(), Failure>)
      modifies this
      ensures r.Ok? <==> shape.capacity == old(this.shape.capacity)
      ensures r.Ok? ==> this.shape == shape
      ensures r.Err? ==> r.error == FromKind(InvalidReshapedTensorSize) && this.shape == old(this.shape)
    {
      if shape.Capacity() != this.shape.Capacity() {
        return Err(FromKind(InvalidReshapedTensorSize));
      }
      this.shape := shape;
      return Ok(());
    }

    /** `realloc`: drop every chunk, clear the tracker and take the new shape. */
    method Realloc(shape: TensorShape)
      modifies this, chunks, tracker
      ensures this.shape == shape && View() == State([], 0) && Valid()
    {
      Tracking.Reset(chunks, tracker);
      this.shape := shape;
      assert Aligned(State([], 0)) by { ZeroHasNoBits(0); }
    }

    /** `dealloc`: remove the chunk on `device`, close the gap in the tracker
        and hand the chunk back, or report that there is none. */
    method Dealloc(device: Device) returns (r: Result<Copy, Failure>)
      requires Valid()
      modifies chunks, tracker
      ensures Valid()
      ensures r.Ok? <==> Coherence.Position(old(chunks.items), device).Some?
      ensures r.Ok? ==> (View() == Drop(old(View()), device).value &&
        r.value == old(chunks.items)[Coherence.Position(old(chunks.items), device).value])
      ensures r.Err? ==> r.error == FromKind(AllocatedMemoryNotFoundForDevice) && View() == old(View())
    {
      var dropped := Tracking.DropCopy(chunks, tracker, device);
      if dropped.None? {
        return Err(FromKind(AllocatedMemoryNotFoundForDevice));
      }
      return Ok(dropped.value);
    }

    /** `read`: `autosync` on `device` for reading. */
    method Read(device: Device) returns (r: Result<nat, Failure>)
      requires Valid() && Reachable(chunks.items, tracker.bits, device)
      modifies tracker
      ensures Valid() && chunks.items == old(chunks.items)
      ensures old(tracker.bits) == 0 ==> r == Err(FromKind(UninitializedMemory))
      ensures old(tracker.bits) != 0 ==> r == Report(Found(old(View()), device), ErrorOf)
      ensures tracker.bits == old(tracker.bits)
    {
      r := Autosync(device, false);
    }

    /** `autosync`: refuse when no chunk is in sync; otherwise take the chunk
        on `device` (which must be in sync here) and make it the only chunk in
        sync (`writing`) or keep it among those in sync. */
    method Autosync(device: Device, writing: bool) returns (r: Result<nat, Failure>)
      requires Valid() && Reachable(chunks.items, tracker.bits, device)
      modifies tracker
      ensures Valid() && chunks.items == old(chunks.items)
      ensures old(tracker.bits) == 0 ==> r == Err(FromKind(UninitializedMemory)) && tracker.bits == 0
      ensures old(tracker.bits) != 0 ==> r == Report(Found(old(View()), device), ErrorOf)
      ensures r.Err? || !writing ==> tracker.bits == old(tracker.bits)
      ensures r.Ok? && writing ==> forall j: nat :: Bit(tracker.bits, j) <==> j == r.value
    {
      var empty := tracker.Empty();
      if empty {
        return Err(FromKind(UninitializedMemory));
      }
      var found := GetOrCreate(device);
      if found.Err? {
        return Err(found.error);
      }
      var i := found.value;
      var outOfSync := OutOfSync(i);
      if outOfSync {
        assert false;
      }
      if writing {
        tracker.Set(Shl1(i));
      } else {
        tracker.Insert(i);
        InsertPresent(old(tracker.bits), i);
      }
      return Ok(i);
    }

    /** `out_of_sync`: whether chunk `index` is not flagged in sync. */
    method OutOfSync(index: nat) returns (r: bool)
      ensures r <==> !(index < WIDTH && Bit(tracker.bits, index))
    {
      var contained := tracker.Contains(index);
      r := !contained;
    }

    /** `get_or_create`: the chunk on `device`, or `BitmapCapacityExceeded`
        when there is none and the tracker is full; allocating a new chunk is
        not implemented, so a missing chunk below capacity is excluded. */
    method GetOrCreate(device: Device) returns (r: Result<nat, Failure>)
      requires Valid()
      requires Coherence.Position(chunks.items, device).Some? || |chunks.items| == WIDTH
      ensures r == Report(Found(View(), device), ErrorOf)
    {
      var found := Position(device);
      if found.Some? {
        return Ok(found.value);
      }
      var n := chunks.Len();
      assert n == WIDTH;
      return Err(FromKind(BitmapCapacityExceeded));
    }

    /** `position`: the first chunk located on `device`. */
    method Position(device: Device) returns (r: Option<nat>)
      ensures r == Coherence.Position(chunks.items, device)
    {
      r := Tracking.Locate(chunks, device);
    }
  }

  /** The error each fault is reported as. */
  function ErrorOf(f: Fault<Failure>): Failure
  {
    match f
    case Uninitialized => FromKind(UninitializedMemory)
    case CapacityExceeded => FromKind(BitmapCapacityExceeded)
    case AllocationFailed(e) => e
    case NoSyncRoute => FromKind(NoAvailableSynchronizationRouteFound)
    case SyncFailed(e) => e
  }

  /** The chunk on `device` when there is one, else the capacity fault; this
      version never allocates. */
  function Found(s: State, device: Device): (r: Result<nat, Fault<Failure>>)
    ensures r.Ok? <==> Position(s.copies, device).Some?
    ensures r.Ok? ==> r.value < |s.copies| && s.copies[r.value].device == device
    ensures r.Err? ==> r.error == Fault.CapacityExceeded
  {
    match Position(s.copies, device)
    case Some(i) => Ok(i)
    case None => Err(Fault.CapacityExceeded)
  }

  /** Whenever this version's `autosync` returns, it agrees with the full
      access protocol, whatever allocator and transfer route that protocol were
      given: neither is ever consulted, no chunk changes, and the result is the
      chunk on `device` or the capacity fault. */
  lemma ReachableAccess(s: State, device: Device, mode: Mode, alloc: Allocator<Failure>, size: nat, route: Route<Failure>)
    requires Aligned(s) && mode != WriteOnly && Reachable(s.copies, s.upToDate, device)
    ensures var step := Access(s, device, mode, alloc, size, route);
      step.state.copies == s.copies &&
      (s.upToDate != 0 ==> step.result == Found(s, device))
  {
    if s.upToDate != 0 {
      match Position(s.copies, device)
      case Some(i) =>
        assert GetOrCreate(s.copies, device, alloc, size) == Ok(Located(s.copies, i));
        assert SyncIfNeeded(s, i, route) == Ok(s);
      case None =>
    }
  }

  /** Inserting a flag that is already set changes nothing. */
  lemma InsertPresent(v: u64, k: nat)
    requires k < WIDTH && Bit(v, k)
    ensures Bits.Insert(v, k) == v
  {
    BitsDetermine(Bits.Insert(v, k), v);
  }
}
