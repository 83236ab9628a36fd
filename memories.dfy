/** The transfer defaults and runtime downcasts of `src/memory.rs`,
    `src2/memory.rs` and `src/device.rs`.

    A boxed memory, chunk or device is a value carrying the identity of its
    concrete type (its `TypeId`); a downcast compares that identity with the
    requested one. */
module Memories {
  import opened Wrappers
  import opened Bits
  import opened Coherence
  import opened ErrorCore
  import SrcError
  import Src2Error

  /** The identity of a concrete type behind a trait object. */
  type TypeId = nat

  /** A trait object: the concrete type's identity and the value. */
  datatype Boxed<T> = Boxed(typeId: TypeId, value: T)

  /** `is::<M>()`: whether the boxed value's type is `want`. */
  predicate Is<T>(b: Boxed<T>, want: TypeId)
  {
    b.typeId == want
  }

  /** `downcast_ref::<M>()` (and `downcast_mut`): the value when its type is
      `want`, else nothing. */
  function Downcast<T>(b: Boxed<T>, want: TypeId): (r: Option<T>)
    ensures r.Some? <==> Is(b, want)
    ensures r.Some? ==> r.value == b.value
  {
    if b.typeId == want then Some(b.value) else None
  }

  /** A downcast to the type a value was boxed with gives the value back, and a
      downcast to any other type gives nothing. */
  lemma DowncastRoundTrip<T>(v: T, t: TypeId, u: TypeId)
    ensures Downcast(Boxed(t, v), t) == Some(v)
    ensures u != t ==> Downcast(Boxed(t, v), u).None?
  {
  }

  // ---------------------------------------------------------------------------
  // src/memory.rs and src2/memory.rs: the defaults of a memory that does not
  // override them.

  datatype TransferDirection = TransferIn | TransferOut

  type SrcFailure = ErrorCore.Error<SrcError.ErrorKind>
  type Src2Failure = ErrorCore.Error<Src2Error.ErrorKind>

  /** `Memory::transfer`, default: no route, whatever the direction. */
  function DefaultTransfer(direction: TransferDirection, other: Device): (r: Result<(), SrcFailure>)
    ensures r.Err? && r.error.kind == SrcError.NoAvailableSynchronizationRouteFound && r.error.payload.None?
  {
    Err(FromKind(SrcError.NoAvailableSynchronizationRouteFound))
  }

  /** `Memory::synchronized`, default: never on the device. */
  predicate DefaultSynchronized(device: Device)
  {
    false
  }

  /** `Synch::syncable`, default: no device can be reached. */
  predicate DefaultSyncable(source: Device, destination: Device)
  {
    false
  }

  /** `Chunk::located_on`, default: located on no device. */
  predicate DefaultLocatedOn(device: Device)
  {
    false
  }

  /** `Synch::synchronize_in` and `synchronize_out`, default: a transfer that
      resolves to no route. */
  function DefaultSynchronize(source: Device, destination: Device): (r: Result<(), Src2Failure>)
    ensures r.Err? && r.error.kind == Src2Error.NoAvailableSynchronizationRouteFound && r.error.payload.None?
  {
    Err(FromKind(Src2Error.NoAvailableSynchronizationRouteFound))
  }

  /** A transfer's result as the coherence protocol sees it: the no-route kind
      is `NoRoute`, every other error is a failure. */
  function SrcOutcome(r: Result<(), SrcFailure>): (o: Outcome<SrcFailure>)
    ensures o.Done? <==> r.Ok?
    ensures o.NoRoute? <==> r.Err? && r.error.kind == SrcError.NoAvailableSynchronizationRouteFound
  {
    if r.Ok? then Done
    else if r.error.kind == SrcError.NoAvailableSynchronizationRouteFound then NoRoute
    else Failed(r.error)
  }

  function Src2Outcome(r: Result<(), Src2Failure>): (o: Outcome<Src2Failure>)
    ensures o.Done? <==> r.Ok?
    ensures o.NoRoute? <==> r.Err? && r.error.kind == Src2Error.NoAvailableSynchronizationRouteFound
  {
    if r.Ok? then Done
    else if r.error.kind == Src2Error.NoAvailableSynchronizationRouteFound then NoRoute
    else Failed(r.error)
  }

  /** The default transfer as a route: the source's `TransferOut` towards the
      destination, or the destination's `TransferIn` from the source. */
  function DefaultOut(src: Device, dst: Device): Outcome<SrcFailure>
  {
    SrcOutcome(DefaultTransfer(TransferOut, dst))
  }

  function DefaultIn(dst: Device, src: Device): Outcome<SrcFailure>
  {
    SrcOutcome(DefaultTransfer(TransferIn, src))
  }

  function DefaultSynchOut(src: Device, dst: Device): Outcome<Src2Failure>
  {
    Src2Outcome(DefaultSynchronize(src, dst))
  }

  function DefaultSynchIn(dst: Device, src: Device): Outcome<Src2Failure>
  {
    Src2Outcome(DefaultSynchronize(src, dst))
  }

  /** A tensor whose memories all keep the default transfers never brings a
      stale copy up to date: the retry in the opposite direction meets the
      same default, and the synchronization ends with no route. */
  lemma DefaultsNeverSync(s: State, dst: nat)
    requires Aligned(s) && s.upToDate != 0 && dst < |s.copies| && !Bit(s.upToDate, dst)
    ensures SyncIfNeeded(s, dst, Fallback(DefaultOut, DefaultIn)) == Err(NoSyncRoute)
  {
    SyncSource(s, dst);
    var src := s.copies[TrailingZeros(s.upToDate)].device;
    var dev := s.copies[dst].device;
    assert DefaultOut(src, dev) == NoRoute && DefaultIn(dev, src) == NoRoute;
    assert Fallback(DefaultOut, DefaultIn)(src, dev) == NoRoute;
  }

  /** The same for chunks that keep the default `syncable`: neither direction
      is asked, and the synchronization ends with no route. */
  lemma DefaultSyncableNeverSyncs(s: State, dst: nat)
    requires Aligned(s) && s.upToDate != 0 && dst < |s.copies| && !Bit(s.upToDate, dst)
    ensures SyncIfNeeded(s, dst, Syncable(DefaultSyncable, DefaultSynchOut, DefaultSynchIn)) == Err(NoSyncRoute)
  {
    SyncSource(s, dst);
    var src := s.copies[TrailingZeros(s.upToDate)].device;
    var dev := s.copies[dst].device;
    assert Syncable(DefaultSyncable, DefaultSynchOut, DefaultSynchIn)(src, dev) == NoRoute;
  }

  // ---------------------------------------------------------------------------
  // src/device.rs: the object-safe device's dispatch of a transfer action.

  /** A transfer to run on a device: write into `memory` from a native source,
      or read `memory` out into a native destination. */
  datatype Action =
    | Write(memory: Boxed<seq<int>>, sourceDevice: Boxed<Device>, sourceMemory: Boxed<seq<int>>)
    | Read(memory: Boxed<seq<int>>, destnDevice: Boxed<Device>, destnMemory: Boxed<seq<int>>)

  /** A device of framework `name` whose memory type is `memoryType`; native
      devices and native memories have the identities `nativeDevice` and
      `nativeMemory`. `synchIn` yields the device memory's new contents from a
      native source, `synchOut` the native destination's new contents; both
      may fail with the framework's own error. */
  datatype DeviceImpl = DeviceImpl(
    name: string,
    memoryType: TypeId,
    nativeDevice: TypeId,
    nativeMemory: TypeId,
    allocate: nat -> Result<seq<int>, Payload>,
    synchIn: (seq<int>, Device, seq<int>) -> Result<seq<int>, Payload>,
    synchOut: (seq<int>, Device, seq<int>) -> Result<seq<int>, Payload>)

  /** `Error::from_framework`: a framework's error, under the framework's name. */
  function FromFramework(name: string, error: Payload): (e: SrcFailure)
    ensures e.kind == SrcError.Framework(name) && e.payload == Some(error)
  {
    New(SrcError.Framework(name), error)
  }

  /** `alloc`: the device's allocation, boxed with its memory type, or its
      error under the framework's name. */
  function Alloc(v: DeviceImpl, size: nat): (r: Result<Boxed<seq<int>>, SrcFailure>)
    ensures r.Ok? <==> v.allocate(size).Ok?
    ensures r.Ok? ==> Downcast(r.value, v.memoryType) == Some(v.allocate(size).value)
    ensures r.Err? ==> r.error == FromFramework(v.name, v.allocate(size).error)
  {
    match v.allocate(size)
    case Ok(m) => Ok(Boxed(v.memoryType, m))
    case Err(e) => Err(FromFramework(v.name, e))
  }

  /** Whether every part of `action` has the type the device expects. */
  predicate Dispatchable(v: DeviceImpl, action: Action)
  {
    match action
    case Write(m, sd, sm) => Is(m, v.memoryType) && Is(sd, v.nativeDevice) && Is(sm, v.nativeMemory)
    case Read(m, dd, dm) => Is(m, v.memoryType) && Is(dd, v.nativeDevice) && Is(dm, v.nativeMemory)
  }

  /** `synch`: run `synch_in` for a write and `synch_out` for a read when all
      three parts downcast; the result is the new contents of the memory the
      action writes (the device memory for a write, the native destination for
      a read). Any part of another type means no route. */
  function Synch(v: DeviceImpl, action: Action): (r: Result<seq<int>, SrcFailure>)
    ensures !Dispatchable(v, action) ==> r == Err(FromKind(SrcError.NoAvailableSynchronizationRouteFound))
    ensures Dispatchable(v, action) && action.Write? ==>
      var done := v.synchIn(action.memory.value, action.sourceDevice.value, action.sourceMemory.value);
      (r.Ok? <==> done.Ok?) &&
      (r.Ok? ==> r.value == done.value) &&
      (r.Err? ==> r.error == FromFramework(v.name, done.error))
    ensures Dispatchable(v, action) && action.Read? ==>
      var done := v.synchOut(action.memory.value, action.destnDevice.value, action.destnMemory.value);
      (r.Ok? <==> done.Ok?) &&
      (r.Ok? ==> r.value == done.value) &&
      (r.Err? ==> r.error == FromFramework(v.name, done.error))
    ensures r.Err? && r.error.kind == SrcError.NoAvailableSynchronizationRouteFound ==> !Dispatchable(v, action)
  {
    match action
    case Write(m, sd, sm) =>
      (match (Downcast(m, v.memoryType), Downcast(sd, v.nativeDevice), Downcast(sm, v.nativeMemory))
      case (Some(memory), Some(sourceDevice), Some(sourceMemory)) =>
        (match v.synchIn(memory, sourceDevice, sourceMemory)
         case Ok(contents) => Ok(contents)
         case Err(e) => Err(FromFramework(v.name, e)))
      case _ => Err(FromKind(SrcError.NoAvailableSynchronizationRouteFound)))
    case Read(m, dd, dm) =>
      match (Downcast(m, v.memoryType), Downcast(dd, v.nativeDevice), Downcast(dm, v.nativeMemory))
      case (Some(memory), Some(destnDevice), Some(destnMemory)) =>
        (match v.synchOut(memory, destnDevice, destnMemory)
         case Ok(contents) => Ok(contents)
         case Err(e) => Err(FromFramework(v.name, e)))
      case _ => Err(FromKind(SrcError.NoAvailableSynchronizationRouteFound))
  }

  /** A memory allocated by a device passes that device's downcast: a write
      into it from a native source reaches `synch_in`, never the no-route
      error unless the source is not native. */
  lemma AllocatedMemoryDispatches(v: DeviceImpl, size: nat, sd: Boxed<Device>, sm: Boxed<seq<int>>)
    requires Alloc(v, size).Ok? && Is(sd, v.nativeDevice) && Is(sm, v.nativeMemory)
    ensures var m := Alloc(v, size).value;
      Synch(v, Write(m, sd, sm)).Ok? <==> v.synchIn(m.value, sd.value, sm.value).Ok?
    ensures var m := Alloc(v, size).value;
      Synch(v, Write(m, sd, sm)).Err? ==> Synch(v, Write(m, sd, sm)).error.kind == SrcError.Framework(v.name)
  {
    assert Dispatchable(v, Write(Alloc(v, size).value, sd, sm));
  }

  // ---------------------------------------------------------------------------
  // src2/memory.rs: `FlatBox`, a byte allocation viewed as a slice of any
  // element type. The pointer is abstract: it is the slice length it carries.

  /** `byte_size`, and the length recorded in the fat pointer `pointer`,
      which is what dropping the box frees. */
  datatype FlatBox = FlatBox(byteSize: nat, pointerLen: nat)

  /** `FlatBox::from` a boxed slice of `n` elements of `elemSize` bytes, as
      written: the byte size is counted, but the pointer is cast from
      `*mut [T]` to `*mut [u8]`, which keeps the element count `n` as its
      length. */
  function FromBoxAsWritten(n: nat, elemSize: nat): (b: FlatBox)
    ensures b.byteSize == n * elemSize
  {
    FlatBox(n * elemSize, n)
  }

  /** `FlatBox::from` with the pointer carrying the byte length, so that the
      allocation is freed whole. */
  function FromBox(n: nat, elemSize: nat): (b: FlatBox)
    ensures b.byteSize == n * elemSize
    ensures DroppedBytes(b) == b.byteSize
  {
    FlatBox(n * elemSize, n * elemSize)
  }

  /** `FlatBox::new(capacity)`: a byte slice of `capacity` bytes. */
  function NewFlatBox(capacity: nat): (b: FlatBox)
    ensures b.byteSize == capacity && DroppedBytes(b) == capacity
  {
    FromBox(capacity, 1)
  }

  /** The bytes `drop` hands back to the allocator: `Box::from_raw` of the
      `*mut [u8]` frees as many bytes as the pointer's length. */
  function DroppedBytes(b: FlatBox): nat
  {
    b.pointerLen
  }

  /** `as_slice::<T>()` and `as_mut_slice::<T>()`: the number of whole
      elements of `elemSize` bytes in the allocation; a zero-sized type
      divides by zero. */
  function SliceLen(b: FlatBox, elemSize: nat): nat
    requires elemSize > 0
  {
    b.byteSize / elemSize
  }

  /** A box of `n` elements viewed again as elements of the same type has
      `n` elements, in the as-written and the corrected `from` alike. */
  lemma {:induction false} SliceLenRoundTrip(n: nat, elemSize: nat)
    requires elemSize > 0
    ensures SliceLen(FromBox(n, elemSize), elemSize) == n
    ensures SliceLen(FromBoxAsWritten(n, elemSize), elemSize) == n
  {
    DivMul(n, elemSize);
  }

  /** A freshly allocated box of `capacity` bytes viewed as elements of
      `elemSize` bytes has the whole elements that fit. */
  lemma NewSliceLen(capacity: nat, elemSize: nat)
    requires elemSize > 0
    ensures SliceLen(NewFlatBox(capacity), elemSize) * elemSize <= capacity
    ensures capacity < (SliceLen(NewFlatBox(capacity), elemSize) + 1) * elemSize
  {
  }

  /** Division undoes multiplication by the same positive factor. */
  lemma DivMul(n: nat, d: nat)
    requires d > 0
    ensures (n * d) / d == n
  {
    var q := (n * d) / d;
    var r := (n * d) % d;
    assert 0 <= r < d;
    assert n * d == q * d + r;
    if q < n {
      assert (q + 1) * d == q * d + d;
      MulMonotone(q + 1, n, d);
    } else if q > n {
      assert (n + 1) * d == n * d + d;
      MulMonotone(n + 1, q, d);
    }
  }

  lemma MulMonotone(a: int, b: int, d: nat)
    requires a <= b
    ensures a * d <= b * d
  {
  }

  /** As written, dropping a box made from `n` elements of more than one
      byte frees fewer bytes than the box holds: the 16 bytes of four 4-byte
      elements are freed as 4. */
  lemma DropFreesElementCount()
    ensures FromBoxAsWritten(4, 4).byteSize == 16 && DroppedBytes(FromBoxAsWritten(4, 4)) == 4
    ensures forall n: nat, s: nat :: n > 0 && s > 1 ==>
      DroppedBytes(FromBoxAsWritten(n, s)) < FromBoxAsWritten(n, s).byteSize
  {
    forall n: nat, s: nat | n > 0 && s > 1
      ensures DroppedBytes(FromBoxAsWritten(n, s)) < FromBoxAsWritten(n, s).byteSize
    {
      assert n * s >= n * 2;
    }
  }
}
