/** The memory-coherence protocol shared by every version of the shared tensor.

    A shared tensor owns a list of memory copies, one per device, and a 64-bit
    map whose bit `i` says that copy `i` holds the latest data. Reading on a
    device finds (or allocates) that device's copy, brings it up to date from
    the lowest-numbered up-to-date copy when it is stale, and marks it up to
    date. Writing marks that copy as the only up-to-date one. Dropping a copy
    removes it from the list and closes the gap in the map.

    Each version of the tensor in the repository is a class proved against the
    functions of this module; they differ in the error names they report and
    in how a transfer between two devices is attempted (see `Fallback`,
    `Sequential` and `Syncable`). */
module Coherence {
  import opened Bits
  import opened Wrappers

  datatype Framework = Native | OpenCL | Cuda

  /** A compute device (or context) a memory copy can live on. */
  datatype Device = Device(framework: Framework, ordinal: nat)

  /** The native host device. */
  const HOST: Device := Device(Native, 0)

  /** One memory copy of the tensor's data and the device it lives on. */
  datatype Copy = Copy(device: Device, data: seq<int>)

  /** What a device-level transfer reports: success, the error kind that says no
      transfer route exists (`NoAvailableSynchronizationRouteFound`), or any
      other error `E` of the device layer. */
  datatype Outcome<E> = Done | NoRoute | Failed(error: E)

  datatype Mode = Read | ReadWrite | WriteOnly

  /** The ways a tensor operation fails. */
  datatype Fault<E> =
    | Uninitialized
    | CapacityExceeded
    | AllocationFailed(error: E)
    | NoSyncRoute
    | SyncFailed(error: E)

  /** The copy list and the up-to-date map. */
  datatype State = State(copies: seq<Copy>, upToDate: u64)

  /** The state after an access, and the index of the copy handed out (or the fault). */
  datatype Step<E> = Step(state: State, result: Result<nat, Fault<E>>)

  /** A copy list after a lookup, and the index of the copy found or created. */
  datatype Located = Located(copies: seq<Copy>, index: nat)

  /** A transfer from the first device's copy into the second device's copy. */
  type Route<E> = (Device, Device) -> Outcome<E>

  /** Allocation of a fresh copy of the given size on a device: its initial
      contents, or the device's error. */
  type Allocator<E> = (Device, nat) -> Result<seq<int>, E>

  // ---------------------------------------------------------------------------
  // Invariants

  /** There are at most 64 copies and only existing copies are marked. */
  ghost predicate Aligned(s: State)
  {
    |s.copies| <= WIDTH && forall j: nat :: Bit(s.upToDate, j) ==> j < |s.copies|
  }

  /** No device holds two copies. */
  predicate Distinct(copies: seq<Copy>)
  {
    forall a, b :: 0 <= a < b < |copies| ==> copies[a].device != copies[b].device
  }

  /** Every copy holds `n` elements. */
  predicate Sized(copies: seq<Copy>, n: nat)
  {
    forall k :: 0 <= k < |copies| ==> |copies[k].data| == n
  }

  /** All up-to-date copies hold the same data. */
  predicate Agree(s: State)
  {
    forall a, b :: 0 <= a < |s.copies| && 0 <= b < |s.copies| && Bit(s.upToDate, a) && Bit(s.upToDate, b) ==>
      s.copies[a].data == s.copies[b].data
  }

  ghost predicate Coherent(s: State, n: nat)
  {
    Aligned(s) && Distinct(s.copies) && Sized(s.copies, n) && Agree(s)
  }

  /** Asked for `size`, the allocator always hands out copies of `n` elements. */
  ghost predicate AllocSized<E>(alloc: Allocator<E>, size: nat, n: nat)
  {
    forall d :: alloc(d, size).Ok? ==> |alloc(d, size).value| == n
  }

  // ---------------------------------------------------------------------------
  // Transfer strategies

  /** Try the source's outgoing transfer; only when it reports no route, try the
      destination's incoming transfer. Any other outcome is final. */
  function Fallback<E>(out: Route<E>, inward: Route<E>): Route<E>
  {
    (src: Device, dst: Device) =>
      match out(src, dst)
      case NoRoute => inward(dst, src)
      case o => o
  }

  /** Run the source's outgoing transfer and then the destination's incoming
      transfer; the first failure ends the synchronization. */
  function Sequential<E>(out: Route<E>, inward: Route<E>): Route<E>
  {
    (src: Device, dst: Device) =>
      match out(src, dst)
      case Done => inward(dst, src)
      case o => o
  }

  /** Ask the source whether it can push to the destination, else whether the
      destination can pull from the source, else report no route. */
  function Syncable<E>(syncable: (Device, Device) -> bool, out: Route<E>, inward: Route<E>): Route<E>
  {
    (src: Device, dst: Device) =>
      if syncable(src, dst) then out(src, dst)
      else if syncable(dst, src) then inward(dst, src)
      else NoRoute
  }

  // ---------------------------------------------------------------------------
  // Steps

  /** The index of the first copy on device `d`. */
  function Position(copies: seq<Copy>, d: Device): (r: Option<nat>)
    ensures r.Some? ==> r.value < |copies| && copies[r.value].device == d
    ensures r.Some? ==> forall k :: 0 <= k < r.value ==> copies[k].device != d
    ensures r.None? <==> forall k :: 0 <= k < |copies| ==> copies[k].device != d
  {
    if |copies| == 0 then None
    else if copies[0].device == d then Some(0)
    else
      match Position(copies[1..], d)
      case None => None
      case Some(k) => Some(k + 1)
  }

  lemma PositionAppend(copies: seq<Copy>, d: Device, c: Copy)
    requires Position(copies, d).None? && c.device == d
    ensures Position(copies + [c], d) == Some(|copies|)
  {
    var grown := copies + [c];
    assert grown[|copies|].device == d;
  }

  /** Find the copy on `d`, or allocate one at the end of the list unless the
      map is full. */
  function GetOrCreate<E>(copies: seq<Copy>, d: Device, alloc: Allocator<E>, size: nat): (r: Result<Located, Fault<E>>)
    requires |copies| <= WIDTH
    ensures r.Ok? ==> r.value.index < |r.value.copies| && r.value.copies[r.value.index].device == d
    ensures r.Ok? ==> Position(r.value.copies, d) == Some(r.value.index)
    ensures r.Ok? ==> copies <= r.value.copies && |r.value.copies| <= |copies| + 1
    ensures r.Ok? && |r.value.copies| > |copies| ==>
      Position(copies, d).None? && alloc(d, size).Ok? && r.value.copies == copies + [Copy(d, alloc(d, size).value)]
    ensures r.Err? ==> r.error.CapacityExceeded? || r.error.AllocationFailed?
    ensures r.Err? ==> Position(copies, d).None?
    ensures r.Err? && r.error.CapacityExceeded? <==> Position(copies, d).None? && |copies| == WIDTH
    ensures r.Err? && r.error.AllocationFailed? ==> alloc(d, size).Err? && r.error.error == alloc(d, size).error
  {
    match Position(copies, d)
    case Some(i) => Ok(Located(copies, i))
    case None =>
      if |copies| == WIDTH then Err(CapacityExceeded)
      else
        match alloc(d, size)
        case Err(e) => Err(AllocationFailed(e))
        case Ok(buffer) =>
          var grown := copies + [Copy(d, buffer)];
          PositionAppend(copies, d, Copy(d, buffer));
          Ok(Located(grown, |copies|))
  }

  /** Bring copy `dst` up to date from the lowest-numbered up-to-date copy,
      unless it already is. The map is not changed here. */
  function SyncIfNeeded<E>(s: State, dst: nat, route: Route<E>): (r: Result<State, Fault<E>>)
    requires Aligned(s) && s.upToDate != 0 && dst < |s.copies|
    ensures r.Ok? ==> r.value.upToDate == s.upToDate && |r.value.copies| == |s.copies|
    ensures r.Ok? ==> forall k :: 0 <= k < |s.copies| ==> r.value.copies[k].device == s.copies[k].device
    ensures r.Ok? ==> forall k :: 0 <= k < |s.copies| && k != dst ==> r.value.copies[k] == s.copies[k]
    ensures r.Ok? ==> exists src :: 0 <= src < |s.copies| && Bit(s.upToDate, src) && r.value.copies[dst].data == s.copies[src].data
    ensures r.Err? ==> !Bit(s.upToDate, dst) && (r.error.NoSyncRoute? || r.error.SyncFailed?)
    ensures r.Err? ==>
      (r.error.NoSyncRoute? <==> route(s.copies[TrailingZeros(s.upToDate)].device, s.copies[dst].device).NoRoute?)
  {
    if Contains(s.upToDate, dst) then Ok(s)
    else
      var src := TrailingZeros(s.upToDate);
      match route(s.copies[src].device, s.copies[dst].device)
      case Done =>
        var copies := s.copies[dst := Copy(s.copies[dst].device, s.copies[src].data)];
        assert copies[dst].data == s.copies[src].data;
        Ok(State(copies, s.upToDate))
      case NoRoute => Err(NoSyncRoute)
      case Failed(e) => Err(SyncFailed(e))
  }

  /** Reading, reading-and-writing, or writing-only access to the copy on `d`. */
  function Access<E>(s: State, d: Device, mode: Mode, alloc: Allocator<E>, size: nat, route: Route<E>): (r: Step<E>)
    requires Aligned(s)
    ensures Aligned(r.state)
    ensures mode != WriteOnly && s.upToDate == 0 ==> r.state == s && r.result.Err? && r.result.error.Uninitialized?
    ensures r.result.Err? ==> r.state.upToDate == s.upToDate
    ensures r.result.Ok? ==>
      r.result.value < |r.state.copies| && Position(r.state.copies, d) == Some(r.result.value)
    ensures r.result.Ok? && mode == Read ==>
      forall j: nat :: Bit(r.state.upToDate, j) <==> Bit(s.upToDate, j) || j == r.result.value
    ensures r.result.Ok? && mode != Read ==>
      forall j: nat :: Bit(r.state.upToDate, j) <==> j == r.result.value
    ensures |s.copies| <= |r.state.copies| <= |s.copies| + 1
    ensures forall k :: 0 <= k < |s.copies| ==> r.state.copies[k].device == s.copies[k].device
    ensures forall k :: 0 <= k < |s.copies| && Bit(s.upToDate, k) ==> r.state.copies[k] == s.copies[k]
  {
    if mode != WriteOnly && s.upToDate == 0 then Step(s, Err(Uninitialized))
    else
      match GetOrCreate(s.copies, d, alloc, size)
      case Err(f) => Step(s, Err(f))
      case Ok(found) =>
        if mode == WriteOnly then
          Step(State(found.copies, Shl1(found.index)), Ok(found.index))
        else
          var r := SyncAndMark(s, found.copies, found.index, mode, route);
          SameDevicesSamePosition(found.copies, r.state.copies, d);
          r
  }

  /** A read or read-write access once copy `i` of the grown list `grown` was
      found or created: bring it up to date, then mark it. */
  function SyncAndMark<E>(s: State, grown: seq<Copy>, i: nat, mode: Mode, route: Route<E>): (r: Step<E>)
    requires Aligned(s) && s.upToDate != 0 && mode != WriteOnly
    requires s.copies <= grown && |grown| <= WIDTH && i < |grown|
    ensures Aligned(r.state) && |r.state.copies| == |grown|
    ensures r.result.Err? ==> r.state == State(grown, s.upToDate)
    ensures r.result.Ok? ==> r.result.value == i
    ensures r.result.Ok? && mode == Read ==> forall j: nat :: Bit(r.state.upToDate, j) <==> Bit(s.upToDate, j) || j == i
    ensures r.result.Ok? && mode != Read ==> forall j: nat :: Bit(r.state.upToDate, j) <==> j == i
    ensures forall k :: 0 <= k < |grown| ==> r.state.copies[k].device == grown[k].device
    ensures forall k :: 0 <= k < |s.copies| && Bit(s.upToDate, k) ==> r.state.copies[k] == s.copies[k]
  {
    var g := State(grown, s.upToDate);
    match SyncIfNeeded(g, i, route)
    case Err(f) => Step(g, Err(f))
    case Ok(synced) =>
      var marks := if mode == Read then Insert(synced.upToDate, i) else Shl1(i);
      assert forall k :: 0 <= k < |s.copies| && Bit(s.upToDate, k) ==> k != i || Bit(g.upToDate, i);
      Step(State(synced.copies, marks), Ok(i))
  }

  /** Lists whose copies live on the same devices agree on every position. */
  lemma {:induction false} SameDevicesSamePosition(a: seq<Copy>, b: seq<Copy>, d: Device)
    requires |a| == |b| && forall k :: 0 <= k < |a| ==> a[k].device == b[k].device
    ensures Position(a, d) == Position(b, d)
  {
    if |a| > 0 {
      SameDevicesSamePosition(a[1..], b[1..], d);
    }
  }

  /** The old index of the copy that sits at index `j` after copy `i` was removed. */
  function Unshift(j: nat, i: nat): nat
  {
    if j < i then j else j + 1
  }

  /** Remove the copy on `d` and close the gap in the map; `None` when no copy
      lives on `d`. */
  function Drop(s: State, d: Device): (r: Option<State>)
    requires Aligned(s)
    ensures r.Some? <==> Position(s.copies, d).Some?
    ensures r.Some? ==> Aligned(r.value)
    ensures r.Some? ==> |r.value.copies| == |s.copies| - 1
    ensures r.Some? ==> forall j :: 0 <= j < |r.value.copies| ==>
      r.value.copies[j] == s.copies[Unshift(j, Position(s.copies, d).value)]
    ensures r.Some? ==> forall j: nat ::
      Bit(r.value.upToDate, j) == Bit(s.upToDate, Unshift(j, Position(s.copies, d).value))
  {
    match Position(s.copies, d)
    case None => None
    case Some(i) =>
      var marks := Compact(s.upToDate, i);
      var rest := s.copies[..i] + s.copies[i + 1..];
      forall j: nat ensures Bit(marks, j) == Bit(s.upToDate, Unshift(j, i)) && (Bit(marks, j) ==> j < |rest|) {
        CompactBit(s.upToDate, i, j);
      }
      Some(State(rest, marks))
  }

  /** The transfer of an access that never synchronizes (`write_only`). */
  function NeverRoutes<E>(src: Device, dst: Device): Outcome<E>
  {
    NoRoute
  }

  /** The result a tensor hands its caller: the index of the copy, or the error
      that `toError` assigns to the fault. */
  function Report<E>(r: Result<nat, Fault<E>>, toError: Fault<E> -> E): Result<nat, E>
  {
    match r
    case Ok(i) => Ok(i)
    case Err(f) => Err(toError(f))
  }

  // ---------------------------------------------------------------------------
  // Properties

  /** The copy a synchronization reads from is an up-to-date copy other than the destination. */
  lemma SyncSource(s: State, dst: nat)
    requires Aligned(s) && s.upToDate != 0 && dst < |s.copies| && !Bit(s.upToDate, dst)
    ensures TrailingZeros(s.upToDate) < |s.copies|
    ensures TrailingZeros(s.upToDate) != dst && Bit(s.upToDate, TrailingZeros(s.upToDate))
    ensures forall j: nat :: j < TrailingZeros(s.upToDate) ==> !Bit(s.upToDate, j)
  {
  }

  /** Every access keeps the copies coherent. */
  lemma {:induction false} AccessKeepsCoherent<E>(s: State, d: Device, mode: Mode, alloc: Allocator<E>, size: nat, route: Route<E>, n: nat)
    requires Coherent(s, n) && AllocSized(alloc, size, n)
    ensures Coherent(Access(s, d, mode, alloc, size, route).state, n)
  {
    var r := Access(s, d, mode, alloc, size, route);
    if mode != WriteOnly && s.upToDate == 0 {
    } else {
      match GetOrCreate(s.copies, d, alloc, size)
      case Err(f) =>
      case Ok(found) =>
        var i := found.index;
        GrownCoherent(s, d, alloc, size, found, n);
        if mode != WriteOnly {
          var grown := State(found.copies, s.upToDate);
          match SyncIfNeeded(grown, i, route)
          case Err(f) =>
          case Ok(synced) =>
            SyncedCoherent(grown, i, route, n);
        }
    }
  }

  lemma GrownCoherent<E>(s: State, d: Device, alloc: Allocator<E>, size: nat, found: Located, n: nat)
    requires Coherent(s, n) && AllocSized(alloc, size, n)
    requires GetOrCreate(s.copies, d, alloc, size).Ok? && GetOrCreate(s.copies, d, alloc, size).value == found
    ensures Coherent(State(found.copies, s.upToDate), n)
  {
    var g := found.copies;
    if |g| > |s.copies| {
      forall a, b | 0 <= a < b < |g| ensures g[a].device != g[b].device {
        if b == |s.copies| { assert g[a] == s.copies[a]; }
      }
    }
  }

  lemma SyncedCoherent<E>(g: State, i: nat, route: Route<E>, n: nat)
    requires Coherent(g, n) && g.upToDate != 0 && i < |g.copies|
    requires SyncIfNeeded(g, i, route).Ok?
    ensures var t := SyncIfNeeded(g, i, route).value;
      Coherent(t, n) && Coherent(State(t.copies, Insert(t.upToDate, i)), n)
  {
    var t := SyncIfNeeded(g, i, route).value;
    var src :| 0 <= src < |g.copies| && Bit(g.upToDate, src) && t.copies[i].data == g.copies[src].data;
    assert Distinct(t.copies) by {
      forall a, b | 0 <= a < b < |t.copies| ensures t.copies[a].device != t.copies[b].device {
        assert t.copies[a].device == g.copies[a].device;
      }
    }
    var m := Insert(t.upToDate, i);
    forall a, b | 0 <= a < |t.copies| && 0 <= b < |t.copies| && Bit(m, a) && Bit(m, b)
      ensures t.copies[a].data == t.copies[b].data
    {
      assert Bit(t.upToDate, a) || a == i;
      assert Bit(t.upToDate, b) || b == i;
      assert a != i ==> t.copies[a] == g.copies[a];
      assert b != i ==> t.copies[b] == g.copies[b];
    }
    forall a, b | 0 <= a < |t.copies| && 0 <= b < |t.copies| && Bit(t.upToDate, a) && Bit(t.upToDate, b)
      ensures t.copies[a].data == t.copies[b].data
    {
      assert Bit(m, a) && Bit(m, b);
    }
  }

  /** A successful read hands out a copy holding the data every up-to-date copy held. */
  lemma {:induction false} ReadSeesLatest<E>(s: State, d: Device, mode: Mode, alloc: Allocator<E>, size: nat, route: Route<E>, j: nat)
    requires Aligned(s) && Agree(s) && mode != WriteOnly
    requires j < |s.copies| && Bit(s.upToDate, j)
    ensures var r := Access(s, d, mode, alloc, size, route);
      r.result.Ok? ==> r.state.copies[r.result.value].data == s.copies[j].data
  {
    var r := Access(s, d, mode, alloc, size, route);
    if r.result.Ok? {
      var found := GetOrCreate(s.copies, d, alloc, size).value;
      var i := found.index;
      var grown := State(found.copies, s.upToDate);
      assert grown.copies[j] == s.copies[j];
      var synced := SyncIfNeeded(grown, i, route).value;
      assert r.state.copies == synced.copies;
      if Bit(s.upToDate, i) {
        assert grown.copies[i] == s.copies[i];
      } else {
        var src :| 0 <= src < |grown.copies| && Bit(grown.upToDate, src) && synced.copies[i].data == grown.copies[src].data;
        assert grown.copies[src] == s.copies[src];
      }
    }
  }

  /** Dropping a copy keeps the remaining copies coherent. */
  lemma DropKeepsCoherent(s: State, d: Device, n: nat)
    requires Coherent(s, n) && Drop(s, d).Some?
    ensures Coherent(Drop(s, d).value, n)
  {
    var i := Position(s.copies, d).value;
    var t := Drop(s, d).value;
    DroppedCopies(s, d, n);
    assert Agree(t) by {
      forall a, b | 0 <= a < |t.copies| && 0 <= b < |t.copies| && Bit(t.upToDate, a) && Bit(t.upToDate, b)
        ensures t.copies[a].data == t.copies[b].data
      {
        assert t.copies[a] == s.copies[Unshift(a, i)] && t.copies[b] == s.copies[Unshift(b, i)];
        assert Bit(s.upToDate, Unshift(a, i)) && Bit(s.upToDate, Unshift(b, i));
      }
    }
  }

  lemma DroppedCopies(s: State, d: Device, n: nat)
    requires Aligned(s) && Distinct(s.copies) && Sized(s.copies, n) && Drop(s, d).Some?
    ensures Distinct(Drop(s, d).value.copies) && Sized(Drop(s, d).value.copies, n)
  {
    var i := Position(s.copies, d).value;
    var t := Drop(s, d).value;
    forall a, b | 0 <= a < b < |t.copies| ensures t.copies[a].device != t.copies[b].device {
      assert t.copies[a] == s.copies[Unshift(a, i)] && t.copies[b] == s.copies[Unshift(b, i)];
    }
    forall k | 0 <= k < |t.copies| ensures |t.copies[k].data| == n {
      assert t.copies[k] == s.copies[Unshift(k, i)];
    }
  }

  /** Dropping the only up-to-date copy leaves the tensor uninitialized. */
  lemma DropLastLatest(s: State, d: Device)
    requires Aligned(s) && Position(s.copies, d).Some?
    requires forall j: nat :: Bit(s.upToDate, j) <==> j == Position(s.copies, d).value
    ensures Drop(s, d).Some? && Drop(s, d).value.upToDate == 0
  {
    var t := Drop(s, d).value;
    var i := Position(s.copies, d).value;
    assert forall j: nat :: !Bit(t.upToDate, j) by {
      forall j: nat ensures !Bit(t.upToDate, j) {
        assert Bit(t.upToDate, j) == Bit(s.upToDate, Unshift(j, i));
      }
    }
    NoBitsIsZero(t.upToDate);
  }

  /** On a tensor that never held data, reads fail as uninitialized; a write-only
      access creates the copy, and once that copy is dropped reads fail again. */
  lemma UninitializedAfterDroppingOnlyWrite<E>(d: Device, alloc: Allocator<E>, size: nat, route: Route<E>)
    requires alloc(d, size).Ok?
    ensures Aligned(State([], 0))
    ensures var empty := State([], 0);
      Access(empty, d, Read, alloc, size, route).result.Err? &&
      Access(empty, d, Read, alloc, size, route).result.error.Uninitialized? &&
      Access(empty, d, ReadWrite, alloc, size, route).result.Err? &&
      Access(empty, d, ReadWrite, alloc, size, route).result.error.Uninitialized? &&
      var written := Access(empty, d, WriteOnly, alloc, size, route);
      written.result.Ok? && written.result.value == 0 &&
      Drop(written.state, d).Some? &&
      Access(Drop(written.state, d).value, d, Read, alloc, size, route).result.Err? &&
      Access(Drop(written.state, d).value, d, Read, alloc, size, route).result.error.Uninitialized?
  {
    var empty := State([], 0);
    ZeroHasNoBits(0);
    var written := Access(empty, d, WriteOnly, alloc, size, route);
    assert written.state.copies == [Copy(d, alloc(d, size).value)];
    DropLastLatest(written.state, d);
  }
}
