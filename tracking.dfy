/** The steps every shared tensor takes on its copy list and its version map,
    written once as methods over a `CopyList` and a `VersionMap`; each tensor
    class of the repository calls them. Each method is proved against the
    function of `Coherence` it carries out. */
module Tracking {
  import opened Wrappers
  import opened Bits
  import opened Coherence
  import opened Locations
  import opened VersionMaps

  /** The copy list and the map, as a value. */
  ghost function ViewOf(copies: CopyList, versions: VersionMap): State
    reads copies, versions
  {
    State(copies.items, versions.bits)
  }

  /** The index of the first copy on device `d` (`get_location_index`, `position`). */
  method Locate(copies: CopyList, d: Device) returns (r: Option<nat>)
    ensures r == Position(copies.items, d)
  {
    r := copies.Position((c: Copy) => c.device == d);
    if r.Some? {
      assert Position(copies.items, d).Some?;
    }
  }

  /** Find the copy on `d`, or allocate `size` bytes there and append the new
      copy unless 64 copies exist (`get_or_create_location_index`, `fetchsert`). */
  method GetOrCreateLocationIndex<E>(copies: CopyList, d: Device, alloc: Allocator<E>, size: nat)
    returns (r: Result<nat, Fault<E>>)
    requires |copies.items| <= WIDTH
    modifies copies
    ensures var expected := GetOrCreate(old(copies.items), d, alloc, size);
      (r.Ok? <==> expected.Ok?) &&
      (r.Ok? ==> r.value == expected.value.index && copies.items == expected.value.copies) &&
      (r.Err? ==> r.error == expected.error && copies.items == old(copies.items))
  {
    var found := Locate(copies, d);
    if found.Some? {
      return Ok(found.value);
    }
    var n := copies.Len();
    if n == WIDTH {
      return Err(CapacityExceeded);
    }
    match alloc(d, size) {
      case Err(e) =>
        return Err(AllocationFailed(e));
      case Ok(buffer) =>
        copies.Push(Copy(d, buffer));
        n := copies.Len();
        return Ok(n - 1);
    }
  }

  /** Bring copy `dst` up to date from the lowest-numbered up-to-date copy over
      `route`, unless it already is (`sync_if_needed`, `autosync_`, `synchronize`). */
  method Synchronize<E>(copies: CopyList, versions: VersionMap, dst: nat, route: Route<E>)
    returns (r: Result<(), Fault<E>>)
    requires Aligned(ViewOf(copies, versions)) && versions.bits != 0 && dst < |copies.items|
    modifies copies
    ensures var expected := SyncIfNeeded(old(ViewOf(copies, versions)), dst, route);
      (r.Ok? <==> expected.Ok?) &&
      (r.Ok? ==> copies.items == expected.value.copies) &&
      (r.Err? ==> r.error == expected.error && copies.items == old(copies.items))
  {
    if versions.Contains(dst) {
      return Ok(());
    }
    var src := versions.Latest();
    assert src != WIDTH && src != dst;
    var items := copies.items;
    match route(items[src].device, items[dst].device) {
      case Done =>
        copies.Overwrite(dst, items[src].data);
        return Ok(());
      case NoRoute =>
        return Err(NoSyncRoute);
      case Failed(e) =>
        return Err(SyncFailed(e));
    }
  }

  /** Hand out the copy on `d` for reading, reading and writing, or writing
      only, and update the map (`read`, `read_write`, `write_only`, `autosync`). */
  method AccessCopy<E>(copies: CopyList, versions: VersionMap, d: Device, mode: Mode,
                       alloc: Allocator<E>, size: nat, route: Route<E>)
    returns (r: Result<nat, Fault<E>>)
    requires Aligned(ViewOf(copies, versions))
    modifies copies, versions
    ensures var step := Access(old(ViewOf(copies, versions)), d, mode, alloc, size, route);
      ViewOf(copies, versions) == step.state && r == step.result
  {
    if mode != WriteOnly && versions.Get() == 0 {
      return Err(Uninitialized);
    }
    var found := GetOrCreateLocationIndex(copies, d, alloc, size);
    if found.Err? {
      return found;
    }
    var i := found.value;
    if mode != WriteOnly {
      var synced := Synchronize(copies, versions, i, route);
      if synced.Err? {
        return Err(synced.error);
      }
    }
    if mode == Read {
      versions.Insert(i);
    } else {
      versions.Set(Shl1(i));
    }
    return Ok(i);
  }

  /** Remove the copy on `d` and close the gap in the map; hands back the
      removed copy, or `None` when `d` holds none (`drop_context`, `dealloc`). */
  method DropCopy(copies: CopyList, versions: VersionMap, d: Device) returns (r: Option<Copy>)
    requires Aligned(ViewOf(copies, versions))
    modifies copies, versions
    ensures var dropped := Drop(old(ViewOf(copies, versions)), d);
      (r.Some? <==> dropped.Some?) &&
      (r.Some? ==> ViewOf(copies, versions) == dropped.value &&
                   r.value == old(copies.items)[Position(old(copies.items), d).value]) &&
      (r.None? ==> ViewOf(copies, versions) == old(ViewOf(copies, versions)))
  {
    var found := Locate(copies, d);
    if found.None? {
      return None;
    }
    var i := found.value;
    var removed := copies.Remove(i);
    var upToDate := versions.Get();
    versions.Set(Compact(upToDate, i));
    return Some(removed);
  }

  /** Drop every copy and clear the map (`realloc`, `resize`). */
  method Reset(copies: CopyList, versions: VersionMap)
    modifies copies, versions
    ensures ViewOf(copies, versions) == State([], 0)
  {
    copies.Clear();
    versions.Set(0);
  }
}
