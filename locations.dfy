/** The list of memory copies a shared tensor keeps behind a `RefCell`: `RVec`
    in src/shared/ref_vec.rs, `Buffers` in src_/tensor.rs and the plain
    `RefCell<Vec<_>>` of the other versions. */
module Locations {
  import opened Wrappers
  import opened Coherence

  class CopyList {
    var items: seq<Copy>

    /** `new`: an empty list. */
    constructor ()
      ensures items == []
    {
      items := [];
    }

    /** `position`: the index of the first copy satisfying `p`, if any. */
    method Position(p: Copy -> bool) returns (r: Option<nat>)
      ensures r.Some? ==> r.value < |items| && p(items[r.value])
      ensures r.Some? ==> forall k :: 0 <= k < r.value ==> !p(items[k])
      ensures r.None? <==> forall k :: 0 <= k < |items| ==> !p(items[k])
    {
      var k := 0;
      while k < |items|
        invariant k <= |items|
        invariant forall j :: 0 <= j < k ==> !p(items[j])
      {
        if p(items[k]) {
          return Some(k);
        }
        k := k + 1;
      }
      return None;
    }

    /** `push`: append a copy at the end. */
    method Push(c: Copy)
      modifies this
      ensures items == old(items) + [c]
      ensures |items| == |old(items)| + 1 && items[|items| - 1] == c
    {
      items := items + [c];
    }

    /** `len` */
    method Len() returns (n: nat)
      ensures n == |items|
    {
      n := |items|;
    }

    /** `remove`: take copy `i` out and shift the later copies down by one. */
    method Remove(i: nat) returns (c: Copy)
      requires i < |items|
      modifies this
      ensures c == old(items)[i]
      ensures items == old(items)[..i] + old(items)[i + 1..]
      ensures |items| == |old(items)| - 1
      ensures forall k :: 0 <= k < |items| ==> items[k] == old(items)[if k < i then k else k + 1]
    {
      c := items[i];
      items := items[..i] + items[i + 1..];
    }

    /** A transfer or a host write storing `data` into the memory of copy `i`. */
    method Overwrite(i: nat, data: seq<int>)
      requires i < |items|
      modifies this
      ensures |items| == |old(items)|
      ensures items[i] == Copy(old(items)[i].device, data)
      ensures forall k :: 0 <= k < |items| && k != i ==> items[k] == old(items)[k]
    {
      items := items[i := Copy(items[i].device, data)];
    }

    /** `clear`: drop every copy. */
    method Clear()
      modifies this
      ensures items == []
    {
      items := [];
    }
  }
}
