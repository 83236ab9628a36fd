/** Writing a slice into host memory from an offset on: the specification
    `Overlay` and the element-by-element loop the tensors run. */
module HostWrites {
  /** Whether writing `length` elements from `offset` on stays inside a buffer
      of `size` elements. No data means no write, so any offset is accepted. */
  predicate WithinBuffer(size: nat, offset: nat, length: nat)
  {
    length == 0 || offset + length <= size
  }

  /** `buffer` with `data` written over it from position `offset` on. */
  function Overlay(buffer: seq<int>, offset: nat, data: seq<int>): (r: seq<int>)
    requires WithinBuffer(|buffer|, offset, |data|)
    ensures |r| == |buffer|
    ensures forall k :: 0 <= k < |data| ==> r[offset + k] == data[k]
    ensures forall k :: 0 <= k < |buffer| && !(offset <= k < offset + |data|) ==> r[k] == buffer[k]
    ensures |data| == 0 ==> r == buffer
  {
    if |data| == 0 then buffer else buffer[..offset] + data + buffer[offset + |data|..]
  }

  /** The loop of `write_to_memory_offset` and `write_offset_slice`:
      `buffer[index + offset] = datum` for every datum in order. */
  method WriteAt(buffer: seq<int>, data: seq<int>, offset: nat) returns (r: seq<int>)
    requires WithinBuffer(|buffer|, offset, |data|)
    ensures r == Overlay(buffer, offset, data)
  {
    r := buffer;
    var index := 0;
    while index < |data|
      invariant 0 <= index <= |data|
      invariant |r| == |buffer|
      invariant forall k :: 0 <= k < index ==> r[offset + k] == data[k]
      invariant forall k :: 0 <= k < |buffer| && !(offset <= k < offset + index) ==> r[k] == buffer[k]
    {
      r := r[index + offset := data[index]];
      index := index + 1;
    }
    var expected := Overlay(buffer, offset, data);
    forall k | 0 <= k < |r|
      ensures r[k] == expected[k]
    {
      if offset <= k < offset + |data| {
        assert r[offset + (k - offset)] == data[k - offset];
      }
    }
  }
}
