/** Shape arithmetic shared by every tensor of the repository: the number of
    elements of a shape (`iter().fold(1, |s, &a| s * a)`) and row-major strides.
    Integers are unbounded here: a `usize` product that overflows is not modelled. */
module Shapes {

  /** The left fold `((1 * d0) * d1) * ...` over the dimensions. */
  function Product(dims: seq<nat>): nat
  {
    if |dims| == 0 then 1 else Product(dims[..|dims| - 1]) * dims[|dims| - 1]
  }

  /** A single dimension spans itself. */
  lemma ProductSingle(n: nat)
    ensures Product([n]) == n
  {
    assert [n][..0] == [];
  }

  /** The fold can also be read from the front: the first dimension times the
      product of the rest. */
  lemma {:induction false} ProductCons(dims: seq<nat>)
    requires |dims| > 0
    ensures Product(dims) == dims[0] * Product(dims[1..])
  {
    if |dims| == 1 {
      assert dims[1..] == [];
      assert dims[..0] == [];
    } else {
      var init := dims[..|dims| - 1];
      ProductCons(init);
      assert init[1..] == dims[1..][..|dims[1..]| - 1];
      assert init[0] == dims[0];
    }
  }

  /** Products of concatenated shapes multiply. */
  lemma {:induction false} ProductAppend(a: seq<nat>, b: seq<nat>)
    ensures Product(a + b) == Product(a) * Product(b)
  {
    if |b| == 0 {
      assert a + b == a;
    } else {
      var last := b[|b| - 1];
      ProductAppend(a, b[..|b| - 1]);
      assert (a + b)[..|a + b| - 1] == a + b[..|b| - 1];
    }
  }

  /** A shape holds no element exactly when one of its dimensions is 0. */
  lemma {:induction false} ProductZero(dims: seq<nat>)
    ensures Product(dims) == 0 <==> exists k :: 0 <= k < |dims| && dims[k] == 0
  {
    if |dims| > 0 {
      var init := dims[..|dims| - 1];
      ProductZero(init);
      if exists k :: 0 <= k < |init| && init[k] == 0 {
        var k :| 0 <= k < |init| && init[k] == 0;
        assert dims[k] == 0;
      }
      if exists k :: 0 <= k < |dims| && dims[k] == 0 {
        var k :| 0 <= k < |dims| && dims[k] == 0;
        if k < |init| { assert init[k] == 0; }
      }
    }
  }

  /** `strides` are the row-major strides of `dims`: each one is the product of
      the dimensions after it, so the last is 1. */
  ghost predicate RowMajor(dims: seq<nat>, strides: seq<nat>)
  {
    |strides| == |dims| && forall i :: 0 <= i < |dims| ==> strides[i] == Product(dims[i + 1..])
  }

  /** The last row-major stride is 1. */
  lemma LastStride(dims: seq<nat>, strides: seq<nat>)
    requires RowMajor(dims, strides) && |dims| > 0
    ensures strides[|dims| - 1] == 1
  {
    var last := |dims| - 1;
    assert dims[last + 1..] == [];
  }

  /** Each row-major stride is the next dimension times the next stride. */
  lemma StrideRecurrence(dims: seq<nat>, strides: seq<nat>)
    requires RowMajor(dims, strides)
    ensures forall i {:trigger dims[i]} :: 1 <= i < |dims| ==> strides[i - 1] == dims[i] * strides[i]
  {
    forall i {:trigger dims[i]} | 1 <= i < |dims|
      ensures strides[i - 1] == dims[i] * strides[i]
    {
      SuffixStep(dims, strides, i - 1);
    }
  }

  /** The first stride times the first dimension is the element count. */
  lemma FirstStride(dims: seq<nat>, strides: seq<nat>)
    requires RowMajor(dims, strides) && |dims| > 0
    ensures Product(dims) == dims[0] * strides[0]
  {
    ProductCons(dims);
  }

  /** One step of the suffix products: dims[i + 1..] is dims[i + 1] in front of dims[i + 2..]. */
  lemma SuffixStep(dims: seq<nat>, strides: seq<nat>, i: nat)
    requires i + 1 < |dims|
    ensures Product(dims[i + 1..]) == dims[i + 1] * Product(dims[i + 2..])
    ensures RowMajor(dims, strides) ==> strides[i] == dims[i + 1] * strides[i + 1]
  {
    var suffix := dims[i + 1..];
    ProductCons(suffix);
    assert suffix[1..] == dims[i + 2..];
  }

  /** The strides of the shapes `[]`, `[5]`, `[2, 4]`, `[2, 2, 4]` and `[2, 2, 4, 4]`. */
  lemma StrideExamples()
    ensures RowMajor([], [])
    ensures RowMajor([5], [1])
    ensures RowMajor([2, 4], [4, 1])
    ensures RowMajor([2, 2, 4], [8, 4, 1])
    ensures RowMajor([2, 2, 4, 4], [32, 16, 4, 1])
  {
    var s2: seq<nat> := [2, 4];
    assert s2[1..] == [4] && s2[2..] == [];
    assert Product([4]) == 4;
    var s3: seq<nat> := [2, 2, 4];
    assert s3[1..] == [2, 4] && s3[2..] == [4] && s3[3..] == [];
    assert Product([2, 4]) == 8;
    var s4: seq<nat> := [2, 2, 4, 4];
    assert s4[1..] == [2, 4, 4] && s4[2..] == [4, 4] && s4[3..] == [4] && s4[4..] == [];
    assert Product([4, 4]) == 16;
    assert Product([2, 4, 4]) == 32;
    var s1: seq<nat> := [5];
    assert s1[1..] == [];
  }

  /** Build the row-major strides the way `default_stride` does: nothing for a
      scalar, `[1]` for a vector, otherwise one suffix product per dimension
      after the first, then a final 1. */
  method DefaultStride(shape: seq<nat>) returns (strides: seq<nat>)
    ensures RowMajor(shape, strides)
  {
    strides := [];
    var length := |shape|;
    if length == 0 {
      return;
    } else if length == 1 {
      strides := strides + [1];
      return;
    }
    var imp := shape[1..length];
    var i := 0;
    while i < |imp|
      invariant 0 <= i <= |imp|
      invariant |strides| == i
      invariant forall k :: 0 <= k < i ==> strides[k] == Product(shape[k + 1..])
    {
      assert imp[i..|imp|] == shape[i + 1..];
      strides := strides + [Product(imp[i..|imp|])];
      i := i + 1;
    }
    strides := strides + [1];
    assert shape[|shape| - 1 + 1..] == [];
  }

  // ---------------------------------------------------------------------------
  // Integer casts

  const I32_LIMIT: int := 0x1_0000_0000
  const USIZE_LIMIT: int := 0x1_0000_0000_0000_0000

  /** `n as i32`: the low 32 bits read as a two's-complement number. */
  function AsI32(n: nat): (r: int)
    ensures -I32_LIMIT / 2 <= r < I32_LIMIT / 2
    ensures n < I32_LIMIT / 2 ==> r == n
    ensures (r - n) % I32_LIMIT == 0
  {
    var low := n % I32_LIMIT;
    if low < I32_LIMIT / 2 then low else low - I32_LIMIT
  }

  /** `n as usize` for a signed 64-bit `n`: negative values wrap around. */
  function AsUsize(n: int): (r: nat)
    requires -USIZE_LIMIT / 2 <= n < USIZE_LIMIT / 2
    ensures r < USIZE_LIMIT
    ensures n >= 0 ==> r == n
    ensures (r - n) % USIZE_LIMIT == 0
  {
    if n >= 0 then n else n + USIZE_LIMIT
  }

  /** `mem_size(capacity)`: the bytes taken by `capacity` elements of
      `elemSize` bytes each. */
  function MemSize(elemSize: nat, capacity: nat): nat
  {
    elemSize * capacity
  }
}
