/** `Tensor` of `src/shared_tensor/tensor.rs`: the rank, the number of
    components and the shape of a shared tensor. */
module ShapeTensor {
  import opened Shapes

  datatype Tensor = Tensor(rank: nat, ncomponents: nat, shape: seq<nat>)
  {
    /** `default_stride`: the row-major strides of the shape. */
    method DefaultStride() returns (strides: seq<nat>)
      ensures RowMajor(shape, strides)
      ensures |shape| == 0 ==> strides == []
      ensures |shape| == 1 ==> strides == [1]
    {
      strides := Shapes.DefaultStride(shape);
      if |shape| == 1 {
        LastStride(shape, strides);
      }
    }
  }

  /** `From<I: Into<Vec<usize>>>`: the rank is the number of dimensions and a
      scalar has one component; otherwise the components are the product of the
      dimensions. */
  function From(shape: seq<nat>): (t: Tensor)
    ensures t.rank == |shape| && t.shape == shape
    ensures t.ncomponents == Product(shape)
  {
    Tensor(|shape|, if |shape| == 0 then 1 else Product(shape), shape)
  }

  /** A rank-0 tensor has one component; `[2, 4]` has 8. */
  lemma ComponentExamples()
    ensures From([]).ncomponents == 1 && From([]).rank == 0
    ensures From([2, 4]).ncomponents == 8 && From([2, 4]).rank == 2
  {
    var a: seq<nat> := [2, 4];
    assert a[..1] == [2] && [2][..0] == [];
  }
}

/** `TensorDesc` of `src/tensor/desc.rs`: a list of dimensions with its rank,
    size and strides, also as the `i32` values that C interfaces take. */
module TensorDescs {
  import opened Shapes

  datatype TensorDesc = TensorDesc(dims: seq<nat>)
  {
    function Rank(): nat
    {
      |dims|
    }

    /** `size`: 1 for a scalar, else the product of the dimensions. */
    function Size(): (n: nat)
      ensures n == Product(dims)
      ensures Rank() == 0 ==> n == 1
    {
      if Rank() == 0 then 1 else Product(dims)
    }

    /** `dims_i32`: each dimension cast with `as i32`, in order; a dimension
        below 2^31 keeps its value. */
    function DimsI32(): (r: seq<int>)
      ensures |r| == |dims|
      ensures forall i :: 0 <= i < |dims| && dims[i] < I32_LIMIT / 2 ==> r[i] == dims[i]
      ensures forall i :: 0 <= i < |dims| ==> -I32_LIMIT / 2 <= r[i] < I32_LIMIT / 2
    {
      seq(|dims|, i requires 0 <= i < |dims| => AsI32(dims[i]))
    }

    /** `default_stride`: the row-major strides of the dimensions. */
    method DefaultStride() returns (strides: seq<nat>)
      ensures RowMajor(dims, strides)
      ensures |dims| > 0 ==> strides[|dims| - 1] == 1 && Product(dims) == dims[0] * strides[0]
    {
      strides := Shapes.DefaultStride(dims);
      if |dims| > 0 {
        LastStride(dims, strides);
        FirstStride(dims, strides);
      }
    }

    /** `default_stride_i32`: the strides cast with `as i32`, in order. */
    method DefaultStrideI32() returns (strides: seq<int>)
      ensures |strides| == |dims|
      ensures forall i :: 0 <= i < |dims| ==> strides[i] == AsI32(Product(dims[i + 1..]))
      ensures forall i :: 0 <= i < |dims| && Product(dims[i + 1..]) < I32_LIMIT / 2 ==> strides[i] == Product(dims[i + 1..])
    {
      var wide := DefaultStride();
      strides := seq(|wide|, i requires 0 <= i < |wide| => AsI32(wide[i]));
    }
  }

  /** `From<&()>`: no dimensions, so one element. */
  function FromUnit(): (d: TensorDesc)
    ensures d.Rank() == 0 && d.Size() == 1
  {
    TensorDesc([])
  }

  /** `From<&usize>`: the single dimension `n`, holding `n` elements. */
  function FromUsize(n: nat): (d: TensorDesc)
    ensures d.dims == [n] && d.Rank() == 1 && d.Size() == n
  {
    ProductSingle(n);
    TensorDesc([n])
  }

  /** `From<&isize>` and `From<&i32>`: the single dimension `n as usize`, which
      wraps a negative `n` around 2^64. */
  function FromSigned(n: int): (d: TensorDesc)
    requires -USIZE_LIMIT / 2 <= n < USIZE_LIMIT / 2
    ensures d.Rank() == 1 && d.dims[0] < USIZE_LIMIT
    ensures n >= 0 ==> d == FromUsize(n)
    ensures n < 0 ==> d.dims[0] == n + USIZE_LIMIT
  {
    TensorDesc([AsUsize(n)])
  }

  /** `From<&Vec<usize>>`, `From<&[usize]>`, the tuple and the array conversions:
      the dimensions in the order given. */
  function FromDims(dims: seq<nat>): (d: TensorDesc)
    ensures d.Rank() == |dims| && d.Size() == Product(dims)
    ensures forall i :: 0 <= i < |dims| ==> d.dims[i] == dims[i]
  {
    TensorDesc(dims)
  }

  /** The tuple `(a, b)` and the array `[a, b]` give the same descriptor, of
      `a * b` elements. */
  lemma PairDims(a: nat, b: nat)
    ensures FromDims([a, b]).Size() == a * b
  {
    var p: seq<nat> := [a, b];
    assert p[..1] == [a];
    ProductSingle(a);
  }
}

/** `VecExtn` of `src/api/tensor/descriptor.rs`: a list of dimensions with its
    rank and size. */
module Descriptors {
  import opened Shapes

  datatype VecExtn = VecExtn(dims: seq<nat>)
  {
    function Rank(): nat
    {
      |dims|
    }

    /** `size`: 1 for a scalar, else the product of the dimensions. */
    function Size(): (n: nat)
      ensures n == Product(dims)
      ensures Rank() == 0 ==> n == 1
    {
      if Rank() == 0 then 1 else Product(dims)
    }
  }

  /** `From<Vec<usize>>`: the vector, unchanged. */
  function FromVec(v: seq<nat>): (d: VecExtn)
    ensures d.Rank() == |v| && d.Size() == Product(v)
    ensures forall i :: 0 <= i < |v| ==> d.dims[i] == v[i]
  {
    VecExtn(v)
  }

  /** `From<()>`: an empty descriptor, of size 1. */
  function FromUnit(): (d: VecExtn)
    ensures d.Rank() == 0 && d.Size() == 1
  {
    FromVec([])
  }

  /** `From<usize>` and `From<u32>`: the single dimension `n`. */
  function FromUsize(n: nat): (d: VecExtn)
    ensures d.dims == [n] && d.Rank() == 1 && d.Size() == n
  {
    ProductSingle(n);
    VecExtn([n])
  }

  /** `From<isize>` and `From<i32>`: the single dimension `n as usize`. */
  function FromSigned(n: int): (d: VecExtn)
    requires -USIZE_LIMIT / 2 <= n < USIZE_LIMIT / 2
    ensures d.Rank() == 1 && d.dims[0] < USIZE_LIMIT
    ensures n >= 0 ==> d == FromUsize(n)
    ensures n < 0 ==> d.dims[0] == n + USIZE_LIMIT
  {
    VecExtn([AsUsize(n)])
  }
}
