/** `TensorShape` of `src/tensor/tensor_shape.rs`: a capacity and the list of
    dimensions. `src/tensor.rs` and `src2/tensor/mod.rs` declare the same struct
    with the same conversions. */
module TensorShapes {
  import opened Wrappers
  import opened ErrorCore
  import opened TensorError
  import opened Shapes

  /** The message of a failed `check`, with the capacity and the length. */
  function MismatchMessage(capacity: nat, length: nat): string
  {
    "TODO: incompatible shape. Capacity = " + Decimal(capacity) + ", Length = " + Decimal(length)
  }

  /** The message tells the two counts apart: different mismatches give
      different messages. */
  lemma MismatchMessageInjective(c1: nat, l1: nat, c2: nat, l2: nat)
    requires MismatchMessage(c1, l1) == MismatchMessage(c2, l2)
    ensures c1 == c2 && l1 == l2
  {
    TwoCountsInjective("TODO: incompatible shape. Capacity = ", ", Length = ", c1, l1, c2, l2);
  }

  datatype TensorShape = TensorShape(capacity: nat, dimsizes: seq<nat>)
  {
    /** `check`: data fits the shape exactly when its length is the capacity;
        otherwise the error carries a message naming both counts. */
    function Check<T>(data: seq<T>): (r: Result<(), Failure>)
      ensures r.Ok? <==> |data| == capacity
      ensures r.Err? ==>
        r.error.kind == IncompatibleShape && GetRef(r.error) == Some(Message(MismatchMessage(capacity, |data|)))
    {
      if capacity != |data| then Err(New(IncompatibleShape, Message(MismatchMessage(capacity, |data|)))) else Ok(())
    }

    function Dimensions(): seq<nat>
    {
      dimsizes
    }

    function Capacity(): nat
    {
      capacity
    }

    function Rank(): nat
    {
      |dimsizes|
    }

    /** The capacity is the number of elements the dimensions span. */
    ghost predicate Consistent()
    {
      capacity == Product(dimsizes)
    }
  }

  /** `From<Vec<usize>>`, `From<&[usize]>` and `From<[usize; N]>`: the capacity
      is the product of the dimensions, which are kept as given. */
  function FromDims(dims: seq<nat>): (s: TensorShape)
    ensures s.Consistent()
    ensures s.Dimensions() == dims && s.Rank() == |dims|
    ensures |dims| == 0 ==> s.Capacity() == 1
  {
    TensorShape(Product(dims), dims)
  }

  /** `From<usize>`: a single dimension of `n`, holding `n` elements. */
  function FromUsize(n: nat): (s: TensorShape)
    ensures s.Capacity() == n && s.Dimensions() == [n] && s.Rank() == 1
  {
    TensorShape(n, [n])
  }

  /** `From<usize>` n is the same shape as `From<Vec<usize>>` of `[n]`. */
  lemma FromUsizeIsFromDims(n: nat)
    ensures FromUsize(n) == FromDims([n]) && FromUsize(n).Consistent()
  {
    assert [n][..0] == [];
  }

  /** A shape built from its dimensions accepts exactly the data whose length is
      their product; a dimension of 0 admits only empty data. */
  lemma CheckFromDims<T>(dims: seq<nat>, data: seq<T>)
    ensures FromDims(dims).Check(data).Ok? <==> |data| == Product(dims)
    ensures (exists k :: 0 <= k < |dims| && dims[k] == 0) ==> (FromDims(dims).Check(data).Ok? <==> |data| == 0)
  {
    ProductZero(dims);
  }

  /** The shapes of `[2, 4]` and `[3, 3]` hold 8 and 9 elements. */
  lemma CapacityExamples()
    ensures FromDims([2, 4]).Capacity() == 8
    ensures FromDims([3, 3]).Capacity() == 9
    ensures FromDims([]).Capacity() == 1
  {
    var a: seq<nat> := [2, 4];
    assert a[..1] == [2];
    var b: seq<nat> := [3, 3];
    assert b[..1] == [3];
    assert [2][..0] == [] && [3][..0] == [];
  }
}
