/** The index and shape logic of the native BLAS backend
    (`crates/parenchyma-blas/src/frameworks/native/mod.rs`): tensors are viewed
    as row-major matrices for `gemm`, the scalar operand of `axpy` and `scal`
    is the first element of a tensor, and the reductions store their result
    in the first element of the result tensor. The floating-point kernels
    themselves are not part of this model. */
module BlasNative {
  import opened Wrappers
  import opened ErrorCore
  import opened SrcError
  import Shapes

  type Failure = ErrorCore.Error<SrcError.ErrorKind>

  const INDEX_OUT_OF_BOUNDS: string := "Index out of bounds"

  /** A row-major matrix: cell (i, j) is `cells[cols * i + j]`. */
  class Mat {
    const rows: nat
    const cols: nat
    const cells: array<int>

    ghost predicate Valid()
      reads this
    {
      cells.Length == rows * cols
    }

    /** `Mat::new(rows, cols)`: a zero matrix of that shape. */
    constructor (rows: nat, cols: nat)
      ensures this.rows == rows && this.cols == cols && Valid() && fresh(cells)
    {
      this.rows := rows;
      this.cols := cols;
      cells := new int[rows * cols](_ => 0);
    }

    /** `mat[i][j]` */
    function Get(i: nat, j: nat): int
      reads this, cells
      requires Valid() && i < rows && j < cols
    {
      IndexInRange(rows, cols, i, j);
      cells[cols * i + j]
    }
  }

  /** Scaling by the same factor keeps the order. */
  lemma MulMonotone(c: nat, a: nat, b: nat)
    requires a <= b
    ensures c * a <= c * b
  {
    assert c * b == c * a + c * (b - a);
  }

  /** Row `i` of an `nrows` x `ncols` row-major layout ends where row `i + 1`
      starts, and no later than the layout's end. */
  lemma RowInRange(nrows: nat, ncols: nat, i: nat)
    requires i < nrows
    ensures ncols * i + ncols == ncols * (i + 1) <= nrows * ncols
  {
    MulMonotone(ncols, i + 1, nrows);
  }

  /** Cell (i, j) of an `nrows` x `ncols` row-major layout lies inside it. */
  lemma IndexInRange(nrows: nat, ncols: nat, i: nat, j: nat)
    requires i < nrows && j < ncols
    ensures ncols * i + j < nrows * ncols
  {
    RowInRange(nrows, ncols, i);
  }

  /** Distinct cells of a row-major layout have distinct indices. */
  lemma {:induction false} IndexInjective(nrows: nat, ncols: nat, i: nat, j: nat, i2: nat, j2: nat)
    requires i < nrows && j < ncols && i2 < nrows && j2 < ncols
    requires ncols * i + j == ncols * i2 + j2
    ensures i == i2 && j == j2
  {
    if i < i2 {
      RowInRange(nrows, ncols, i);
      MulMonotone(ncols, i + 1, i2);
      assert false;
    } else if i2 < i {
      RowInRange(nrows, ncols, i2);
      MulMonotone(ncols, i2 + 1, i);
      assert false;
    }
  }

  /** Element `index` of a prefix is the element of the whole. */
  lemma PrefixElement(prefix: seq<int>, whole: seq<int>, size: nat, index: nat)
    requires size <= |whole| && prefix == whole[..size] && index < size
    ensures prefix[index] == whole[index]
  {
  }

  /** A matrix whose cells are a prefix of `slice` holds `slice[cols * i + j]`
      in cell (i, j). */
  lemma CellOfPrefix(mat: Mat, slice: seq<int>, i: nat, j: nat)
    requires mat.Valid() && mat.rows * mat.cols <= |slice|
    requires mat.cells[..] == slice[..mat.rows * mat.cols]
    requires i < mat.rows && j < mat.cols
    ensures mat.cols * i + j < mat.rows * mat.cols
    ensures mat.Get(i, j) == slice[mat.cols * i + j]
  {
    IndexInRange(mat.rows, mat.cols, i, j);
    PrefixElement(mat.cells[..], slice, mat.rows * mat.cols, mat.cols * i + j);
  }

  /** `as_matrix`: an `nrows` x `ncols` matrix whose cell (i, j) is
      `slice[ncols * i + j]`; the slice must hold that many elements. */
  method AsMatrix(slice: seq<int>, nrows: nat, ncols: nat) returns (mat: Mat)
    requires nrows * ncols <= |slice|
    ensures fresh(mat) && fresh(mat.cells) && mat.Valid()
    ensures mat.rows == nrows && mat.cols == ncols
    ensures mat.cells[..] == slice[..nrows * ncols]
  {
    mat := new Mat(nrows, ncols);
    for i := 0 to nrows
      invariant ncols * i <= nrows * ncols
      invariant forall n :: 0 <= n < ncols * i ==> mat.cells[n] == slice[n]
    {
      RowInRange(nrows, ncols, i);
      var row := ncols * i;
      for j := 0 to ncols
        invariant forall n :: 0 <= n < row + j ==> mat.cells[n] == slice[n]
      {
        mat.cells[row + j] := slice[row + j];
      }
    }
    assert mat.cells[..] == slice[..nrows * ncols];
  }

  /** `read_from_matrix`: `slice[cols * i + j]` takes cell (i, j); the slice
      must hold the whole matrix, and its elements past it keep their values. */
  method ReadFromMatrix(mat: Mat, slice: array<int>)
    requires mat.Valid() && mat.rows * mat.cols <= slice.Length && slice != mat.cells
    modifies slice
    ensures slice[..mat.rows * mat.cols] == mat.cells[..]
    ensures slice[mat.rows * mat.cols..] == old(slice[mat.rows * mat.cols..])
  {
    var n := mat.rows;
    var m := mat.cols;
    for i := 0 to n
      invariant m * i <= n * m
      invariant forall k :: 0 <= k < m * i ==> slice[k] == mat.cells[k]
      invariant forall k :: n * m <= k < slice.Length ==> slice[k] == old(slice[k])
    {
      RowInRange(n, m, i);
      var row := m * i;
      for j := 0 to m
        invariant forall k :: 0 <= k < row + j ==> slice[k] == mat.cells[k]
        invariant forall k :: n * m <= k < slice.Length ==> slice[k] == old(slice[k])
      {
        slice[row + j] := mat.cells[row + j];
      }
    }
    assert slice[..n * m] == mat.cells[..];
  }

  /** Viewing a tensor as a matrix and reading the matrix back stores the
      tensor's own elements: `read_from_matrix` undoes `as_matrix`. */
  method MatrixRoundTrip(slice: array<int>, nrows: nat, ncols: nat)
    requires nrows * ncols == slice.Length
    modifies slice
    ensures slice[..] == old(slice[..])
  {
    var mat := AsMatrix(slice[..], nrows, ncols);
    ReadFromMatrix(mat, slice);
    assert slice[..] == slice[..nrows * ncols];
  }

  /** The matrix shape `gemm` gives a tensor: rows are the first dimension and
      columns the product of the others, each cast to `i32` and back to
      `usize`. A tensor without dimensions makes `dimensions()[0]` panic. */
  function MatrixShape(dims: seq<nat>): (shape: (nat, nat))
    requires |dims| > 0
    requires forall k :: 0 <= k < |dims| ==> dims[k] < Shapes.USIZE_LIMIT
  {
    (Shapes.AsUsize(Shapes.AsI32(dims[0])), Shapes.AsUsize(Shapes.AsI32(Shapes.Product(dims[1..]))))
  }

  /** When the dimensions fit in an `i32`, the matrix has exactly the tensor's
      elements: rows times columns is the tensor's capacity. */
  lemma MatrixShapeCoversTensor(dims: seq<nat>)
    requires |dims| > 0
    requires forall k :: 0 <= k < |dims| ==> dims[k] < Shapes.USIZE_LIMIT
    requires dims[0] < Shapes.I32_LIMIT / 2 && Shapes.Product(dims[1..]) < Shapes.I32_LIMIT / 2
    ensures MatrixShape(dims).0 == dims[0] && MatrixShape(dims).1 == Shapes.Product(dims[1..])
    ensures MatrixShape(dims).0 * MatrixShape(dims).1 == Shapes.Product(dims)
  {
    Shapes.ProductCons(dims);
  }

  /** The scalar operand of `axpy` and `scal`: the first element of the
      tensor, or an `Other` error when it has none. */
  function Scalar(a: seq<int>): (r: Result<int, Failure>)
    ensures r.Ok? <==> |a| > 0
    ensures r.Ok? ==> r.value == a[0]
    ensures r.Err? ==> r.error == ErrorCore.New(ErrorKind.Other, Message(INDEX_OUT_OF_BOUNDS))
  {
    if |a| > 0 then Ok(a[0]) else Err(ErrorCore.New(ErrorKind.Other, Message(INDEX_OUT_OF_BOUNDS)))
  }

  /** `asum`, `dot` and `nrm2` store their result in element 0 of the result
      tensor (which must have one) and leave the other elements alone. */
  method StoreResult(result: array<int>, value: int)
    requires result.Length > 0
    modifies result
    ensures result[0] == value
    ensures result[1..] == old(result[1..])
  {
    result[0] := value;
  }
}
