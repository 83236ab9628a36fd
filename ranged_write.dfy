/** The ranged write of `src2/_main.rs`: `chyma::write` copies `data` into the
    part of a buffer that a range argument picks. */
module RangedWrite {
  import opened Wrappers

  /** The four range arguments: `a..b`, `a..`, `..b` and `..`. */
  datatype RangeArgument =
    | Range(start: nat, end: nat)
    | RangeFrom(start: nat)
    | RangeTo(end: nat)
    | RangeFull

  /** `RangeArgument::start`: the lower bound, when the range has one. */
  function Start(r: RangeArgument): Option<nat>
  {
    match r
    case Range(s, _) => Some(s)
    case RangeFrom(s) => Some(s)
    case _ => None
  }

  /** `RangeArgument::end`: the upper bound, when the range has one. */
  function End(r: RangeArgument): Option<nat>
  {
    match r
    case Range(_, e) => Some(e)
    case RangeTo(e) => Some(e)
    case _ => None
  }

  /** The range with the given bounds. */
  function FromBounds(start: Option<nat>, end: Option<nat>): RangeArgument
  {
    match (start, end)
    case (Some(s), Some(e)) => Range(s, e)
    case (Some(s), None) => RangeFrom(s)
    case (None, Some(e)) => RangeTo(e)
    case (None, None) => RangeFull
  }

  /** A range argument is exactly its two optional bounds: `Range` has both,
      `RangeFrom` only a start, `RangeTo` only an end and `RangeFull` neither. */
  lemma BoundsDetermineRange(r: RangeArgument)
    ensures FromBounds(Start(r), End(r)) == r
    ensures Start(r).Some? <==> r.Range? || r.RangeFrom?
    ensures End(r).Some? <==> r.Range? || r.RangeTo?
  {
  }

  /** The first index written: the start, else 0. */
  function First(r: RangeArgument): nat
  {
    match Start(r)
    case Some(s) => s
    case None => 0
  }

  /** The end of the written span: the end, else the buffer's length. */
  function Last(r: RangeArgument, length: nat): nat
  {
    match End(r)
    case Some(e) => e
    case None => length
  }

  /** `chyma::write`: the range must not be reversed and must span exactly
      `|data|` elements (both are assertions). Element `First + k` becomes
      `data[k]` for every such position inside the buffer; a span running
      past the buffer's end is cut there, and everything else keeps its
      value. */
  method Write<T>(x: array<T>, xRange: RangeArgument, data: seq<T>)
    requires Last(xRange, x.Length) >= First(xRange)
    requires Last(xRange, x.Length) - First(xRange) == |data|
    modifies x
    ensures forall k :: 0 <= k < x.Length ==>
      x[k] == if First(xRange) <= k < First(xRange) + |data| then data[k - First(xRange)] else old(x[k])
  {
    var length := x.Length;
    var start := match Start(xRange) case Some(s) => s case None => 0;
    var end := match End(xRange) case Some(e) => e case None => length;
    var skip := start;
    var take := end - start;
    var k := 0;
    while k < take && skip + k < x.Length && k < |data|
      invariant 0 <= k <= |data|
      invariant forall j :: 0 <= j < x.Length ==>
        x[j] == if skip <= j < skip + k then data[j - skip] else old(x[j])
    {
      x[skip + k] := data[k];
      k := k + 1;
    }
  }

  /** Writing the whole buffer (`..`) with data of its length replaces it. */
  method WriteAll<T>(x: array<T>, data: seq<T>)
    requires |data| == x.Length
    modifies x
    ensures x[..] == data
  {
    Write(x, RangeFull, data);
    assert forall k :: 0 <= k < x.Length ==> x[k] == data[k];
  }
}
