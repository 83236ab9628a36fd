/** The shared tensor of `src/api/tensor/shared.rs`: a primary memory on the
    tensor's own context, plus a map from other contexts to their copies. The
    error module it reports through is not part of this model; its two
    constructors used here become the cases of `ApiError`, and allocation and
    transfer errors of the contexts pass through as `ContextFailure`. */
module ApiTensor {
  import opened Wrappers
  import opened Coherence
  import opened Descriptors
  import Shapes

  datatype ApiError =
    | MissingDestination(message: string)
    | InvalidMemoryAllocation(message: string)
    | ContextFailure(code: int)

  const ALREADY_TRACKED: string := "Tensor already tracks memory for this device. No memory allocation."
  const NO_DESTINATION_COPY: string := "Tensor does not hold a copy on `destination`."

  /** `Context::sync_in`: the destination context fills `destination` from
      `memory`, which lives on `source`, and yields its new contents. */
  type SyncIn = (Device, Device, seq<int>, seq<int>) -> Result<seq<int>, ApiError>

  class SharedTensor {
    var context: Device
    var copies: map<Device, seq<int>>
    var de: VecExtn
    var memory: seq<int>
    /** `size_of::<M>()` of the element type. */
    const elemSize: nat

    constructor Holding(context: Device, de: VecExtn, memory: seq<int>, elemSize: nat)
      ensures this.context == context && this.de == de && this.memory == memory
      ensures this.copies == map[] && this.elemSize == elemSize
    {
      this.context := context;
      this.de := de;
      this.memory := memory;
      this.copies := map[];
      this.elemSize := elemSize;
    }

    /** `new`: allocate the primary memory on `context` for the descriptor's
        size; no other copy exists. */
    static method New(context: Device, de: VecExtn, elemSize: nat, alloc: Allocator<ApiError>)
      returns (r: Result<SharedTensor, ApiError>)
      ensures r.Ok? <==> alloc(context, Shapes.MemSize(elemSize, de.Size())).Ok?
      ensures r.Err? ==> r.error == alloc(context, Shapes.MemSize(elemSize, de.Size())).error
      ensures r.Ok? ==> (fresh(r.value) && r.value.context == context && r.value.de == de &&
        r.value.copies == map[] && r.value.elemSize == elemSize &&
        r.value.memory == alloc(context, Shapes.MemSize(elemSize, de.Size())).value)
    {
      var copy := alloc(context, Shapes.MemSize(elemSize, de.Size()));
      if copy.Err? {
        return Err(copy.error);
      }
      var tensor := new SharedTensor.Holding(context, de, copy.value, elemSize);
      return Ok(tensor);
    }

    /** `resize`: drop every copy off the tensor's context, then reallocate the
        primary memory for the new descriptor. The copies are gone even when
        the allocation fails. */
    method Resize(de: VecExtn, alloc: Allocator<ApiError>) returns (r: Result<(), ApiError>)
      modifies this
      ensures copies == map[] && context == old(context)
      ensures r.Ok? <==> alloc(context, Shapes.MemSize(elemSize, de.Size())).Ok?
      ensures r.Ok? ==> this.de == de && memory == alloc(context, Shapes.MemSize(elemSize, de.Size())).value
      ensures r.Err? ==> (r.error == alloc(context, Shapes.MemSize(elemSize, de.Size())).error &&
        this.de == old(this.de) && memory == old(memory))
    {
      copies := map[];
      var copy := alloc(context, Shapes.MemSize(elemSize, de.Size()));
      if copy.Err? {
        return Err(copy.error);
      }
      memory := copy.value;
      this.de := de;
      return Ok(());
    }

    /** `get` and `get_mut`: the primary memory for the tensor's own context,
        else the copy held for `c`, if any. */
    function Get(c: Device): (r: Option<seq<int>>)
      reads this
      ensures r.Some? <==> c == context || c in copies
      ensures c == context ==> r == Some(memory)
      ensures c != context && c in copies ==> r == Some(copies[c])
    {
      if c == context then Some(memory)
      else if c in copies then Some(copies[c])
      else None
    }

    /** `sync_from_to`: nothing when `source` and `destination` are the same;
        otherwise the destination's copy, which must exist, is filled from the
        primary memory on the tensor's context. `source` picks nothing here. */
    method SyncFromTo(source: Device, destination: Device, syncIn: SyncIn) returns (r: Result<(), ApiError>)
      modifies this
      ensures context == old(context) && memory == old(memory) && de == old(de)
      ensures source == destination ==> r.Ok? && copies == old(copies)
      ensures source != destination && destination !in old(copies) ==>
        r == Err(MissingDestination(NO_DESTINATION_COPY)) && copies == old(copies)
      ensures source != destination && destination in old(copies) ==>
        var filled := syncIn(destination, context, memory, old(copies)[destination]);
        (r.Ok? <==> filled.Ok?) &&
        (r.Ok? ==> copies == old(copies)[destination := filled.value]) &&
        (r.Err? ==> r.error == filled.error && copies == old(copies))
    {
      if source == destination {
        return Ok(());
      }
      if destination !in copies {
        return Err(MissingDestination(NO_DESTINATION_COPY));
      }
      var filled := syncIn(destination, context, memory, copies[destination]);
      if filled.Err? {
        return Err(filled.error);
      }
      copies := copies[destination := filled.value];
      return Ok(());
    }

    /** `return_copy`: store `m` as the copy for `c`, replacing any. */
    method ReturnCopy(c: Device, m: seq<int>)
      modifies this
      ensures copies == old(copies)[c := m]
      ensures context == old(context) && memory == old(memory) && de == old(de)
    {
      copies := copies[c := m];
    }

    /** `add`: allocate a copy for `c`, refused when `c` is the tensor's own
        context or already holds a copy. */
    method Add(c: Device, alloc: Allocator<ApiError>) returns (r: Result<(), ApiError>)
      modifies this
      ensures context == old(context) && memory == old(memory) && de == old(de)
      ensures c == context || c in old(copies) ==>
        r == Err(InvalidMemoryAllocation(ALREADY_TRACKED)) && copies == old(copies)
      ensures c != context && c !in old(copies) ==>
        var copy := alloc(c, Shapes.MemSize(elemSize, de.Size()));
        (r.Ok? <==> copy.Ok?) &&
        (r.Ok? ==> copies == old(copies)[c := copy.value] && Get(c) == Some(copy.value)) &&
        (r.Err? ==> r.error == copy.error && copies == old(copies))
    {
      if c == context {
        return Err(InvalidMemoryAllocation(ALREADY_TRACKED));
      }
      if c in copies {
        return Err(InvalidMemoryAllocation(ALREADY_TRACKED));
      }
      var copy := alloc(c, Shapes.MemSize(elemSize, Capacity()));
      if copy.Err? {
        return Err(copy.error);
      }
      copies := copies[c := copy.value];
      return Ok(());
    }

    /** `capacity`: the descriptor's size. */
    function Capacity(): (n: nat)
      reads this
      ensures n == Shapes.Product(de.dims)
      ensures de.Rank() == 0 ==> n == 1
    {
      de.Size()
    }
  }
}
