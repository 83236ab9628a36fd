/** Host memory of the native framework: a fixed-size byte buffer, and the
    byte copy (`clone_from_slice`) every native transfer is made of. */
module NativeMemories {
  newtype byte = x: int | 0 <= x < 256

  class NativeMemory {
    const bytes: array<byte>

    /** `NativeMemory::allocate(size)`: `size` bytes of host memory. */
    constructor Allocate(size: nat)
      ensures bytes.Length == size && fresh(bytes)
    {
      bytes := new byte[size](_ => 0);
    }
  }

  /** `clone_from_slice`: overwrite `destn` with the bytes of `src`, which must
      have the same length (the copy panics otherwise). `src` is left as it was. */
  method CloneFromSlice(destn: array<byte>, src: array<byte>)
    requires destn.Length == src.Length
    modifies destn
    ensures destn[..] == old(src[..])
    ensures destn != src ==> src[..] == old(src[..])
  {
    var i := 0;
    while i < destn.Length
      invariant 0 <= i <= destn.Length
      invariant forall k :: 0 <= k < i ==> destn[k] == old(src[k])
      invariant forall k :: i <= k < src.Length ==> src[k] == old(src[k])
      invariant destn != src ==> forall k :: 0 <= k < src.Length ==> src[k] == old(src[k])
    {
      destn[i] := src[i];
      i := i + 1;
    }
  }
}

/** The native context of `src/native/context.rs`. Every native context is
    the same host: any two compare equal and hash alike. */
module NativeContexts {
  import opened Wrappers
  import opened NativeMemories

  datatype NativeDevice = NativeDevice(name: string, computeUnits: nat)

  class NativeContext {
    const selectedDevices: seq<NativeDevice>

    /** `new`: a context over the given devices, which never fails. */
    constructor New(devices: seq<NativeDevice>)
      ensures selectedDevices == devices
    {
      selectedDevices := devices;
    }

    /** `allocate_memory`: `size` bytes of host memory; never fails. */
    method AllocateMemory(size: nat) returns (r: Result<NativeMemory, ()>)
      ensures r.Ok? && fresh(r.value) && fresh(r.value.bytes) && r.value.bytes.Length == size
    {
      var memory := new NativeMemory.Allocate(size);
      return Ok(memory);
    }

    /** `synch_in`: `destn` takes the bytes of `src`, whatever context `src`
        lives on; never fails. */
    method SynchIn(destn: NativeMemory, source: NativeContext, src: NativeMemory) returns (r: Result<(), ()>)
      requires destn.bytes.Length == src.bytes.Length
      modifies destn.bytes
      ensures r.Ok? && destn.bytes[..] == old(src.bytes[..])
      ensures destn.bytes != src.bytes ==> src.bytes[..] == old(src.bytes[..])
    {
      CloneFromSlice(destn.bytes, src.bytes);
      return Ok(());
    }

    /** `synch_out`: `destn`, on the `destination` context, takes the bytes of
        `src`; never fails. */
    method SynchOut(src: NativeMemory, destination: NativeContext, destn: NativeMemory) returns (r: Result<(), ()>)
      requires destn.bytes.Length == src.bytes.Length
      modifies destn.bytes
      ensures r.Ok? && destn.bytes[..] == old(src.bytes[..])
      ensures destn.bytes != src.bytes ==> src.bytes[..] == old(src.bytes[..])
    {
      CloneFromSlice(destn.bytes, src.bytes);
      return Ok(());
    }

    /** `eq`: every native context equals every other. */
    predicate Equals(other: NativeContext)
    {
      true
    }

    /** `hash`: the hash of the one static identifier 0. */
    function Hash(): int
    {
      0
    }
  }

  /** Native contexts form one class under `eq`, and `hash` agrees with it,
      whatever devices each context selected. */
  lemma ContextsAreInterchangeable(a: NativeContext, b: NativeContext)
    ensures a.Equals(b) && b.Equals(a)
    ensures a.Equals(b) ==> a.Hash() == b.Hash()
  {
  }

  /** A round trip through another native context: copying `m` out to a
      buffer of the same length and back in leaves `m` as it was. */
  method OutAndBack(c: NativeContext, other: NativeContext, m: NativeMemory) returns (r: Result<(), ()>)
    modifies m.bytes
    ensures r.Ok? && m.bytes[..] == old(m.bytes[..])
  {
    var scratch := new NativeMemory.Allocate(m.bytes.Length);
    var out := c.SynchOut(m, other, scratch);
    var back := c.SynchIn(m, other, scratch);
    return Ok(());
  }
}

/** The native device of `src_/frameworks/native/device.rs`: it copies from
    and to native memory only; any other memory reaches `unimplemented!`. */
module NativeDevices {
  import opened NativeMemories

  datatype DeviceKind = Accelerator | Cpu | Gpu | Other(name: string)

  /** A device as seen through the backend: native or OpenCL. */
  datatype DeviceView = NativeDeviceView(device: NativeDevice) | OpenClDeviceView(id: nat)

  /** A memory as seen through the backend: native or OpenCL. */
  datatype MemoryView = NativeMemoryView(memory: NativeMemory) | OpenClMemoryView(id: nat)

  class NativeDevice {
    const name: string
    const computeUnits: int
    const kind: DeviceKind

    constructor (name: string, computeUnits: int, kind: DeviceKind)
      ensures this.name == name && this.computeUnits == computeUnits && this.kind == kind
    {
      this.name := name;
      this.computeUnits := computeUnits;
      this.kind := kind;
    }

    /** `allocate_memory`: `size` bytes of host memory. */
    method AllocateMemory(size: nat) returns (m: NativeMemory)
      ensures fresh(m) && fresh(m.bytes) && m.bytes.Length == size
    {
      m := new NativeMemory.Allocate(size);
    }

    /** `synch_in`: `destn` takes the bytes of the native memory `src`. */
    method SynchIn(destn: NativeMemory, source: DeviceView, src: MemoryView)
      requires src.NativeMemoryView?
      requires destn.bytes.Length == src.memory.bytes.Length
      modifies destn.bytes
      ensures destn.bytes[..] == old(src.memory.bytes[..])
    {
      CloneFromSlice(destn.bytes, src.memory.bytes);
    }

    /** `synch_out`: the native memory `destn` takes the bytes of `src`. */
    method SynchOut(src: NativeMemory, destination: DeviceView, destn: MemoryView)
      requires destn.NativeMemoryView?
      requires destn.memory.bytes.Length == src.bytes.Length
      modifies destn.memory.bytes
      ensures destn.memory.bytes[..] == old(src.bytes[..])
    {
      CloneFromSlice(destn.memory.bytes, src.bytes);
    }

    /** `eq`: every native device equals every other. */
    predicate Equals(other: NativeDevice)
    {
      true
    }
  }

  /** Two native devices compare equal whatever their names, compute units
      and kinds. */
  lemma DevicesAreInterchangeable(a: NativeDevice, b: NativeDevice)
    ensures a.Equals(b) && b.Equals(a)
  {
  }
}
