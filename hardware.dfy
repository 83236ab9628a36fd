/** Hardware as a framework reports it, and the first-match search every
    backend and context uses to pick the device to activate. */
module Hardwares {
  import opened Wrappers

  datatype HardwareType = Accelerator | Cpu | Gpu | Other

  datatype Hardware = Hardware(id: nat, framework: string, processor: HardwareType, name: string, computeUnits: nat)

  /** The message of the error a selection with no match reports. */
  const NO_MATCH: string := "There are no devices matching the specified criteria."

  /** `iter().enumerate().filter(|(_, h)| pred(h)).map(|(i, _)| i).nth(0)`:
      the lowest index whose hardware satisfies `pred`. */
  function FirstMatch(selection: seq<Hardware>, pred: Hardware -> bool): (r: Option<nat>)
    ensures r.Some? ==> r.value < |selection| && pred(selection[r.value])
    ensures r.Some? ==> forall k :: 0 <= k < r.value ==> !pred(selection[k])
    ensures r.None? <==> forall k :: 0 <= k < |selection| ==> !pred(selection[k])
  {
    if |selection| == 0 then None
    else if pred(selection[0]) then Some(0)
    else
      match FirstMatch(selection[1..], pred)
      case None => None
      case Some(k) => Some(k + 1)
  }

  /** Whenever some hardware matches, a match is found, and it is at or before
      that hardware: the lowest matching index wins. */
  lemma LowestMatchWins(selection: seq<Hardware>, pred: Hardware -> bool, i: nat)
    requires i < |selection| && pred(selection[i])
    ensures FirstMatch(selection, pred).Some? && FirstMatch(selection, pred).value <= i
  {
  }

  /** `FirstMatch` is exactly "matches, and nothing before it does". */
  lemma FirstMatchCharacterized(selection: seq<Hardware>, pred: Hardware -> bool, n: nat)
    ensures FirstMatch(selection, pred) == Some(n) <==>
      n < |selection| && pred(selection[n]) && forall k :: 0 <= k < n ==> !pred(selection[k])
  {
    if n < |selection| && pred(selection[n]) && forall k :: 0 <= k < n ==> !pred(selection[k]) {
      LowestMatchWins(selection, pred, n);
    }
  }
}

/** The OpenCL context of `src2/frameworks/opencl/context.rs`, with the
    `select` default method of `src2/context.rs`. */
module Src2Contexts {
  import opened Wrappers
  import opened ErrorCore
  import opened Src2Error
  import opened Hardwares

  type Failure = ErrorCore.Error<Src2Error.ErrorKind>

  const OUT_OF_RANGE: string := "the provided `index` is out of range"

  /** A device ready for work: the hardware's device id (its command queue
      and context handle are driver state). */
  datatype ComputeDevice = ComputeDevice(device: nat)

  class Context {
    const selection: seq<Hardware>
    const activatableHardware: seq<ComputeDevice>
    var active: nat

    /** One activatable device per selected hardware, in selection order. */
    predicate Built()
    {
      |activatableHardware| == |selection| &&
      forall k :: 0 <= k < |selection| ==> activatableHardware[k].device == selection[k].id
    }

    /** `From<ContextConfig>`: a device for each selected hardware, pushed in
        order, with the first one active. */
    constructor From(selection: seq<Hardware>)
      ensures this.selection == selection && Built() && active == 0
    {
      var devices: seq<ComputeDevice> := [];
      for k := 0 to |selection|
        invariant |devices| == k
        invariant forall j :: 0 <= j < k ==> devices[j].device == selection[j].id
      {
        devices := devices + [ComputeDevice(selection[k].id)];
      }
      this.selection := selection;
      activatableHardware := devices;
      active := 0;
    }

    /** `active`: the device made from the active hardware. */
    function Active(): (d: ComputeDevice)
      reads this
      requires Built() && active < |selection|
      ensures d.device == selection[active].id
    {
      activatableHardware[active]
    }

    /** `activate`: make hardware `index` active, or refuse an index past the
        selection and keep the active device. */
    method Activate(index: nat) returns (r: Result<(), Failure>)
      modifies this
      ensures index >= |selection| ==> r == Err(ErrorCore.New(ErrorKind.Other, Message(OUT_OF_RANGE))) && active == old(active)
      ensures index < |selection| ==> r.Ok? && active == index
    {
      if index >= |selection| {
        return Err(ErrorCore.New(ErrorKind.Other, Message(OUT_OF_RANGE)));
      }
      active := index;
      return Ok(());
    }

    /** `select`: activate the first hardware satisfying `pred`, or report that
        none does without activating anything. */
    method Select(pred: Hardware -> bool) returns (r: Result<(), Failure>)
      modifies this
      ensures FirstMatch(selection, pred).Some? ==> r.Ok? && active == FirstMatch(selection, pred).value
      ensures FirstMatch(selection, pred).None? ==> r == Err(ErrorCore.New(ErrorKind.Other, Message(NO_MATCH))) && active == old(active)
    {
      var nth := FirstMatch(selection, pred);
      if nth.None? {
        return Err(ErrorCore.New(ErrorKind.Other, Message(NO_MATCH)));
      }
      r := Activate(nth.value);
    }
  }
}

/** The OpenCL context of `src/frameworks/open_cl/context.rs`. */
module SrcContexts {
  import opened Wrappers
  import opened ErrorCore
  import opened SrcError
  import opened Hardwares

  type Failure = ErrorCore.Error<SrcError.ErrorKind>

  const OUT_OF_RANGE: string := "device index out of range"

  /** A device of the context: the hardware's device id (its queue and context
      handle are driver state). */
  datatype OpenClDevice = OpenClDevice(device: nat)

  /** The device for each selected hardware, in selection order. */
  function DevicesFor(selection: seq<Hardware>): (d: seq<OpenClDevice>)
    ensures |d| == |selection| && forall k :: 0 <= k < |selection| ==> d[k].device == selection[k].id
  {
    seq(|selection|, k requires 0 <= k < |selection| => OpenClDevice(selection[k].id))
  }

  class OpenClContext<P> {
    var active: nat
    const selectedDevices: seq<OpenClDevice>
    const selectedHardware: seq<Hardware>
    const extensionPackage: P

    /** One device per selected hardware, in selection order. */
    predicate Built()
    {
      |selectedDevices| == |selectedHardware| &&
      forall k :: 0 <= k < |selectedHardware| ==> selectedDevices[k].device == selectedHardware[k].id
    }

    constructor Holding(devices: seq<OpenClDevice>, hardware: seq<Hardware>, package: P)
      ensures selectedDevices == devices && selectedHardware == hardware
      ensures extensionPackage == package && active == 0
    {
      selectedDevices := devices;
      selectedHardware := hardware;
      extensionPackage := package;
      active := 0;
    }

    /** `new`: a device for each selected hardware, pushed in order, the
        first one active, then the extension package built over the
        unpackaged context (its failure is the result). */
    static method New(selection: seq<Hardware>, package: seq<OpenClDevice> -> Result<P, Failure>)
      returns (r: Result<OpenClContext<P>, Failure>)
      ensures r.Ok? <==> package(DevicesFor(selection)).Ok?
      ensures r.Err? ==> r.error == package(DevicesFor(selection)).error
      ensures r.Ok? ==> (fresh(r.value) && r.value.Built() && r.value.active == 0 &&
        r.value.selectedHardware == selection && r.value.selectedDevices == DevicesFor(selection) &&
        r.value.extensionPackage == package(DevicesFor(selection)).value)
    {
      var devices: seq<OpenClDevice> := [];
      for k := 0 to |selection|
        invariant |devices| == k
        invariant forall j :: 0 <= j < k ==> devices[j].device == selection[j].id
      {
        devices := devices + [OpenClDevice(selection[k].id)];
      }
      assert devices == DevicesFor(selection);
      var packaged := package(devices);
      if packaged.Err? {
        return Err(packaged.error);
      }
      var context := new OpenClContext.Holding(devices, selection, packaged.value);
      return Ok(context);
    }

    /** `device` and `active_codev`: the device of the active hardware. */
    function Device(): (d: OpenClDevice)
      reads this
      requires Built() && active < |selectedHardware|
      ensures d.device == selectedHardware[active].id
    {
      selectedDevices[active]
    }

    /** `activate`: make device `index` active, or refuse an index past the
        selected devices and keep the active one. */
    method Activate(index: nat) returns (r: Result<(), Failure>)
      modifies this
      ensures index >= |selectedDevices| ==> r == Err(ErrorCore.New(ErrorKind.Other, Message(OUT_OF_RANGE))) && active == old(active)
      ensures index < |selectedDevices| ==> r.Ok? && active == index
    {
      if index >= |selectedDevices| {
        return Err(ErrorCore.New(ErrorKind.Other, Message(OUT_OF_RANGE)));
      }
      active := index;
      return Ok(());
    }
  }
}

/** The OpenCL context of `src/frameworks/opencl/interface/context.rs`. */
module InterfaceContexts {
  import opened Wrappers
  import opened ErrorCore
  import opened SrcError

  type Failure = ErrorCore.Error<SrcError.ErrorKind>

  const OUT_OF_RANGE: string := "device index out of range"

  datatype OpenClDevice = OpenClDevice(device: nat)

  class OpenClContext<X> {
    const package: X
    const selection: seq<OpenClDevice>
    var active: nat

    /** The active index names a selected device, or nothing is selected. */
    ghost predicate Valid()
      reads this
    {
      active < |selection| || (|selection| == 0 && active == 0)
    }

    constructor (package: X, selection: seq<OpenClDevice>)
      ensures this.package == package && this.selection == selection && active == 0 && Valid()
    {
      this.package := package;
      this.selection := selection;
      active := 0;
    }

    /** `device` and `active_device`: the active device of the selection. */
    function Device(): (d: OpenClDevice)
      reads this
      requires Valid() && |selection| > 0
      ensures d in selection
    {
      selection[active]
    }

    /** `set_active`: make device `idx` active, or refuse an index past the
        selection and keep the active one. */
    method SetActive(idx: nat) returns (r: Result<(), Failure>)
      requires Valid()
      modifies this
      ensures Valid()
      ensures idx >= |selection| ==> r == Err(ErrorCore.New(ErrorKind.Other, Message(OUT_OF_RANGE))) && active == old(active)
      ensures idx < |selection| ==> r.Ok? && active == idx && Device() == selection[idx]
    {
      if idx >= |selection| {
        return Err(ErrorCore.New(ErrorKind.Other, Message(OUT_OF_RANGE)));
      }
      active := idx;
      return Ok(());
    }
  }
}
