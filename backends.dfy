/** The backend of `src/backend.rs`: a framework, the context it built over
    a selection of hardware, and that selection. Its context is the OpenCL
    context of `src/frameworks/open_cl/context.rs`. */
module SrcBackends {
  import opened Wrappers
  import opened ErrorCore
  import opened SrcError
  import opened Hardwares
  import opened SrcContexts

  class Backend<P> {
    const selection: seq<Hardware>
    const context: OpenClContext<P>

    /** The context holds one device per hardware of the selection. */
    ghost predicate Valid()
      reads this, context
    {
      context.Built() && context.selectedHardware == selection
    }

    constructor Holding(selection: seq<Hardware>, context: OpenClContext<P>)
      ensures this.selection == selection && this.context == context
    {
      this.selection := selection;
      this.context := context;
    }

    /** `with`: build the framework's context over `selection` and keep the
        selection as given; a context failure is the result. */
    static method With(selection: seq<Hardware>, package: seq<OpenClDevice> -> Result<P, Failure>)
      returns (r: Result<Backend<P>, Failure>)
      ensures r.Ok? <==> package(DevicesFor(selection)).Ok?
      ensures r.Err? ==> r.error == package(DevicesFor(selection)).error
      ensures r.Ok? ==> (fresh(r.value) && r.value.Valid() && r.value.selection == selection &&
        r.value.context.active == 0)
    {
      var context := OpenClContext.New(selection, package);
      if context.Err? {
        return Err(context.error);
      }
      var backend := new Backend.Holding(selection, context.value);
      return Ok(backend);
    }

    /** `new`: start the framework and use all of its hardware as the
        selection; either failure is the result. */
    static method New(framework: Result<seq<Hardware>, Failure>, package: seq<OpenClDevice> -> Result<P, Failure>)
      returns (r: Result<Backend<P>, Failure>)
      ensures framework.Err? ==> r == Err(framework.error)
      ensures framework.Ok? ==> (r.Ok? <==> package(DevicesFor(framework.value)).Ok?)
      ensures r.Ok? ==> (fresh(r.value) && r.value.Valid() && r.value.selection == framework.value)
    {
      if framework.Err? {
        return Err(framework.error);
      }
      r := With(framework.value, package);
    }

    /** `select`: activate the first selected hardware satisfying `pred`, or
        report that none does without activating anything. */
    method Select(pred: Hardware -> bool) returns (r: Result<(), Failure>)
      requires Valid()
      modifies context
      ensures Valid()
      ensures FirstMatch(selection, pred).Some? ==>
        r.Ok? && context.active == FirstMatch(selection, pred).value &&
        context.Device().device == selection[context.active].id
      ensures FirstMatch(selection, pred).None? ==>
        r == Err(ErrorCore.New(ErrorKind.Other, Message(NO_MATCH))) && context.active == old(context.active)
    {
      var nth := FirstMatch(selection, pred);
      if nth.None? {
        return Err(ErrorCore.New(ErrorKind.Other, Message(NO_MATCH)));
      }
      r := context.Activate(nth.value);
    }
  }
}

/** The backend of `src1/backend.rs`. It searches the framework's own
    selection and activates through the context's `set_active`; its context
    is the OpenCL context of `src/frameworks/opencl/interface/context.rs`. */
module Src1Backends {
  import opened Wrappers
  import opened ErrorCore
  import opened SrcError
  import opened Hardwares
  import opened InterfaceContexts

  /** `BackendConfig`: a framework (its name), the hardware to use and the
      kind of hardware to activate. */
  datatype BackendConfig = BackendConfig(name: string, hardware: seq<Hardware>, kind: HardwareType)

  /** `Framework::enclose`: the devices of a context over a selection, or the
      framework's error. */
  type Enclose = seq<Hardware> -> Result<seq<OpenClDevice>, Failure>

  class Backend<X> {
    const name: string
    /** The framework's selection: the hardware it enclosed. */
    const selection: seq<Hardware>
    const context: OpenClContext<X>

    constructor Holding(name: string, selection: seq<Hardware>, context: OpenClContext<X>)
      ensures this.name == name && this.selection == selection && this.context == context
    {
      this.name := name;
      this.selection := selection;
      this.context := context;
    }

    /** `with`: let the framework enclose the selection in a context. */
    static method With(name: string, selection: seq<Hardware>, enclose: Enclose, package: X)
      returns (r: Result<Backend<X>, Failure>)
      ensures r.Ok? <==> enclose(selection).Ok?
      ensures r.Err? ==> r.error == enclose(selection).error
      ensures r.Ok? ==> (fresh(r.value) && fresh(r.value.context) && r.value.name == name && r.value.selection == selection &&
        r.value.context.selection == enclose(selection).value && r.value.context.active == 0 &&
        r.value.context.Valid())
    {
      var devices := enclose(selection);
      if devices.Err? {
        return Err(devices.error);
      }
      var context := new OpenClContext(package, devices.value);
      var backend := new Backend.Holding(name, selection, context);
      return Ok(backend);
    }

    /** `set_active`: the context's `set_active`. */
    method SetActive(index: nat) returns (r: Result<(), Failure>)
      requires context.Valid()
      modifies context
      ensures context.Valid()
      ensures index >= |context.selection| ==>
        r == Err(ErrorCore.New(ErrorKind.Other, Message(InterfaceContexts.OUT_OF_RANGE))) &&
        context.active == old(context.active)
      ensures index < |context.selection| ==> r.Ok? && context.active == index
    {
      r := context.SetActive(index);
    }

    /** `select`: activate the first hardware of the framework's selection
        satisfying `pred`; with none, a `Framework` error under the
        framework's name, and nothing activated. */
    method Select(pred: Hardware -> bool) returns (r: Result<(), Failure>)
      requires context.Valid()
      modifies context
      ensures context.Valid()
      ensures FirstMatch(selection, pred).None? ==>
        r == Err(ErrorCore.New(Framework(name), Message(NO_MATCH))) && context.active == old(context.active)
      ensures FirstMatch(selection, pred).Some? && FirstMatch(selection, pred).value < |context.selection| ==>
        r.Ok? && context.active == FirstMatch(selection, pred).value
      ensures FirstMatch(selection, pred).Some? && FirstMatch(selection, pred).value >= |context.selection| ==>
        r == Err(ErrorCore.New(ErrorKind.Other, Message(InterfaceContexts.OUT_OF_RANGE))) &&
        context.active == old(context.active)
    {
      var index := FirstMatch(selection, pred);
      if index.None? {
        return Err(ErrorCore.New(Framework(name), Message(NO_MATCH)));
      }
      r := SetActive(index.value);
    }

    /** `try_from`: build with the configured hardware, then activate the
        first hardware of the configured kind; either failure is the result. */
    static method TryFrom(config: BackendConfig, enclose: Enclose, package: X)
      returns (r: Result<Backend<X>, Failure>)
      ensures enclose(config.hardware).Err? ==> r == Err(enclose(config.hardware).error)
      ensures var pick := FirstMatch(config.hardware, (h: Hardware) => h.processor == config.kind);
        enclose(config.hardware).Ok? && pick.None? ==> r == Err(ErrorCore.New(Framework(config.name), Message(NO_MATCH)))
      ensures var pick := FirstMatch(config.hardware, (h: Hardware) => h.processor == config.kind);
        enclose(config.hardware).Ok? && pick.Some? && pick.value < |enclose(config.hardware).value| ==> r.Ok?
      ensures var pick := FirstMatch(config.hardware, (h: Hardware) => h.processor == config.kind);
        enclose(config.hardware).Ok? && pick.Some? && pick.value >= |enclose(config.hardware).value| ==>
        r == Err(ErrorCore.New(ErrorKind.Other, Message(InterfaceContexts.OUT_OF_RANGE)))
      ensures r.Ok? ==> (fresh(r.value) && r.value.selection == config.hardware &&
        var pick := FirstMatch(config.hardware, (h: Hardware) => h.processor == config.kind);
        pick.Some? && r.value.context.active == pick.value &&
        r.value.selection[r.value.context.active].processor == config.kind)
    {
      var built := With(config.name, config.hardware, enclose, package);
      if built.Err? {
        return Err(built.error);
      }
      var backend := built.value;
      var selected := backend.Select((h: Hardware) => h.processor == config.kind);
      if selected.Err? {
        return Err(selected.error);
      }
      return Ok(backend);
    }
  }

  /** `new`: start the framework, then build over all its available hardware. */
  method New<X>(name: string, framework: Result<seq<Hardware>, Failure>, enclose: Enclose, package: X)
    returns (r: Result<Backend<X>, Failure>)
    ensures framework.Err? ==> r == Err(framework.error)
    ensures framework.Ok? ==> (r.Ok? <==> enclose(framework.value).Ok?)
    ensures r.Ok? ==> fresh(r.value) && r.value.selection == framework.value && r.value.context.active == 0
  {
    if framework.Err? {
      return Err(framework.error);
    }
    r := Backend.With(name, framework.value, enclose, package);
  }
}

/** The default backend of `src_/backend.rs`: OpenCL when it starts, the
    native host otherwise. */
module DefaultBackends {
  import opened Wrappers
  import NativeDevices

  /** `ContextView`: the context a backend holds, over its devices. */
  datatype ContextView =
    | OpenClContextView(openClDevices: seq<nat>)
    | NativeContextView(nativeDevices: seq<NativeDevices.NativeDevice>)

  datatype Backend = Backend(context: ContextView)

  /** `default`: start OpenCL and build a context over the devices of its
      first platform (a framework without platforms panics); if either step
      fails, a native context over the native framework's devices. */
  function Default<E>(openCl: Result<seq<seq<nat>>, E>, newContext: seq<nat> -> Result<seq<nat>, E>,
                      nativeDevices: seq<NativeDevices.NativeDevice>): (b: Backend)
    requires openCl.Ok? ==> |openCl.value| > 0
    ensures openCl.Ok? && newContext(openCl.value[0]).Ok? ==>
      b.context == OpenClContextView(newContext(openCl.value[0]).value)
    ensures openCl.Err? || newContext(openCl.value[0]).Err? ==> b.context == NativeContextView(nativeDevices)
  {
    var tried := if openCl.Err? then Err(openCl.error) else newContext(openCl.value[0]);
    match tried
    case Ok(devices) => Backend(OpenClContextView(devices))
    case Err(_) => Backend(NativeContextView(nativeDevices))
  }

  /** `devices`: one view per device of the context, in order, tagged with
      the context's framework. */
  function Devices(b: Backend): (r: seq<NativeDevices.DeviceView>)
    ensures b.context.OpenClContextView? ==> (|r| == |b.context.openClDevices| &&
      forall k :: 0 <= k < |r| ==> r[k] == NativeDevices.OpenClDeviceView(b.context.openClDevices[k]))
    ensures b.context.NativeContextView? ==> (|r| == |b.context.nativeDevices| &&
      forall k :: 0 <= k < |r| ==> r[k] == NativeDevices.NativeDeviceView(b.context.nativeDevices[k]))
  {
    match b.context
    case OpenClContextView(ds) =>
      seq(|ds|, k requires 0 <= k < |ds| => NativeDevices.OpenClDeviceView(ds[k]))
    case NativeContextView(ds) =>
      seq(|ds|, k requires 0 <= k < |ds| => NativeDevices.NativeDeviceView(ds[k]))
  }

  /** Whichever context the default backend ends with, it lists exactly its
      context's devices, and a native fallback lists only native devices. */
  lemma DefaultDevices<E>(openCl: Result<seq<seq<nat>>, E>, newContext: seq<nat> -> Result<seq<nat>, E>,
                          nativeDevices: seq<NativeDevices.NativeDevice>)
    requires openCl.Ok? ==> |openCl.value| > 0
    ensures var b := Default(openCl, newContext, nativeDevices);
      b.context.NativeContextView? ==>
        |Devices(b)| == |nativeDevices| && forall k :: 0 <= k < |Devices(b)| ==> Devices(b)[k].NativeDeviceView?
    ensures var b := Default(openCl, newContext, nativeDevices);
      b.context.OpenClContextView? ==> forall k :: 0 <= k < |Devices(b)| ==> Devices(b)[k].OpenClDeviceView?
  {
  }
}
