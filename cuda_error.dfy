/** The CUDA driver's error statuses, the error kinds they convert to and the
    kinds' messages (`frameworks/cuda/src/api/error.rs`). The error value itself
    is `ErrorCore.Error`. */
module CudaError {
  import opened ErrorCore

  /** The driver's `cudaError_enum`: success and every error status. */
  datatype Status =
    | CUDA_SUCCESS
    | CUDA_ERROR_INVALID_VALUE
    | CUDA_ERROR_OUT_OF_MEMORY
    | CUDA_ERROR_NOT_INITIALIZED
    | CUDA_ERROR_DEINITIALIZED
    | CUDA_ERROR_PROFILER_DISABLED
    | CUDA_ERROR_PROFILER_NOT_INITIALIZED
    | CUDA_ERROR_PROFILER_ALREADY_STARTED
    | CUDA_ERROR_PROFILER_ALREADY_STOPPED
    | CUDA_ERROR_NO_DEVICE
    | CUDA_ERROR_INVALID_DEVICE
    | CUDA_ERROR_INVALID_IMAGE
    | CUDA_ERROR_INVALID_CONTEXT
    | CUDA_ERROR_CONTEXT_ALREADY_CURRENT
    | CUDA_ERROR_MAP_FAILED
    | CUDA_ERROR_UNMAP_FAILED
    | CUDA_ERROR_ARRAY_IS_MAPPED
    | CUDA_ERROR_ALREADY_MAPPED
    | CUDA_ERROR_NO_BINARY_FOR_GPU
    | CUDA_ERROR_ALREADY_ACQUIRED
    | CUDA_ERROR_NOT_MAPPED
    | CUDA_ERROR_NOT_MAPPED_AS_ARRAY
    | CUDA_ERROR_NOT_MAPPED_AS_POINTER
    | CUDA_ERROR_ECC_UNCORRECTABLE
    | CUDA_ERROR_UNSUPPORTED_LIMIT
    | CUDA_ERROR_CONTEXT_ALREADY_IN_USE
    | CUDA_ERROR_PEER_ACCESS_UNSUPPORTED
    | CUDA_ERROR_INVALID_PTX
    | CUDA_ERROR_INVALID_GRAPHICS_CONTEXT
    | CUDA_ERROR_NVLINK_UNCORRECTABLE
    | CUDA_ERROR_INVALID_SOURCE
    | CUDA_ERROR_FILE_NOT_FOUND
    | CUDA_ERROR_SHARED_OBJECT_SYMBOL_NOT_FOUND
    | CUDA_ERROR_SHARED_OBJECT_INIT_FAILED
    | CUDA_ERROR_OPERATING_SYSTEM
    | CUDA_ERROR_INVALID_HANDLE
    | CUDA_ERROR_NOT_FOUND
    | CUDA_ERROR_NOT_READY
    | CUDA_ERROR_ILLEGAL_ADDRESS
    | CUDA_ERROR_LAUNCH_OUT_OF_RESOURCES
    | CUDA_ERROR_LAUNCH_TIMEOUT
    | CUDA_ERROR_LAUNCH_INCOMPATIBLE_TEXTURING
    | CUDA_ERROR_PEER_ACCESS_ALREADY_ENABLED
    | CUDA_ERROR_PEER_ACCESS_NOT_ENABLED
    | CUDA_ERROR_PRIMARY_CONTEXT_ACTIVE
    | CUDA_ERROR_CONTEXT_IS_DESTROYED
    | CUDA_ERROR_ASSERT
    | CUDA_ERROR_TOO_MANY_PEERS
    | CUDA_ERROR_HOST_MEMORY_ALREADY_REGISTERED
    | CUDA_ERROR_HOST_MEMORY_NOT_REGISTERED
    | CUDA_ERROR_HARDWARE_STACK_ERROR
    | CUDA_ERROR_ILLEGAL_INSTRUCTION
    | CUDA_ERROR_MISALIGNED_ADDRESS
    | CUDA_ERROR_INVALID_ADDRESS_SPACE
    | CUDA_ERROR_INVALID_PC
    | CUDA_ERROR_LAUNCH_FAILED
    | CUDA_ERROR_NOT_PERMITTED
    | CUDA_ERROR_NOT_SUPPORTED
    | CUDA_ERROR_UNKNOWN

  datatype ErrorKind =
    | InvalidValue
    | OutOfMemory
    | NotInitialized
    | Deinitialized
    | ProfilerDisabled
    | ProfilerNotInitialized
    | ProfilerAlreadyStarted
    | ProfilerAlreadyStopped
    | NoDevice
    | InvalidDevice
    | InvalidImage
    | InvalidContext
    | ContextAlreadyCurrent
    | MapFailed
    | UnmapFailed
    | ArrayIsMapped
    | AlreadyMapped
    | NoBinaryForGpu
    | AlreadyAcquired
    | NotMapped
    | NotMappedAsArray
    | NotMappedAsPointer
    | EccUncorrectable
    | UnsupportedLimit
    | ContextAlreadyInUse
    | PeerAccessUnsupported
    | InvalidPtx
    | InvalidGraphicsContext
    | NvlinkUncorrectable
    | InvalidSource
    | FileNotFound
    | SharedObjectSymbolNotFound
    | SharedObjectInitFailed
    | OperatingSystem
    | InvalidHandle
    | NotFound
    | NotReady
    | IllegalAddress
    | LaunchOutOfResources
    | LaunchTimeout
    | LaunchIncompatibleTexturing
    | PeerAccessAlreadyEnabled
    | PeerAccessNotEnabled
    | PrimaryContextActive
    | ContextIsDestroyed
    | Assert
    | TooManyPeers
    | HostMemoryAlreadyRegistered
    | HostMemoryNotRegistered
    | HardwareStackError
    | IllegalInstruction
    | MisalignedAddress
    | InvalidAddressSpace
    | InvalidPc
    | LaunchFailed
    | NotPermitted
    | NotSupported
    | Unknown

  /** `From<cudaError_enum> for ErrorKind`: every error status maps to the kind of the same name;
      converting `CUDA_SUCCESS` is unreachable. */
  function KindOf(status: Status): (kind: ErrorKind)
    requires status != CUDA_SUCCESS
  {
    match status
    case CUDA_ERROR_INVALID_VALUE => InvalidValue
    case CUDA_ERROR_OUT_OF_MEMORY => OutOfMemory
    case CUDA_ERROR_NOT_INITIALIZED => NotInitialized
    case CUDA_ERROR_DEINITIALIZED => Deinitialized
    case CUDA_ERROR_PROFILER_DISABLED => ProfilerDisabled
    case CUDA_ERROR_PROFILER_NOT_INITIALIZED => ProfilerNotInitialized
    case CUDA_ERROR_PROFILER_ALREADY_STARTED => ProfilerAlreadyStarted
    case CUDA_ERROR_PROFILER_ALREADY_STOPPED => ProfilerAlreadyStopped
    case CUDA_ERROR_NO_DEVICE => NoDevice
    case CUDA_ERROR_INVALID_DEVICE => InvalidDevice
    case CUDA_ERROR_INVALID_IMAGE => InvalidImage
    case CUDA_ERROR_INVALID_CONTEXT => InvalidContext
    case CUDA_ERROR_CONTEXT_ALREADY_CURRENT => ContextAlreadyCurrent
    case CUDA_ERROR_MAP_FAILED => MapFailed
    case CUDA_ERROR_UNMAP_FAILED => UnmapFailed
    case CUDA_ERROR_ARRAY_IS_MAPPED => ArrayIsMapped
    case CUDA_ERROR_ALREADY_MAPPED => AlreadyMapped
    case CUDA_ERROR_NO_BINARY_FOR_GPU => NoBinaryForGpu
    case CUDA_ERROR_ALREADY_ACQUIRED => AlreadyAcquired
    case CUDA_ERROR_NOT_MAPPED => NotMapped
    case CUDA_ERROR_NOT_MAPPED_AS_ARRAY => NotMappedAsArray
    case CUDA_ERROR_NOT_MAPPED_AS_POINTER => NotMappedAsPointer
    case CUDA_ERROR_ECC_UNCORRECTABLE => EccUncorrectable
    case CUDA_ERROR_UNSUPPORTED_LIMIT => UnsupportedLimit
    case CUDA_ERROR_CONTEXT_ALREADY_IN_USE => ContextAlreadyInUse
    case CUDA_ERROR_PEER_ACCESS_UNSUPPORTED => PeerAccessUnsupported
    case CUDA_ERROR_INVALID_PTX => InvalidPtx
    case CUDA_ERROR_INVALID_GRAPHICS_CONTEXT => InvalidGraphicsContext
    case CUDA_ERROR_NVLINK_UNCORRECTABLE => NvlinkUncorrectable
    case CUDA_ERROR_INVALID_SOURCE => InvalidSource
    case CUDA_ERROR_FILE_NOT_FOUND => FileNotFound
    case CUDA_ERROR_SHARED_OBJECT_SYMBOL_NOT_FOUND => SharedObjectSymbolNotFound
    case CUDA_ERROR_SHARED_OBJECT_INIT_FAILED => SharedObjectInitFailed
    case CUDA_ERROR_OPERATING_SYSTEM => OperatingSystem
    case CUDA_ERROR_INVALID_HANDLE => InvalidHandle
    case CUDA_ERROR_NOT_FOUND => NotFound
    case CUDA_ERROR_NOT_READY => NotReady
    case CUDA_ERROR_ILLEGAL_ADDRESS => IllegalAddress
    case CUDA_ERROR_LAUNCH_OUT_OF_RESOURCES => LaunchOutOfResources
    case CUDA_ERROR_LAUNCH_TIMEOUT => LaunchTimeout
    case CUDA_ERROR_LAUNCH_INCOMPATIBLE_TEXTURING => LaunchIncompatibleTexturing
    case CUDA_ERROR_PEER_ACCESS_ALREADY_ENABLED => PeerAccessAlreadyEnabled
    case CUDA_ERROR_PEER_ACCESS_NOT_ENABLED => PeerAccessNotEnabled
    case CUDA_ERROR_PRIMARY_CONTEXT_ACTIVE => PrimaryContextActive
    case CUDA_ERROR_CONTEXT_IS_DESTROYED => ContextIsDestroyed
    case CUDA_ERROR_ASSERT => Assert
    case CUDA_ERROR_TOO_MANY_PEERS => TooManyPeers
    case CUDA_ERROR_HOST_MEMORY_ALREADY_REGISTERED => HostMemoryAlreadyRegistered
    case CUDA_ERROR_HOST_MEMORY_NOT_REGISTERED => HostMemoryNotRegistered
    case CUDA_ERROR_HARDWARE_STACK_ERROR => HardwareStackError
    case CUDA_ERROR_ILLEGAL_INSTRUCTION => IllegalInstruction
    case CUDA_ERROR_MISALIGNED_ADDRESS => MisalignedAddress
    case CUDA_ERROR_INVALID_ADDRESS_SPACE => InvalidAddressSpace
    case CUDA_ERROR_INVALID_PC => InvalidPc
    case CUDA_ERROR_LAUNCH_FAILED => LaunchFailed
    case CUDA_ERROR_NOT_PERMITTED => NotPermitted
    case CUDA_ERROR_NOT_SUPPORTED => NotSupported
    case CUDA_ERROR_UNKNOWN => Unknown
  }

  /** The status each kind is converted from. */
  function StatusOf(kind: ErrorKind): (status: Status)
    ensures status != CUDA_SUCCESS
  {
    match kind
    case InvalidValue => CUDA_ERROR_INVALID_VALUE
    case OutOfMemory => CUDA_ERROR_OUT_OF_MEMORY
    case NotInitialized => CUDA_ERROR_NOT_INITIALIZED
    case Deinitialized => CUDA_ERROR_DEINITIALIZED
    case ProfilerDisabled => CUDA_ERROR_PROFILER_DISABLED
    case ProfilerNotInitialized => CUDA_ERROR_PROFILER_NOT_INITIALIZED
    case ProfilerAlreadyStarted => CUDA_ERROR_PROFILER_ALREADY_STARTED
    case ProfilerAlreadyStopped => CUDA_ERROR_PROFILER_ALREADY_STOPPED
    case NoDevice => CUDA_ERROR_NO_DEVICE
    case InvalidDevice => CUDA_ERROR_INVALID_DEVICE
    case InvalidImage => CUDA_ERROR_INVALID_IMAGE
    case InvalidContext => CUDA_ERROR_INVALID_CONTEXT
    case ContextAlreadyCurrent => CUDA_ERROR_CONTEXT_ALREADY_CURRENT
    case MapFailed => CUDA_ERROR_MAP_FAILED
    case UnmapFailed => CUDA_ERROR_UNMAP_FAILED
    case ArrayIsMapped => CUDA_ERROR_ARRAY_IS_MAPPED
    case AlreadyMapped => CUDA_ERROR_ALREADY_MAPPED
    case NoBinaryForGpu => CUDA_ERROR_NO_BINARY_FOR_GPU
    case AlreadyAcquired => CUDA_ERROR_ALREADY_ACQUIRED
    case NotMapped => CUDA_ERROR_NOT_MAPPED
    case NotMappedAsArray => CUDA_ERROR_NOT_MAPPED_AS_ARRAY
    case NotMappedAsPointer => CUDA_ERROR_NOT_MAPPED_AS_POINTER
    case EccUncorrectable => CUDA_ERROR_ECC_UNCORRECTABLE
    case UnsupportedLimit => CUDA_ERROR_UNSUPPORTED_LIMIT
    case ContextAlreadyInUse => CUDA_ERROR_CONTEXT_ALREADY_IN_USE
    case PeerAccessUnsupported => CUDA_ERROR_PEER_ACCESS_UNSUPPORTED
    case InvalidPtx => CUDA_ERROR_INVALID_PTX
    case InvalidGraphicsContext => CUDA_ERROR_INVALID_GRAPHICS_CONTEXT
    case NvlinkUncorrectable => CUDA_ERROR_NVLINK_UNCORRECTABLE
    case InvalidSource => CUDA_ERROR_INVALID_SOURCE
    case FileNotFound => CUDA_ERROR_FILE_NOT_FOUND
    case SharedObjectSymbolNotFound => CUDA_ERROR_SHARED_OBJECT_SYMBOL_NOT_FOUND
    case SharedObjectInitFailed => CUDA_ERROR_SHARED_OBJECT_INIT_FAILED
    case OperatingSystem => CUDA_ERROR_OPERATING_SYSTEM
    case InvalidHandle => CUDA_ERROR_INVALID_HANDLE
    case NotFound => CUDA_ERROR_NOT_FOUND
    case NotReady => CUDA_ERROR_NOT_READY
    case IllegalAddress => CUDA_ERROR_ILLEGAL_ADDRESS
    case LaunchOutOfResources => CUDA_ERROR_LAUNCH_OUT_OF_RESOURCES
    case LaunchTimeout => CUDA_ERROR_LAUNCH_TIMEOUT
    case LaunchIncompatibleTexturing => CUDA_ERROR_LAUNCH_INCOMPATIBLE_TEXTURING
    case PeerAccessAlreadyEnabled => CUDA_ERROR_PEER_ACCESS_ALREADY_ENABLED
    case PeerAccessNotEnabled => CUDA_ERROR_PEER_ACCESS_NOT_ENABLED
    case PrimaryContextActive => CUDA_ERROR_PRIMARY_CONTEXT_ACTIVE
    case ContextIsDestroyed => CUDA_ERROR_CONTEXT_IS_DESTROYED
    case Assert => CUDA_ERROR_ASSERT
    case TooManyPeers => CUDA_ERROR_TOO_MANY_PEERS
    case HostMemoryAlreadyRegistered => CUDA_ERROR_HOST_MEMORY_ALREADY_REGISTERED
    case HostMemoryNotRegistered => CUDA_ERROR_HOST_MEMORY_NOT_REGISTERED
    case HardwareStackError => CUDA_ERROR_HARDWARE_STACK_ERROR
    case IllegalInstruction => CUDA_ERROR_ILLEGAL_INSTRUCTION
    case MisalignedAddress => CUDA_ERROR_MISALIGNED_ADDRESS
    case InvalidAddressSpace => CUDA_ERROR_INVALID_ADDRESS_SPACE
    case InvalidPc => CUDA_ERROR_INVALID_PC
    case LaunchFailed => CUDA_ERROR_LAUNCH_FAILED
    case NotPermitted => CUDA_ERROR_NOT_PERMITTED
    case NotSupported => CUDA_ERROR_NOT_SUPPORTED
    case Unknown => CUDA_ERROR_UNKNOWN
  }

  /** Converting an error status to its kind and back gives the same status. */
  lemma StatusOfKindOf(status: Status)
    requires status != CUDA_SUCCESS
    ensures StatusOf(KindOf(status)) == status
  {
    match status
    case CUDA_ERROR_INVALID_VALUE => KindOfRoundTrip1(status);
    case CUDA_ERROR_OUT_OF_MEMORY => KindOfRoundTrip1(status);
    case CUDA_ERROR_NOT_INITIALIZED => KindOfRoundTrip1(status);
    case CUDA_ERROR_DEINITIALIZED => KindOfRoundTrip1(status);
    case CUDA_ERROR_PROFILER_DISABLED => KindOfRoundTrip1(status);
    case CUDA_ERROR_PROFILER_NOT_INITIALIZED => KindOfRoundTrip1(status);
    case CUDA_ERROR_PROFILER_ALREADY_STARTED => KindOfRoundTrip1(status);
    case CUDA_ERROR_PROFILER_ALREADY_STOPPED => KindOfRoundTrip1(status);
    case CUDA_ERROR_NO_DEVICE => KindOfRoundTrip2(status);
    case CUDA_ERROR_INVALID_DEVICE => KindOfRoundTrip2(status);
    case CUDA_ERROR_INVALID_IMAGE => KindOfRoundTrip2(status);
    case CUDA_ERROR_INVALID_CONTEXT => KindOfRoundTrip2(status);
    case CUDA_ERROR_CONTEXT_ALREADY_CURRENT => KindOfRoundTrip2(status);
    case CUDA_ERROR_MAP_FAILED => KindOfRoundTrip2(status);
    case CUDA_ERROR_UNMAP_FAILED => KindOfRoundTrip2(status);
    case CUDA_ERROR_ARRAY_IS_MAPPED => KindOfRoundTrip2(status);
    case CUDA_ERROR_ALREADY_MAPPED => KindOfRoundTrip3(status);
    case CUDA_ERROR_NO_BINARY_FOR_GPU => KindOfRoundTrip3(status);
    case CUDA_ERROR_ALREADY_ACQUIRED => KindOfRoundTrip3(status);
    case CUDA_ERROR_NOT_MAPPED => KindOfRoundTrip3(status);
    case CUDA_ERROR_NOT_MAPPED_AS_ARRAY => KindOfRoundTrip3(status);
    case CUDA_ERROR_NOT_MAPPED_AS_POINTER => KindOfRoundTrip3(status);
    case CUDA_ERROR_ECC_UNCORRECTABLE => KindOfRoundTrip3(status);
    case CUDA_ERROR_UNSUPPORTED_LIMIT => KindOfRoundTrip3(status);
    case CUDA_ERROR_CONTEXT_ALREADY_IN_USE => KindOfRoundTrip4(status);
    case CUDA_ERROR_PEER_ACCESS_UNSUPPORTED => KindOfRoundTrip4(status);
    case CUDA_ERROR_INVALID_PTX => KindOfRoundTrip4(status);
    case CUDA_ERROR_INVALID_GRAPHICS_CONTEXT => KindOfRoundTrip4(status);
    case CUDA_ERROR_NVLINK_UNCORRECTABLE => KindOfRoundTrip4(status);
    case CUDA_ERROR_INVALID_SOURCE => KindOfRoundTrip4(status);
    case CUDA_ERROR_FILE_NOT_FOUND => KindOfRoundTrip4(status);
    case CUDA_ERROR_SHARED_OBJECT_SYMBOL_NOT_FOUND => KindOfRoundTrip4(status);
    case CUDA_ERROR_SHARED_OBJECT_INIT_FAILED => KindOfRoundTrip5(status);
    case CUDA_ERROR_OPERATING_SYSTEM => KindOfRoundTrip5(status);
    case CUDA_ERROR_INVALID_HANDLE => KindOfRoundTrip5(status);
    case CUDA_ERROR_NOT_FOUND => KindOfRoundTrip5(status);
    case CUDA_ERROR_NOT_READY => KindOfRoundTrip5(status);
    case CUDA_ERROR_ILLEGAL_ADDRESS => KindOfRoundTrip5(status);
    case CUDA_ERROR_LAUNCH_OUT_OF_RESOURCES => KindOfRoundTrip5(status);
    case CUDA_ERROR_LAUNCH_TIMEOUT => KindOfRoundTrip5(status);
    case CUDA_ERROR_LAUNCH_INCOMPATIBLE_TEXTURING => KindOfRoundTrip6(status);
    case CUDA_ERROR_PEER_ACCESS_ALREADY_ENABLED => KindOfRoundTrip6(status);
    case CUDA_ERROR_PEER_ACCESS_NOT_ENABLED => KindOfRoundTrip6(status);
    case CUDA_ERROR_PRIMARY_CONTEXT_ACTIVE => KindOfRoundTrip6(status);
    case CUDA_ERROR_CONTEXT_IS_DESTROYED => KindOfRoundTrip6(status);
    case CUDA_ERROR_ASSERT => KindOfRoundTrip6(status);
    case CUDA_ERROR_TOO_MANY_PEERS => KindOfRoundTrip6(status);
    case CUDA_ERROR_HOST_MEMORY_ALREADY_REGISTERED => KindOfRoundTrip6(status);
    case CUDA_ERROR_HOST_MEMORY_NOT_REGISTERED => KindOfRoundTrip7(status);
    case CUDA_ERROR_HARDWARE_STACK_ERROR => KindOfRoundTrip7(status);
    case CUDA_ERROR_ILLEGAL_INSTRUCTION => KindOfRoundTrip7(status);
    case CUDA_ERROR_MISALIGNED_ADDRESS => KindOfRoundTrip7(status);
    case CUDA_ERROR_INVALID_ADDRESS_SPACE => KindOfRoundTrip7(status);
    case CUDA_ERROR_INVALID_PC => KindOfRoundTrip7(status);
    case CUDA_ERROR_LAUNCH_FAILED => KindOfRoundTrip7(status);
    case CUDA_ERROR_NOT_PERMITTED => KindOfRoundTrip7(status);
    case CUDA_ERROR_NOT_SUPPORTED => KindOfRoundTrip8(status);
    case CUDA_ERROR_UNKNOWN => KindOfRoundTrip8(status);
  }

  /** `StatusOfKindOf` for one group of statuses, kept apart so that each
      proof stays small. */
  lemma KindOfRoundTrip1(status: Status)
    requires status == CUDA_ERROR_INVALID_VALUE ||
      status == CUDA_ERROR_OUT_OF_MEMORY ||
      status == CUDA_ERROR_NOT_INITIALIZED ||
      status == CUDA_ERROR_DEINITIALIZED ||
      status == CUDA_ERROR_PROFILER_DISABLED ||
      status == CUDA_ERROR_PROFILER_NOT_INITIALIZED ||
      status == CUDA_ERROR_PROFILER_ALREADY_STARTED ||
      status == CUDA_ERROR_PROFILER_ALREADY_STOPPED
    ensures StatusOf(KindOf(status)) == status
  {
  }

  /** `StatusOfKindOf` for one group of statuses, kept apart so that each
      proof stays small. */
  lemma KindOfRoundTrip2(status: Status)
    requires status == CUDA_ERROR_NO_DEVICE ||
      status == CUDA_ERROR_INVALID_DEVICE ||
      status == CUDA_ERROR_INVALID_IMAGE ||
      status == CUDA_ERROR_INVALID_CONTEXT ||
      status == CUDA_ERROR_CONTEXT_ALREADY_CURRENT ||
      status == CUDA_ERROR_MAP_FAILED ||
      status == CUDA_ERROR_UNMAP_FAILED ||
      status == CUDA_ERROR_ARRAY_IS_MAPPED
    ensures StatusOf(KindOf(status)) == status
  {
  }

  /** `StatusOfKindOf` for one group of statuses, kept apart so that each
      proof stays small. */
  lemma KindOfRoundTrip3(status: Status)
    requires status == CUDA_ERROR_ALREADY_MAPPED ||
      status == CUDA_ERROR_NO_BINARY_FOR_GPU ||
      status == CUDA_ERROR_ALREADY_ACQUIRED ||
      status == CUDA_ERROR_NOT_MAPPED ||
      status == CUDA_ERROR_NOT_MAPPED_AS_ARRAY ||
      status == CUDA_ERROR_NOT_MAPPED_AS_POINTER ||
      status == CUDA_ERROR_ECC_UNCORRECTABLE ||
      status == CUDA_ERROR_UNSUPPORTED_LIMIT
    ensures StatusOf(KindOf(status)) == status
  {
  }

  /** `StatusOfKindOf` for one group of statuses, kept apart so that each
      proof stays small. */
  lemma KindOfRoundTrip4(status: Status)
    requires status == CUDA_ERROR_CONTEXT_ALREADY_IN_USE ||
      status == CUDA_ERROR_PEER_ACCESS_UNSUPPORTED ||
      status == CUDA_ERROR_INVALID_PTX ||
      status == CUDA_ERROR_INVALID_GRAPHICS_CONTEXT ||
      status == CUDA_ERROR_NVLINK_UNCORRECTABLE ||
      status == CUDA_ERROR_INVALID_SOURCE ||
      status == CUDA_ERROR_FILE_NOT_FOUND ||
      status == CUDA_ERROR_SHARED_OBJECT_SYMBOL_NOT_FOUND
    ensures StatusOf(KindOf(status)) == status
  {
  }

  /** `StatusOfKindOf` for one group of statuses, kept apart so that each
      proof stays small. */
  lemma KindOfRoundTrip5(status: Status)
    requires status == CUDA_ERROR_SHARED_OBJECT_INIT_FAILED ||
      status == CUDA_ERROR_OPERATING_SYSTEM ||
      status == CUDA_ERROR_INVALID_HANDLE ||
      status == CUDA_ERROR_NOT_FOUND ||
      status == CUDA_ERROR_NOT_READY ||
      status == CUDA_ERROR_ILLEGAL_ADDRESS ||
      status == CUDA_ERROR_LAUNCH_OUT_OF_RESOURCES ||
      status == CUDA_ERROR_LAUNCH_TIMEOUT
    ensures StatusOf(KindOf(status)) == status
  {
  }

  /** `StatusOfKindOf` for one group of statuses, kept apart so that each
      proof stays small. */
  lemma KindOfRoundTrip6(status: Status)
    requires status == CUDA_ERROR_LAUNCH_INCOMPATIBLE_TEXTURING ||
      status == CUDA_ERROR_PEER_ACCESS_ALREADY_ENABLED ||
      status == CUDA_ERROR_PEER_ACCESS_NOT_ENABLED ||
      status == CUDA_ERROR_PRIMARY_CONTEXT_ACTIVE ||
      status == CUDA_ERROR_CONTEXT_IS_DESTROYED ||
      status == CUDA_ERROR_ASSERT ||
      status == CUDA_ERROR_TOO_MANY_PEERS ||
      status == CUDA_ERROR_HOST_MEMORY_ALREADY_REGISTERED
    ensures StatusOf(KindOf(status)) == status
  {
  }

  /** `StatusOfKindOf` for one group of statuses, kept apart so that each
      proof stays small. */
  lemma KindOfRoundTrip7(status: Status)
    requires status == CUDA_ERROR_HOST_MEMORY_NOT_REGISTERED ||
      status == CUDA_ERROR_HARDWARE_STACK_ERROR ||
      status == CUDA_ERROR_ILLEGAL_INSTRUCTION ||
      status == CUDA_ERROR_MISALIGNED_ADDRESS ||
      status == CUDA_ERROR_INVALID_ADDRESS_SPACE ||
      status == CUDA_ERROR_INVALID_PC ||
      status == CUDA_ERROR_LAUNCH_FAILED ||
      status == CUDA_ERROR_NOT_PERMITTED
    ensures StatusOf(KindOf(status)) == status
  {
  }

  /** `StatusOfKindOf` for one group of statuses, kept apart so that each
      proof stays small. */
  lemma KindOfRoundTrip8(status: Status)
    requires status == CUDA_ERROR_NOT_SUPPORTED ||
      status == CUDA_ERROR_UNKNOWN
    ensures StatusOf(KindOf(status)) == status
  {
  }

  /** No two error statuses convert to the same kind. */
  lemma KindOfInjective(s: Status, t: Status)
    requires s != CUDA_SUCCESS && t != CUDA_SUCCESS && KindOf(s) == KindOf(t)
    ensures s == t
  {
    StatusOfKindOf(s);
    StatusOfKindOf(t);
  }

  /** `as_str`: the message of every kind. */
  function AsStr(kind: ErrorKind): string
  {
    match kind
    case InvalidValue => "one or more of the parameters passed to the API call is not within an acceptable range of values"
    case OutOfMemory => "unable to allocate enough memory to perform the requested operation"
    case NotInitialized => "either the CUDA driver has not been initialized or the initialization has failed"
    case Deinitialized => "the CUDA driver is in the process of shutting down"
    case ProfilerDisabled => "profiler is not initialized for this run"
    case ProfilerNotInitialized => "[deprecated]"
    case ProfilerAlreadyStarted => "[deprecated]"
    case ProfilerAlreadyStopped => "[deprecated]"
    case NoDevice => "no CUDA-capable devices were detected by the installed CUDA driver."
    case InvalidDevice => "the device ordinal supplied by the user does not correspond to a valid CUDA device"
    case InvalidImage => "the device kernel image or Cuda module is invalid"
    case InvalidContext => "invalid context"
    case ContextAlreadyCurrent => "[deprecated]"
    case MapFailed => "a map or register operation has failed"
    case UnmapFailed => "an unmap or unregister operation has failed"
    case ArrayIsMapped => "the specified array is currently mapped and thus cannot be destroyed"
    case AlreadyMapped => "the resource is already mapped"
    case NoBinaryForGpu => "there is no kernel image available that is suitable for the device"
    case AlreadyAcquired => "resource has already been acquired"
    case NotMapped => "resource is not mapped"
    case NotMappedAsArray => "mapped resource is not available for access as an array"
    case NotMappedAsPointer => "mapped resource is not available for access as a pointer"
    case EccUncorrectable => "an uncorrectable ECC error was detected during execution"
    case UnsupportedLimit => "the CUlimit passed to the API call is not supported by the active device"
    case ContextAlreadyInUse => "the CUcontext passed to the API call can only be bound to a single CPU thread at a time but is already bound to a CPU thread"
    case PeerAccessUnsupported => "peer access is not supported across the given devices"
    case InvalidPtx => "a PTX JIT compilation failed"
    case InvalidGraphicsContext => "an OpenGL or DirectX context error occurred"
    case NvlinkUncorrectable => "an uncorrectable NVLink error was detected during the execution"
    case InvalidSource => "the device kernel source is invalid"
    case FileNotFound => "the file specified was not found"
    case SharedObjectSymbolNotFound => "a link to a shared object failed to resolve"
    case SharedObjectInitFailed => "initialization of a shared object failed"
    case OperatingSystem => "an OS call failed"
    case InvalidHandle => "a resource handle passed to the API call was not valid"
    case NotFound => "named symbol was not found"
    case NotReady => "asynchronous operations issued previously have not completed yet"
    case IllegalAddress => "while executing a kernel, the device encountered a load or store instruction on an invalid memory address"
    case LaunchOutOfResources => "launch did not occur because it did not have appropriate resources"
    case LaunchTimeout => "the device kernel took too long to execute"
    case LaunchIncompatibleTexturing => "kernel launch uses an incompatible texturing mode"
    case PeerAccessAlreadyEnabled => "a call to cuCtxEnablePeerAccess() is trying to re-enable peer access to a context which has already had peer access to it enabled"
    case PeerAccessNotEnabled => "cuCtxDisablePeerAccess() is trying to disable peer access which has not been enabled yet via cuCtxEnablePeerAccess()"
    case PrimaryContextActive => "the primary context for the specified device has already been initialized"
    case ContextIsDestroyed => "calling thread context has been destroyed or is a primary context which has not yet been initialized"
    case Assert => "a device-side assert triggered during kernel execution"
    case TooManyPeers => "the hardware resources required to enable peer access have been exhausted for one or more of the devices passed to cuCtxEnablePeerAccess()"
    case HostMemoryAlreadyRegistered => "the memory range passed to cuMemHostRegister() has already been registered"
    case HostMemoryNotRegistered => "the pointer passed to cuMemHostUnregister() does not correspond to any currently registered memory region"
    case HardwareStackError => "while executing a kernel, the device encountered a stack error"
    case IllegalInstruction => "while executing a kernel, the device encountered an illegal instruction"
    case MisalignedAddress => "misaligned address"
    case InvalidAddressSpace => "invalid address space"
    case InvalidPc => "while executing a kernel, the device program counter wrapped its address space"
    case LaunchFailed => "exception occurred on the device while executing a kernel"
    case NotPermitted => "the attempted operation is not permitted"
    case NotSupported => "the attempted operation is not supported on the current system or device"
    case Unknown => "an unknown internal error has occurred"
  }

  /** The deprecated kinds read "[deprecated]". */
  lemma DeprecatedMessages()
    ensures AsStr(ProfilerNotInitialized) == "[deprecated]"
    ensures AsStr(ProfilerAlreadyStarted) == "[deprecated]"
    ensures AsStr(ProfilerAlreadyStopped) == "[deprecated]"
    ensures AsStr(ContextAlreadyCurrent) == "[deprecated]"
  {
  }

  /** An error made from the kind of an error status carries no payload, reports
      that kind and describes itself with the kind's message. */
  lemma StatusErrorFacts(status: Status)
    requires status != CUDA_SUCCESS
    ensures var e := FromKind(KindOf(status));
      GetRef(e).None? && Kind(e) == KindOf(status) && Description(e, AsStr) == AsStr(KindOf(status)) &&
      Display(e, AsStr) == Description(e, AsStr)
  {
  }
}
