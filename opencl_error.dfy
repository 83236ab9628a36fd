/** The OpenCL statuses and the error kinds they convert to
    (`frameworks/opencl/src/error.rs`). The error value itself is `ErrorCore.Error`. */
module OpenClError {
  import opened ErrorCore
  import opened Wrappers

  /** The driver's `CLStatus`: success and every error status. */
  datatype Status =
    | CL_SUCCESS
    | CL_DEVICE_NOT_FOUND
    | CL_DEVICE_NOT_AVAILABLE
    | CL_COMPILER_NOT_AVAILABLE
    | CL_MEM_OBJECT_ALLOCATION_FAILURE
    | CL_OUT_OF_RESOURCES
    | CL_OUT_OF_HOST_MEMORY
    | CL_PROFILING_INFO_NOT_AVAILABLE
    | CL_MEM_COPY_OVERLAP
    | CL_IMAGE_FORMAT_MISMATCH
    | CL_IMAGE_FORMAT_NOT_SUPPORTED
    | CL_BUILD_PROGRAM_FAILURE
    | CL_MAP_FAILURE
    | CL_MISALIGNED_SUB_BUFFER_OFFSET
    | CL_EXEC_STATUS_ERROR_FOR_EVENTS_IN_WAIT_LIST
    | CL_INVALID_VALUE
    | CL_INVALID_DEVICE_TYPE
    | CL_INVALID_PLATFORM
    | CL_INVALID_DEVICE
    | CL_INVALID_CONTEXT
    | CL_INVALID_QUEUE_PROPERTIES
    | CL_INVALID_COMMAND_QUEUE
    | CL_INVALID_HOST_PTR
    | CL_INVALID_MEM_OBJECT
    | CL_INVALID_IMAGE_FORMAT_DESCRIPTOR
    | CL_INVALID_IMAGE_SIZE
    | CL_INVALID_SAMPLER
    | CL_INVALID_BINARY
    | CL_INVALID_BUILD_OPTIONS
    | CL_INVALID_PROGRAM
    | CL_INVALID_PROGRAM_EXECUTABLE
    | CL_INVALID_KERNEL_NAME
    | CL_INVALID_KERNEL_DEFINITION
    | CL_INVALID_KERNEL
    | CL_INVALID_ARG_INDEX
    | CL_INVALID_ARG_VALUE
    | CL_INVALID_ARG_SIZE
    | CL_INVALID_KERNEL_ARGS
    | CL_INVALID_WORK_DIMENSION
    | CL_INVALID_WORK_GROUP_SIZE
    | CL_INVALID_WORK_ITEM_SIZE
    | CL_INVALID_GLOBAL_OFFSET
    | CL_INVALID_EVENT_WAIT_LIST
    | CL_INVALID_EVENT
    | CL_INVALID_OPERATION
    | CL_INVALID_GL_OBJECT
    | CL_INVALID_BUFFER_SIZE
    | CL_INVALID_MIP_LEVEL
    | CL_INVALID_GLOBAL_WORK_SIZE
    | CL_INVALID_PROPERTY
    | CL_PLATFORM_NOT_FOUND_KHR

  datatype ErrorKind =
    | DeviceNotFound
    | DeviceNotAvailable
    | CompilerNotAvailable
    | MemObjectAllocationFailure
    | OutOfResources
    | OutOfHostMemory
    | ProfilingInfoNotAvailable
    | MemCopyOverlap
    | ImageFormatMismatch
    | ImageFormatNotSupported
    | BuildProgramFailure
    | MapFailure
    | MisalignedSubBufferOffset
    | ExecStatusErrorForEventsInWaitList
    | InvalidValue
    | InvalidDeviceType
    | InvalidPlatform
    | InvalidDevice
    | InvalidContext
    | InvalidQueueProperties
    | InvalidCommandQueue
    | InvalidHostPtr
    | InvalidMemObject
    | InvalidImageFormatDescriptor
    | InvalidImageSize
    | InvalidSampler
    | InvalidBinary
    | InvalidBuildOptions
    | InvalidProgram
    | InvalidProgramExecutable
    | InvalidKernelName
    | InvalidKernelDefinition
    | InvalidKernel
    | InvalidArgIndex
    | InvalidArgValue
    | InvalidArgSize
    | InvalidKernelArgs
    | InvalidWorkDimension
    | InvalidWorkGroupSize
    | InvalidWorkItemSize
    | InvalidGlobalOffset
    | InvalidEventWaitList
    | InvalidEvent
    | InvalidOperation
    | InvalidGlObject
    | InvalidBufferSize
    | InvalidMipLevel
    | InvalidGlobalWorkSize
    | InvalidProperty
    | PlatformNotFoundKhr

  /** `From<CLStatus> for ErrorKind`: every error status maps to the kind of the same name;
      converting `CL_SUCCESS` is unreachable. */
  function KindOf(status: Status): (kind: ErrorKind)
    requires status != CL_SUCCESS
  {
    match status
    case CL_DEVICE_NOT_FOUND => DeviceNotFound
    case CL_DEVICE_NOT_AVAILABLE => DeviceNotAvailable
    case CL_COMPILER_NOT_AVAILABLE => CompilerNotAvailable
    case CL_MEM_OBJECT_ALLOCATION_FAILURE => MemObjectAllocationFailure
    case CL_OUT_OF_RESOURCES => OutOfResources
    case CL_OUT_OF_HOST_MEMORY => OutOfHostMemory
    case CL_PROFILING_INFO_NOT_AVAILABLE => ProfilingInfoNotAvailable
    case CL_MEM_COPY_OVERLAP => MemCopyOverlap
    case CL_IMAGE_FORMAT_MISMATCH => ImageFormatMismatch
    case CL_IMAGE_FORMAT_NOT_SUPPORTED => ImageFormatNotSupported
    case CL_BUILD_PROGRAM_FAILURE => BuildProgramFailure
    case CL_MAP_FAILURE => MapFailure
    case CL_MISALIGNED_SUB_BUFFER_OFFSET => MisalignedSubBufferOffset
    case CL_EXEC_STATUS_ERROR_FOR_EVENTS_IN_WAIT_LIST => ExecStatusErrorForEventsInWaitList
    case CL_INVALID_VALUE => InvalidValue
    case CL_INVALID_DEVICE_TYPE => InvalidDeviceType
    case CL_INVALID_PLATFORM => InvalidPlatform
    case CL_INVALID_DEVICE => InvalidDevice
    case CL_INVALID_CONTEXT => InvalidContext
    case CL_INVALID_QUEUE_PROPERTIES => InvalidQueueProperties
    case CL_INVALID_COMMAND_QUEUE => InvalidCommandQueue
    case CL_INVALID_HOST_PTR => InvalidHostPtr
    case CL_INVALID_MEM_OBJECT => InvalidMemObject
    case CL_INVALID_IMAGE_FORMAT_DESCRIPTOR => InvalidImageFormatDescriptor
    case CL_INVALID_IMAGE_SIZE => InvalidImageSize
    case CL_INVALID_SAMPLER => InvalidSampler
    case CL_INVALID_BINARY => InvalidBinary
    case CL_INVALID_BUILD_OPTIONS => InvalidBuildOptions
    case CL_INVALID_PROGRAM => InvalidProgram
    case CL_INVALID_PROGRAM_EXECUTABLE => InvalidProgramExecutable
    case CL_INVALID_KERNEL_NAME => InvalidKernelName
    case CL_INVALID_KERNEL_DEFINITION => InvalidKernelDefinition
    case CL_INVALID_KERNEL => InvalidKernel
    case CL_INVALID_ARG_INDEX => InvalidArgIndex
    case CL_INVALID_ARG_VALUE => InvalidArgValue
    case CL_INVALID_ARG_SIZE => InvalidArgSize
    case CL_INVALID_KERNEL_ARGS => InvalidKernelArgs
    case CL_INVALID_WORK_DIMENSION => InvalidWorkDimension
    case CL_INVALID_WORK_GROUP_SIZE => InvalidWorkGroupSize
    case CL_INVALID_WORK_ITEM_SIZE => InvalidWorkItemSize
    case CL_INVALID_GLOBAL_OFFSET => InvalidGlobalOffset
    case CL_INVALID_EVENT_WAIT_LIST => InvalidEventWaitList
    case CL_INVALID_EVENT => InvalidEvent
    case CL_INVALID_OPERATION => InvalidOperation
    case CL_INVALID_GL_OBJECT => InvalidGlObject
    case CL_INVALID_BUFFER_SIZE => InvalidBufferSize
    case CL_INVALID_MIP_LEVEL => InvalidMipLevel
    case CL_INVALID_GLOBAL_WORK_SIZE => InvalidGlobalWorkSize
    case CL_INVALID_PROPERTY => InvalidProperty
    case CL_PLATFORM_NOT_FOUND_KHR => PlatformNotFoundKhr
  }

  /** The status each kind is converted from. */
  function StatusOf(kind: ErrorKind): (status: Status)
    ensures status != CL_SUCCESS
  {
    match kind
    case DeviceNotFound => CL_DEVICE_NOT_FOUND
    case DeviceNotAvailable => CL_DEVICE_NOT_AVAILABLE
    case CompilerNotAvailable => CL_COMPILER_NOT_AVAILABLE
    case MemObjectAllocationFailure => CL_MEM_OBJECT_ALLOCATION_FAILURE
    case OutOfResources => CL_OUT_OF_RESOURCES
    case OutOfHostMemory => CL_OUT_OF_HOST_MEMORY
    case ProfilingInfoNotAvailable => CL_PROFILING_INFO_NOT_AVAILABLE
    case MemCopyOverlap => CL_MEM_COPY_OVERLAP
    case ImageFormatMismatch => CL_IMAGE_FORMAT_MISMATCH
    case ImageFormatNotSupported => CL_IMAGE_FORMAT_NOT_SUPPORTED
    case BuildProgramFailure => CL_BUILD_PROGRAM_FAILURE
    case MapFailure => CL_MAP_FAILURE
    case MisalignedSubBufferOffset => CL_MISALIGNED_SUB_BUFFER_OFFSET
    case ExecStatusErrorForEventsInWaitList => CL_EXEC_STATUS_ERROR_FOR_EVENTS_IN_WAIT_LIST
    case InvalidValue => CL_INVALID_VALUE
    case InvalidDeviceType => CL_INVALID_DEVICE_TYPE
    case InvalidPlatform => CL_INVALID_PLATFORM
    case InvalidDevice => CL_INVALID_DEVICE
    case InvalidContext => CL_INVALID_CONTEXT
    case InvalidQueueProperties => CL_INVALID_QUEUE_PROPERTIES
    case InvalidCommandQueue => CL_INVALID_COMMAND_QUEUE
    case InvalidHostPtr => CL_INVALID_HOST_PTR
    case InvalidMemObject => CL_INVALID_MEM_OBJECT
    case InvalidImageFormatDescriptor => CL_INVALID_IMAGE_FORMAT_DESCRIPTOR
    case InvalidImageSize => CL_INVALID_IMAGE_SIZE
    case InvalidSampler => CL_INVALID_SAMPLER
    case InvalidBinary => CL_INVALID_BINARY
    case InvalidBuildOptions => CL_INVALID_BUILD_OPTIONS
    case InvalidProgram => CL_INVALID_PROGRAM
    case InvalidProgramExecutable => CL_INVALID_PROGRAM_EXECUTABLE
    case InvalidKernelName => CL_INVALID_KERNEL_NAME
    case InvalidKernelDefinition => CL_INVALID_KERNEL_DEFINITION
    case InvalidKernel => CL_INVALID_KERNEL
    case InvalidArgIndex => CL_INVALID_ARG_INDEX
    case InvalidArgValue => CL_INVALID_ARG_VALUE
    case InvalidArgSize => CL_INVALID_ARG_SIZE
    case InvalidKernelArgs => CL_INVALID_KERNEL_ARGS
    case InvalidWorkDimension => CL_INVALID_WORK_DIMENSION
    case InvalidWorkGroupSize => CL_INVALID_WORK_GROUP_SIZE
    case InvalidWorkItemSize => CL_INVALID_WORK_ITEM_SIZE
    case InvalidGlobalOffset => CL_INVALID_GLOBAL_OFFSET
    case InvalidEventWaitList => CL_INVALID_EVENT_WAIT_LIST
    case InvalidEvent => CL_INVALID_EVENT
    case InvalidOperation => CL_INVALID_OPERATION
    case InvalidGlObject => CL_INVALID_GL_OBJECT
    case InvalidBufferSize => CL_INVALID_BUFFER_SIZE
    case InvalidMipLevel => CL_INVALID_MIP_LEVEL
    case InvalidGlobalWorkSize => CL_INVALID_GLOBAL_WORK_SIZE
    case InvalidProperty => CL_INVALID_PROPERTY
    case PlatformNotFoundKhr => CL_PLATFORM_NOT_FOUND_KHR
  }

  /** Converting an error status to its kind and back gives the same status. */
  lemma StatusOfKindOf(status: Status)
    requires status != CL_SUCCESS
    ensures StatusOf(KindOf(status)) == status
  {
    match status
    case CL_DEVICE_NOT_FOUND => KindOfRoundTrip1(status);
    case CL_DEVICE_NOT_AVAILABLE => KindOfRoundTrip1(status);
    case CL_COMPILER_NOT_AVAILABLE => KindOfRoundTrip1(status);
    case CL_MEM_OBJECT_ALLOCATION_FAILURE => KindOfRoundTrip1(status);
    case CL_OUT_OF_RESOURCES => KindOfRoundTrip1(status);
    case CL_OUT_OF_HOST_MEMORY => KindOfRoundTrip1(status);
    case CL_PROFILING_INFO_NOT_AVAILABLE => KindOfRoundTrip1(status);
    case CL_MEM_COPY_OVERLAP => KindOfRoundTrip1(status);
    case CL_IMAGE_FORMAT_MISMATCH => KindOfRoundTrip2(status);
    case CL_IMAGE_FORMAT_NOT_SUPPORTED => KindOfRoundTrip2(status);
    case CL_BUILD_PROGRAM_FAILURE => KindOfRoundTrip2(status);
    case CL_MAP_FAILURE => KindOfRoundTrip2(status);
    case CL_MISALIGNED_SUB_BUFFER_OFFSET => KindOfRoundTrip2(status);
    case CL_EXEC_STATUS_ERROR_FOR_EVENTS_IN_WAIT_LIST => KindOfRoundTrip2(status);
    case CL_INVALID_VALUE => KindOfRoundTrip2(status);
    case CL_INVALID_DEVICE_TYPE => KindOfRoundTrip2(status);
    case CL_INVALID_PLATFORM => KindOfRoundTrip3(status);
    case CL_INVALID_DEVICE => KindOfRoundTrip3(status);
    case CL_INVALID_CONTEXT => KindOfRoundTrip3(status);
    case CL_INVALID_QUEUE_PROPERTIES => KindOfRoundTrip3(status);
    case CL_INVALID_COMMAND_QUEUE => KindOfRoundTrip3(status);
    case CL_INVALID_HOST_PTR => KindOfRoundTrip3(status);
    case CL_INVALID_MEM_OBJECT => KindOfRoundTrip3(status);
    case CL_INVALID_IMAGE_FORMAT_DESCRIPTOR => KindOfRoundTrip3(status);
    case CL_INVALID_IMAGE_SIZE => KindOfRoundTrip4(status);
    case CL_INVALID_SAMPLER => KindOfRoundTrip4(status);
    case CL_INVALID_BINARY => KindOfRoundTrip4(status);
    case CL_INVALID_BUILD_OPTIONS => KindOfRoundTrip4(status);
    case CL_INVALID_PROGRAM => KindOfRoundTrip4(status);
    case CL_INVALID_PROGRAM_EXECUTABLE => KindOfRoundTrip4(status);
    case CL_INVALID_KERNEL_NAME => KindOfRoundTrip4(status);
    case CL_INVALID_KERNEL_DEFINITION => KindOfRoundTrip4(status);
    case CL_INVALID_KERNEL => KindOfRoundTrip5(status);
    case CL_INVALID_ARG_INDEX => KindOfRoundTrip5(status);
    case CL_INVALID_ARG_VALUE => KindOfRoundTrip5(status);
    case CL_INVALID_ARG_SIZE => KindOfRoundTrip5(status);
    case CL_INVALID_KERNEL_ARGS => KindOfRoundTrip5(status);
    case CL_INVALID_WORK_DIMENSION => KindOfRoundTrip5(status);
    case CL_INVALID_WORK_GROUP_SIZE => KindOfRoundTrip5(status);
    case CL_INVALID_WORK_ITEM_SIZE => KindOfRoundTrip5(status);
    case CL_INVALID_GLOBAL_OFFSET => KindOfRoundTrip6(status);
    case CL_INVALID_EVENT_WAIT_LIST => KindOfRoundTrip6(status);
    case CL_INVALID_EVENT => KindOfRoundTrip6(status);
    case CL_INVALID_OPERATION => KindOfRoundTrip6(status);
    case CL_INVALID_GL_OBJECT => KindOfRoundTrip6(status);
    case CL_INVALID_BUFFER_SIZE => KindOfRoundTrip6(status);
    case CL_INVALID_MIP_LEVEL => KindOfRoundTrip6(status);
    case CL_INVALID_GLOBAL_WORK_SIZE => KindOfRoundTrip6(status);
    case CL_INVALID_PROPERTY => KindOfRoundTrip7(status);
    case CL_PLATFORM_NOT_FOUND_KHR => KindOfRoundTrip7(status);
  }

  /** `StatusOfKindOf` for one group of statuses, kept apart so that each
      proof stays small. */
  lemma KindOfRoundTrip1(status: Status)
    requires status == CL_DEVICE_NOT_FOUND ||
      status == CL_DEVICE_NOT_AVAILABLE ||
      status == CL_COMPILER_NOT_AVAILABLE ||
      status == CL_MEM_OBJECT_ALLOCATION_FAILURE ||
      status == CL_OUT_OF_RESOURCES ||
      status == CL_OUT_OF_HOST_MEMORY ||
      status == CL_PROFILING_INFO_NOT_AVAILABLE ||
      status == CL_MEM_COPY_OVERLAP
    ensures StatusOf(KindOf(status)) == status
  {
  }

  /** `StatusOfKindOf` for one group of statuses, kept apart so that each
      proof stays small. */
  lemma KindOfRoundTrip2(status: Status)
    requires status == CL_IMAGE_FORMAT_MISMATCH ||
      status == CL_IMAGE_FORMAT_NOT_SUPPORTED ||
      status == CL_BUILD_PROGRAM_FAILURE ||
      status == CL_MAP_FAILURE ||
      status == CL_MISALIGNED_SUB_BUFFER_OFFSET ||
      status == CL_EXEC_STATUS_ERROR_FOR_EVENTS_IN_WAIT_LIST ||
      status == CL_INVALID_VALUE ||
      status == CL_INVALID_DEVICE_TYPE
    ensures StatusOf(KindOf(status)) == status
  {
  }

  /** `StatusOfKindOf` for one group of statuses, kept apart so that each
      proof stays small. */
  lemma KindOfRoundTrip3(status: Status)
    requires status == CL_INVALID_PLATFORM ||
      status == CL_INVALID_DEVICE ||
      status == CL_INVALID_CONTEXT ||
      status == CL_INVALID_QUEUE_PROPERTIES ||
      status == CL_INVALID_COMMAND_QUEUE ||
      status == CL_INVALID_HOST_PTR ||
      status == CL_INVALID_MEM_OBJECT ||
      status == CL_INVALID_IMAGE_FORMAT_DESCRIPTOR
    ensures StatusOf(KindOf(status)) == status
  {
  }

  /** `StatusOfKindOf` for one group of statuses, kept apart so that each
      proof stays small. */
  lemma KindOfRoundTrip4(status: Status)
    requires status == CL_INVALID_IMAGE_SIZE ||
      status == CL_INVALID_SAMPLER ||
      status == CL_INVALID_BINARY ||
      status == CL_INVALID_BUILD_OPTIONS ||
      status == CL_INVALID_PROGRAM ||
      status == CL_INVALID_PROGRAM_EXECUTABLE ||
      status == CL_INVALID_KERNEL_NAME ||
      status == CL_INVALID_KERNEL_DEFINITION
    ensures StatusOf(KindOf(status)) == status
  {
  }

  /** `StatusOfKindOf` for one group of statuses, kept apart so that each
      proof stays small. */
  lemma KindOfRoundTrip5(status: Status)
    requires status == CL_INVALID_KERNEL ||
      status == CL_INVALID_ARG_INDEX ||
      status == CL_INVALID_ARG_VALUE ||
      status == CL_INVALID_ARG_SIZE ||
      status == CL_INVALID_KERNEL_ARGS ||
      status == CL_INVALID_WORK_DIMENSION ||
      status == CL_INVALID_WORK_GROUP_SIZE ||
      status == CL_INVALID_WORK_ITEM_SIZE
    ensures StatusOf(KindOf(status)) == status
  {
  }

  /** `StatusOfKindOf` for one group of statuses, kept apart so that each
      proof stays small. */
  lemma KindOfRoundTrip6(status: Status)
    requires status == CL_INVALID_GLOBAL_OFFSET ||
      status == CL_INVALID_EVENT_WAIT_LIST ||
      status == CL_INVALID_EVENT ||
      status == CL_INVALID_OPERATION ||
      status == CL_INVALID_GL_OBJECT ||
      status == CL_INVALID_BUFFER_SIZE ||
      status == CL_INVALID_MIP_LEVEL ||
      status == CL_INVALID_GLOBAL_WORK_SIZE
    ensures StatusOf(KindOf(status)) == status
  {
  }

  /** `StatusOfKindOf` for one group of statuses, kept apart so that each
      proof stays small. */
  lemma KindOfRoundTrip7(status: Status)
    requires status == CL_INVALID_PROPERTY ||
      status == CL_PLATFORM_NOT_FOUND_KHR
    ensures StatusOf(KindOf(status)) == status
  {
  }

  /** No two error statuses convert to the same kind. */
  lemma KindOfInjective(s: Status, t: Status)
    requires s != CL_SUCCESS && t != CL_SUCCESS && KindOf(s) == KindOf(t)
    ensures s == t
  {
    StatusOfKindOf(s);
    StatusOfKindOf(t);
  }

  /** `description`: the payload's description. `as_str` is unimplemented, so
      only an error with a payload has a description. */
  function Description(e: Error<ErrorKind>): (r: string)
    requires e.payload.Some?
    ensures r == e.payload.value.description
  {
    ErrorCore.Description(e, _ => "")
  }

  /** An error made from the kind of an error status carries no payload and
      reports that kind; one made with a payload hands it back and describes
      itself with it. */
  lemma StatusErrorFacts(status: Status, payload: Payload)
    requires status != CL_SUCCESS
    ensures GetRef(FromKind(KindOf(status))).None? && Kind(FromKind(KindOf(status))) == KindOf(status)
    ensures GetRef(New(KindOf(status), payload)) == Some(payload)
    ensures Description(New(KindOf(status), payload)) == payload.description
  {
  }
}
