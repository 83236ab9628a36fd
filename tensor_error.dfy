/** The error kinds that `src/tensor/mod.rs`, `src/tensor/tensor_shape.rs`,
    `src/tensor/into_tensor.rs` and `src/tensor.rs` raise. The error module those
    files import is not part of this model, so only the kinds they name are
    declared, together with the framework errors that allocation and transfers
    pass through. */
module TensorError {
  import ErrorCore

  datatype ErrorKind =
    | Framework(name: string)
    | IncompatibleShape
    | InvalidReshapedTensorSize
    | UninitializedMemory
    | CapacityExceeded
    | BitmapCapacityExceeded
    | AllocatedMemoryNotFoundForDevice
    | NoAvailableSynchronizationRouteFound
    | MemoryDowncasting
    | Other

  type Failure = ErrorCore.Error<ErrorKind>
}
