/** The failures a storage backend reports, and the result type that carries them. */
module Errors {

  datatype StorageError =
    | LockFailed   // the lock guarding the snapshot could not be acquired
    | NotFound     // the record file does not exist
    | Malformed    // the record could not be read back or decoded
    | WriteFailed  // the record could not be created or written

  datatype Result<T> = Ok(value: T) | Err(error: StorageError)
}
