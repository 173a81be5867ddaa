/**
 * The Python exceptions the modelled code raises or lets escape, and the
 * result of a computation that either returns a value or raises one of them.
 */
module Exceptions {

  datatype Exception =
    | TypeError(message: string)
    | ValueError(message: string)
    | AttributeError(message: string)
    | AssertionError(message: string)
    | DoesNotExist(model: string)
    | MultipleObjectsReturned(model: string)
      /** The database refusing a second row with the same primary key; its message is the backend's. */
    | IntegrityError(model: string)

  datatype Result<T> = Ok(value: T) | Raised(error: Exception)
}
