/** Failure-carrying wrappers shared by every module of the model. */
module Wrappers {

  /** Python's `None` versus a present value. */
  datatype Option<+T> = None | Some(value: T)

  /** A value, or the exception (or error string) the source raises or returns instead. */
  datatype Result<+T, +E> = Ok(value: T) | Err(error: E)

  /** The exceptions of the source that the model keeps apart. */
  datatype PyError =
    | KeyError(key: string)
    | AttributeError(attr: string)
    | TypeError(what: string)
    | ValueError(what: string)
    | TransportError(what: string)
    | OtherError(what: string)
}
