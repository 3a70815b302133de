/** Result and option types shared by every module, and the error conditions the
    field-evaluation layer can raise. */
module Wrappers {

  datatype Option<T> = None | Some(value: T)

  /** The exceptions of the modelled code: the two library exceptions and the
      Python/numpy errors that the modelled code lets escape. */
  datatype Error =
    | BadUserInput          // MagpylibBadUserInput
    | InternalError         // MagpylibInternalError
    | MissingKey(key: string) // KeyError on a keyword-argument lookup
    | BadShape              // numpy/scipy refusing arrays of mismatched shape
    | IndexError            // list index out of range
    | ValueError            // list.remove of an absent element

  datatype Result<T> = Ok(value: T) | Err(error: Error)
}
