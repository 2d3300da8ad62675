/** Small shared datatypes: an optional value, and the Python exceptions the modelled code can raise. */
module Wrappers {

  /** Python's `None` or a present value. */
  datatype Option<+T> = None | Some(value: T) {
    function GetOr(default: T): T
    {
      match this
      case Some(v) => v
      case None => default
    }
  }

  /** The exceptions the modelled code raises, plus the depth guard of synchronous delivery. */
  datatype PyException =
    | AttributeError   // `.get` called on a string payload
    | TypeError        // list + str, or subscripting a string with a string
    | KeyError         // missing dictionary key
    | ValueError       // `list.index` of an absent element
    | IndexError       // subscript out of range
    | DeliveryDepthExceeded  // a chain of synchronous sends nested deeper than the caller allowed

  /** Either a value or the exception that replaced it. */
  datatype Result<+T> = Ok(value: T) | Err(error: PyException)
}
