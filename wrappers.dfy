/** Option and Result, the failure-compatible wrappers the rest of the model returns. */
module Wrappers {

  datatype Option<+T> = None | Some(value: T) {
    function GetOr(default: T): T {
      match this
      case Some(v) => v
      case None => default
    }
  }

  datatype Result<+T, +E> = Ok(value: T) | Err(error: E)
}

/** The exceptions hotelcheck.py raises, one constructor per distinct cause. */
module Errors {

  datatype Error =
    | SendFailed(step: string, reason: string)   // send(): "<step> failed: <reason>"
    | ResultsNotFound                            // "Failed to find search results"
    | MalformedResults                           // fromJS on the captured payload raised
    | IdAttributeWithoutValue                    // attrs['id'] is None, so .lower() raised
    | EmptyInventory                             // min() of an empty inventory raised
    | ReservationUndecodable                     // "Failed to decode reservation"
    | ReservationNotFound                        // "Reservation not found. ..."
    | HashMissing                                // "Hash missing from reservation data"
    | NotADate(arg: string)                      // "... is not a date in the form YYYY-MM-DD"
    | OutsideWindow(arg: string)                 // "... is outside the Gencon housing block window"
    | InvalidFloat(arg: string)                  // "invalid float value: ..."
    | InvalidPasskeyUrl(arg: string)             // "invalid passkey url: ..."
}
