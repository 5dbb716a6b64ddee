/** Option and Result types for the two services' lookups that can fail. */
module Wrappers {

  datatype Option<+T> = None | Some(value: T)

  /** The two not-found conditions the services throw. */
  datatype Error =
    | PricingNotFound(homeSize: string)   // getByHomeSize: no catalog entry with that home size
    | QuoteNotFound(id: int)              // getById / delete: no history record with that Id

  datatype Result<+T> = Ok(value: T) | Err(error: Error)
}
