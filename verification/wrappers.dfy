/** The optional value used for the script's falsy results: a query
    parameter that is not set, a header that could not be fetched, a
    subject whose decoding failed. */
module Wrappers {

  datatype Option<+T> = None | Some(value: T)
}
