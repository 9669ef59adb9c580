/** Option and Result, the two failure-carrying shapes the client model uses. */
module Wrappers {

  datatype Option<+T> = None | Some(value: T)

  /** The value an expression evaluates to, or the exception it raises. */
  datatype Result<+R, +E> = Success(value: R) | Failure(error: E)
}

/** The Ruby exceptions the client can meet, all of them StandardErrors. */
module RubyErrors {

  datatype RubyError =
    | TransportError   // raised by the HTTP library: connection refused, DNS, timeout, ...
    | ParserError      // JSON::ParserError
    | TypeError        // `[]` with a String argument on an Array or an Integer
    | NoMethodError    // a method the receiver does not have
}
