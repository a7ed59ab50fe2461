/** The error taxonomy of the client and the result shapes its calls return. */
module Errors {

  /** Every error a client call can report. */
  datatype Error =
    | AlreadyClosed                // ErrAlreadyClosed: Close on a client without a connection
    | Io(cause: string)            // encoding, compression, write, deadline or read failure
    | DialFailed(cause: string)    // TCP dial or TLS handshake failure
    | ScanFailed                   // a decoded value did not have the shape a Scan asked for
    | ZipFailed                    // a dictionary could not be zipped into a string-keyed map
    | SerialMismatch               // "request/response serial id mismatch"
    | EventUnsupported             // "event support not available"
    | UnknownMessageType           // "unknown message type"
    | Remote(exceptionType: string, exceptionMessage: string, traceBack: string)  // RPCError
    | InvalidReturnValue           // ErrInvalidReturnValue
    | InvalidListResult            // ErrInvalidListResult
    | Decode(cause: string)        // a dictionary could not populate a status structure

  /** A value or the error that prevented it (Go's `(T, error)` pair). */
  datatype Result<+T> = Success(value: T) | Failure(error: Error)

  /** A plain `error` return: nil or an error. */
  datatype Outcome = Pass | Fail(error: Error)

  /** An optional value (a Go pointer that may be nil). */
  datatype Option<+T> = None | Some(value: T)
}
