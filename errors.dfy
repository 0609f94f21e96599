/** Error values and the result and option wrappers shared by every module. */
module Errors {

  /** The errors the codec can return. */
  datatype Error =
    | InvalidMessage(code: string)    // ErrInvalidRequestNN / ErrInvalidResponseNN: too short or wrong code
    | ValidationFailed(code: string)  // a Validate() failure for the message with that code
    | SyntaxError                     // strconv.Atoi rejected its input
    | TimeParseError                  // time.Parse rejected its input
    | InvalidFieldPatronStatus        // fields.ErrInvalidFieldPatronStatus
    | InvalidFieldSummary             // fields.ErrInvalidFieldSummary
    | SummaryTooManyFlags(count: int) // Summary.Validate: more than one flag set (how many)
    | UnknownRequest                  // request.ErrUnknownRequest
    | UnknownResponse                 // response.ErrUnknownResponse
    | IndexOutOfRange                 // a Go runtime panic: slice or index past the end
    | ConfigError(fault: ConfigFault) // an error returned by NewServer

  /** The configuration guards of NewServer, one per error it can return. */
  datatype ConfigFault =
    | TimeoutNotPositive              // ConnectionTimeout below one second
    | SameTerminatorAndDelimiter      // the two separators coincide
    | PortOutOfRange                  // port outside 1..65535
    | AddrUnparsable                  // netip.ParseAddr rejected the host
    | AddrPortUnparsable              // netip.ParseAddrPort rejected host:port
    | TerminatorIn(field: ConfigField) // a credential holds the terminator
    | DelimiterIn(field: ConfigField)  // a credential holds the delimiter

  /** The credentials NewServer checks for separators, in the order it checks them. */
  datatype ConfigField = InstitutionIDField | LibraryIDField | TerminalUsernameField | TerminalPasswordField

  datatype Result<+T> = Ok(value: T) | Err(error: Error)

  datatype Option<+T> = None | Some(value: T)
}
