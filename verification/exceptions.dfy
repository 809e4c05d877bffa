/** The Java exceptions the protocol core raises or lets escape, as values. */
module Exceptions {
  import opened Wrappers
  import opened FailInfos

  datatype Exception =
    | NullPointer(message: string)
    | IllegalArgument(message: string)
    | IllegalState
    | UnsupportedOperation
    | ClassCast
    | IndexOutOfBounds
    | NoSuchElement
    | Runtime(message: string)
    | Io(message: string)
    | MessageEncoding(message: string)
    | MessageDecoding(message: string)
    | Transaction(message: string)
    | InvalidNonce(message: string)
    | OperationFailure(failInfo: Option<FailInfo>)
    | Servlet(message: string)
}
