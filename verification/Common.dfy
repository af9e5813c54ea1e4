/** Vocabulary shared by every layer of the model. */
module Common {
  datatype Option<+T> = None | Some(value: T)

  /** The asio error codes the sources name; every other code is `Other`. */
  datatype ErrorCode =
    | OperationAborted
    | ConnectionReset
    | TimedOut
    | NotConnected
    | MessageSize
    | NoBufferSpace
    | OperationNotSupported
    | InvalidArgument
    | Eof
    | Other(code: nat)

  type Bytes = seq<bv8>
}
