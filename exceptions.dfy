/**
  The .NET exceptions the core throws, catches or wraps, as values.
  Only the facts the core inspects are kept: the exception's type, the
  message it was built with where the core builds it, and the inner exception.
 */
module Exceptions {
  import opened Wrappers

  datatype Exception =
    | ArgumentNull(paramName: string)                      // System.ArgumentNullException
    | Argument(message: string)                            // System.ArgumentException
    | ArgumentOutOfRange(paramName: string)                // System.ArgumentOutOfRangeException
    | NotImplemented                                       // System.NotImplementedException
    | Socket(errorCode: int)                               // System.Net.Sockets.SocketException
    | InvalidOperation(message: string, inner: Option<Exception>)  // System.InvalidOperationException
    | NullReference                                        // System.NullReferenceException
    | Other(typeName: string, message: string)             // anything a collaborator may throw
}
