/** The part of the error model that the protocol core decides on (include/fountainer/error.hpp). */
module Errors {

  datatype ErrorDomain = Configuration | Tcp | Protocol | Authentication | Disconnected | Timeout
                       | Cancelled | Validation | Internal

  datatype ErrorCode = MissingCredentials | TransportClosed | FrameTooLarge | ProtocolMismatch
                     | UnexpectedMessage | UnexpectedResponseType | MalformedMessage | HandshakeFailed
                     | AuthRejected | ReplayDetected | UnknownKeyId | RequestTimeout | NotConnected
                     | InvalidState | CancelledByUser | ConnectFailed | EmptySelection | UnknownDatapoint

  datatype Error = Error(domain: ErrorDomain, code: ErrorCode)
}
