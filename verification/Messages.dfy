/** The message table of the Fountain protocol (include/fountainer/protocol/fountain_messages.hpp). */
module Messages {
  import opened Wrappers

  const MAX_CONTROL_FRAME_BYTES: nat := 4096
  const AUTH_SCHEME: string := "hmac-sha256"
  const AUTH_SCOPE: string := "control"
  const SESSION_PROOF: string := "ota_check"

  /** C2s runs from the device to this program, S2c the other way. */
  datatype Direction = C2s | S2c

  datatype AuthLevel = NoAuth | SessionAuth | ControlAuth

  datatype MessageMeta = MessageMeta(direction: Direction, wire: int, auth: AuthLevel, request: bool,
                                     responses: seq<string>)
  {
    predicate Accepts(kind: string) { kind in responses }
  }

  function FindMeta(name: string): Option<MessageMeta> {
    match name
    case "hello" => Some(MessageMeta(C2s, 1, NoAuth, true, ["hello_ack"]))
    case "hello_ack" => Some(MessageMeta(S2c, 1, NoAuth, false, []))
    case "protocol_mismatch" => Some(MessageMeta(C2s, 1, NoAuth, false, []))
    case "ota_check" => Some(MessageMeta(C2s, 2, SessionAuth, true, ["ota_none", "ota_available"]))
    case "ota_available" => Some(MessageMeta(S2c, 2, ControlAuth, false, ["ota_status"]))
    case "ota_none" => Some(MessageMeta(S2c, 2, NoAuth, false, []))
    case "ota_cancel" => Some(MessageMeta(S2c, 2, ControlAuth, false, ["ota_status"]))
    case "ota_status" => Some(MessageMeta(C2s, 2, NoAuth, false, []))
    case "heartbeat" => Some(MessageMeta(C2s, 2, NoAuth, false, []))
    case "dp_report" => Some(MessageMeta(C2s, 2, NoAuth, false, []))
    case "dp_read" => Some(MessageMeta(S2c, 2, NoAuth, true, ["dp_report"]))
    case "dp_write" => Some(MessageMeta(S2c, 2, ControlAuth, true, ["dp_write_result"]))
    case "dp_write_result" => Some(MessageMeta(C2s, 2, NoAuth, false, []))
    case "command" => Some(MessageMeta(S2c, 2, ControlAuth, true, ["command_result"]))
    case "command_result" => Some(MessageMeta(C2s, 2, NoAuth, false, []))
    case "error_report" => Some(MessageMeta(C2s, 2, NoAuth, false, []))
    case "device_alert" => Some(MessageMeta(C2s, 2, NoAuth, false, []))
    case "log_read" => Some(MessageMeta(S2c, 2, ControlAuth, true, ["log_batch"]))
    case "log_batch" => Some(MessageMeta(C2s, 2, NoAuth, false, []))
    case "log_read_prev" => Some(MessageMeta(S2c, 2, ControlAuth, true, ["log_batch"]))
    case "log_ack_prev" => Some(MessageMeta(S2c, 2, ControlAuth, true, ["log_ack_result"]))
    case "log_ack_result" => Some(MessageMeta(C2s, 2, NoAuth, false, []))
    case _ => None
  }

  /** A response of the given type is allowed; requests of unknown type allow every response. */
  predicate ResponseAllowed(request: string, response: string) {
    FindMeta(request).Some? ==> FindMeta(request).value.Accepts(response)
  }
}
