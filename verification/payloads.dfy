/**
 The payloads the server puts on a connection's outbound queue. The Go code
 builds them with json.Marshal; here each JSON shape is one constructor, so
 that the hub and the read pump can be stated without any encoding.
 */
module Payloads {

  newtype byte = x: int | 0 <= x < 256

  /** The reason sent to an incumbent that a newer device replaces. */
  const ReplacedReason: string := "Another device connected"

  /** The prefix of the error sent back when a key press fails. */
  const PressErrorPrefix: string := "Failed to press key: "

  datatype Payload =
    | Connected                     // {"status": "connected"}
    | Disconnected(reason: string)  // {"status": "disconnected", "reason": reason}
    | Error(text: string)           // {"error": text}
    | Opaque(bytes: seq<byte>)      // an already-encoded broadcast message
}
