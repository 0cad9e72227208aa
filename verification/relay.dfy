/** Vocabulary shared by both versions of the signalling hub. */
module Relay {
  import opened Wrappers

  /** A signalling payload (an offer or an ICE candidate); the relay never looks inside it. */
  datatype Json = Json(text: string)

  /** A point-to-point message the hub asks the transport to deliver: `Clients.Client(target)`
      invoked with `methodName`, the caller's identifier and the untouched payload. When
      `awaitsReply` holds the hub waits for the target's answer (`InvokeAsync`), otherwise it
      only sends (`SendAsync`). */
  datatype Forward = Forward(target: string, methodName: string, sender: Option<string>, payload: Json, awaitsReply: bool)
}
