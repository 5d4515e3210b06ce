/** The protocol-buffer messages exchanged between hub and agents for the
    free-port check. */
module Idl {
  import opened Common

  datatype CheckFreePortsRequest = CheckFreePortsRequest(possiblePortBase: int32, numPrimaries: int32)

  datatype CheckFreePortsReply = CheckFreePortsReply(result: bool)

  /** What one CheckFreePorts RPC hands back: the reply and the error. */
  datatype CheckFreePortsResponse = CheckFreePortsResponse(reply: CheckFreePortsReply, err: Option<Error>)
}
