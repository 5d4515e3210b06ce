/** The agent's answer to "is the port range [base, base + numPrimaries]
    free on this host?" (agent/services/check_free_ports.go). The shell
    pipeline that lists the host's ports is an oracle: its output and error
    are inputs, and `ConflictOutput` states what that output is when the
    host's ports are known. */
module AgentCheckFreePorts {
  import opened Common
  import opened GoText
  import opened Idl

  /** First port of the inspected range. */
  function StartPort(req: CheckFreePortsRequest): int32
  {
    req.possiblePortBase
  }

  /** Last port of the inspected range: the base plus the number of
      primaries, added as 32-bit integers. */
  function EndPort(req: CheckFreePortsRequest): (e: int32)
    ensures MinInt32 <= req.possiblePortBase + req.numPrimaries <= MaxInt32 ==>
      e == req.possiblePortBase + req.numPrimaries
  {
    AddInt32(req.possiblePortBase, req.numPrimaries)
  }

  /** The awk stage of the pipeline: of the listed ports, those with
      start <= p <= end, each printed on its own line. */
  function ConflictOutput(ports: seq<nat>, start: int, end: int): (out: string)
    ensures out == "" <==> forall i | 0 <= i < |ports| :: !(start <= ports[i] <= end)
  {
    if ports == [] then ""
    else
      var rest := ConflictOutput(ports[1..], start, end);
      assert forall i | 1 <= i < |ports| :: ports[i] == ports[1..][i - 1];
      if start <= ports[0] <= end then Itoa(ports[0]) + "\n" + rest else rest
  }

  /** The agent's CheckFreePorts handler, given what the pipeline printed
      and whether it failed: a failure is passed on with an empty reply,
      empty output means the range is free, any output means it is not. */
  function CheckFreePorts(req: CheckFreePortsRequest, output: string, cmdErr: Option<Error>): (r: CheckFreePortsResponse)
    ensures cmdErr.Some? ==> r.err == cmdErr && !r.reply.result
    ensures cmdErr.None? ==> r.err.None? && (r.reply.result <==> output == "")
  {
    if cmdErr.Some? then CheckFreePortsResponse(CheckFreePortsReply(false), cmdErr)
    else if output == "" then CheckFreePortsResponse(CheckFreePortsReply(true), None)
    else CheckFreePortsResponse(CheckFreePortsReply(false), None)
  }

  /** When the pipeline runs cleanly over the host's listed ports, the agent
      answers true exactly when none of them lies in the inclusive range
      [start, end]. */
  lemma FreeIffNoPortInRange(req: CheckFreePortsRequest, ports: seq<nat>)
    ensures var r := CheckFreePorts(req, ConflictOutput(ports, StartPort(req), EndPort(req)), None);
      r.err.None? &&
      (r.reply.result <==>
        forall i | 0 <= i < |ports| :: !(req.possiblePortBase <= ports[i] <= EndPort(req)))
  {
  }

  /** With no extra primaries only the base port itself is inspected. */
  lemma ZeroPrimariesChecksBaseOnly(base: int32, ports: seq<nat>)
    ensures var req := CheckFreePortsRequest(base, 0);
      CheckFreePorts(req, ConflictOutput(ports, StartPort(req), EndPort(req)), None).reply.result
      <==> base !in ports
  {
  }
}
