/** The hub's side of "prepare init-cluster"
    (hub/services/hub_prepare_init_cluster.go): asking every agent whether a
    port range is free, the bounded randomised search for a port base, the
    choice of the new master port, and the lines of the gpinitsystem_config
    file written for the new cluster.

    The agents' RPC answers, the shell probe for the master port, the
    operating system's free-port answer, the host name and the agent
    connection list are oracles: inputs of the operations below. */
module HubPrepareInitCluster {
  import opened Common
  import opened GoText
  import opened GoPath
  import opened Idl
  import opened GoUtf8
  import AgentCheckFreePorts

  /** A hub-to-agent connection, known by the agent's host name. */
  datatype Connection = Connection(hostname: string)

  /** One CheckFreePorts RPC as sent: to which agent, with which request. */
  datatype Call = Call(conn: Connection, req: CheckFreePortsRequest)

  /** The request sent to every agent: both numbers cut to 32 bits. */
  function FreePortsRequest(base: int, numPrimaries: int): (req: CheckFreePortsRequest)
    ensures MinInt32 <= base <= MaxInt32 ==> req.possiblePortBase == base
    ensures MinInt32 <= numPrimaries <= MaxInt32 ==> req.numPrimaries == numPrimaries
  {
    CheckFreePortsRequest(ToInt32(base), ToInt32(numPrimaries))
  }

  // ---------------------------------------------------------------------
  // getNewMasterPort

  /** A port together with the error that may accompany it (Go's
      `(int, error)`). */
  datatype PortAndErr = PortAndErr(port: int, err: Option<Error>)

  /** The master port of the new cluster: the old master port plus one when
      the probe for it ran cleanly and printed nothing, otherwise whatever
      the operating system's free-port lookup returned, error included. */
  function GetNewMasterPort(port: int, probeOutput: string, probeErr: Option<Error>, openPort: PortAndErr): (r: PortAndErr)
    ensures (probeErr.None? && probeOutput == "") ==> r == PortAndErr(port + 1, None)
    ensures !(probeErr.None? && probeOutput == "") ==> r == openPort
  {
    if probeErr.None? && probeOutput == "" then PortAndErr(port + 1, None) else openPort
  }

  /** The error `exec.Cmd.Output` returns when grep ends with status 1. */
  const GrepNoMatch: Error := Error("exit status 1")

  /** The outcome of the `netstat | awk | grep -o` probe, given the matches
      grep finds: each match printed on its own line, and the exit status of
      the last command of the pipeline, grep's, which is 1 when nothing
      matched. */
  function GrepProbe(matches: seq<string>): (r: (string, Option<Error>))
    ensures matches == [] ==> r == ("", Some(GrepNoMatch))
    ensures matches != [] ==> r.1.None? && |r.0| >= |matches|
  {
    if matches == [] then ("", Some(GrepNoMatch))
    else (GrepProbe(matches[..|matches| - 1]).0 + matches[|matches| - 1] + "\n", None)
  }

  /** As written, the probe never runs cleanly with empty output: grep
      succeeds only when it prints a match. So the new master port is always
      the operating system's free port. */
  lemma ProbeNeverClean(port: int, matches: seq<string>, openPort: PortAndErr)
    ensures GetNewMasterPort(port, GrepProbe(matches).0, GrepProbe(matches).1, openPort) == openPort
  {
  }

  // ---------------------------------------------------------------------
  // CheckAllFreePorts

  /** The verdict of CheckAllFreePorts: no agent's call returned an error.
      The replies' Result fields play no part. */
  predicate AllPortsFree(conns: seq<Connection>, base: int, numPrimaries: int,
                         rpc: (Connection, CheckFreePortsRequest) -> CheckFreePortsResponse)
  {
    forall i | 0 <= i < |conns| :: rpc(conns[i], FreePortsRequest(base, numPrimaries)).err.None?
  }

  /** Asks every agent, once each and with the same request, whether the
      range is free, and folds the answers into one boolean: true exactly
      when no call returned an error. */
  method CheckAllFreePorts(conns: seq<Connection>, base: int, numPrimaries: int,
                           rpc: (Connection, CheckFreePortsRequest) -> CheckFreePortsResponse)
    returns (allFree: bool, calls: seq<Call>)
    ensures |calls| == |conns|
    ensures forall i | 0 <= i < |conns| :: calls[i] == Call(conns[i], FreePortsRequest(base, numPrimaries))
    ensures allFree == AllPortsFree(conns, base, numPrimaries, rpc)
  {
    var req := FreePortsRequest(base, numPrimaries);
    var agentErrs: seq<Error> := [];
    calls := [];
    for k := 0 to |conns|
      invariant |calls| == k
      invariant forall i | 0 <= i < k :: calls[i] == Call(conns[i], req)
      invariant agentErrs == [] <==> forall i | 0 <= i < k :: rpc(conns[i], req).err.None?
    {
      var response := rpc(conns[k], req);
      calls := calls + [Call(conns[k], req)];
      if response.err.Some? {
        agentErrs := agentErrs + [response.err.value];
      }
    }
    allFree := |agentErrs| == 0;
  }

  /** The verdict does not depend on the order of the connections. */
  lemma AllPortsFreeOrderIndependent(conns: seq<Connection>, others: seq<Connection>, base: int, numPrimaries: int,
                                     rpc: (Connection, CheckFreePortsRequest) -> CheckFreePortsResponse)
    requires multiset(conns) == multiset(others)
    ensures AllPortsFree(conns, base, numPrimaries, rpc) == AllPortsFree(others, base, numPrimaries, rpc)
  {
    var req := FreePortsRequest(base, numPrimaries);
    forall c | c in conns ensures c in others {
      assert c in multiset(conns);
    }
    forall c | c in others ensures c in conns {
      assert c in multiset(others);
    }
    if AllPortsFree(conns, base, numPrimaries, rpc) {
      forall j | 0 <= j < |others| ensures rpc(others[j], req).err.None? {
        assert others[j] in conns;
        var i :| 0 <= i < |conns| && conns[i] == others[j];
      }
    }
    if AllPortsFree(others, base, numPrimaries, rpc) {
      forall j | 0 <= j < |conns| ensures rpc(conns[j], req).err.None? {
        assert conns[j] in others;
        var i :| 0 <= i < |others| && others[i] == conns[j];
      }
    }
  }

  /** A host whose ports in the range are in use answers Result == false
      without an error, and the hub still counts the range as free there:
      CheckAllFreePorts looks at errors only. */
  lemma BusyAgentStillCountsFree(conn: Connection, base: int, numPrimaries: int, ports: seq<nat>)
    requires 0 <= numPrimaries <= 65535 && 1 <= base <= 65535
    requires base in ports
    ensures var req := FreePortsRequest(base, numPrimaries);
      var rpc := (c: Connection, q: CheckFreePortsRequest) =>
        AgentCheckFreePorts.CheckFreePorts(q, AgentCheckFreePorts.ConflictOutput(ports, q.possiblePortBase, AgentCheckFreePorts.EndPort(q)), None);
      !rpc(conn, req).reply.result && AllPortsFree([conn], base, numPrimaries, rpc)
  {
    var req := FreePortsRequest(base, numPrimaries);
    AgentCheckFreePorts.FreeIffNoPortInRange(req, ports);
    var i :| 0 <= i < |ports| && ports[i] == base;
    assert req.possiblePortBase <= ports[i] <= AgentCheckFreePorts.EndPort(req);
  }

  /** A base near the top of the 32-bit range makes the agent's end port
      wrap around to a negative number: the inspected range is empty, and
      the agent reports it free whatever ports are in use. */
  lemma WrappedRangeReportedFree(base: int, numPrimaries: int, ports: seq<nat>)
    requires 1 <= numPrimaries <= MaxInt32 && MaxInt32 - numPrimaries < base <= MaxInt32
    ensures var req := FreePortsRequest(base, numPrimaries);
      AgentCheckFreePorts.EndPort(req) < 0 &&
      AgentCheckFreePorts.CheckFreePorts(req, AgentCheckFreePorts.ConflictOutput(ports, req.possiblePortBase, AgentCheckFreePorts.EndPort(req)), None).reply.result
  {
    var req := FreePortsRequest(base, numPrimaries);
    AgentCheckFreePorts.FreeIffNoPortInRange(req, ports);
  }

  // ---------------------------------------------------------------------
  // GetFreePortBase

  const MaxTries: nat := 10
  const LowestFallbackPort: int := 1024
  const NoFreePortBase: Error := Error("no free port base found")

  /** The arguments of one call of the free-port checker. */
  datatype CheckerCall = CheckerCall(base: int, numPrimaries: int)

  /** Finds a port base free on all agents: tries the port after the highest
      segment port, then up to nine random bases in [1024, MaxInt32), asking
      the checker at most ten times in all. The checker is given the number
      of the call (0, 1, ...) besides the base and the number of primaries,
      so that its answers may change from call to call. */
  method GetFreePortBase(segmentCount: nat, maxSegmentPort: int, checker: (nat, int, int) -> bool)
    returns (r: Result<int>, calls: seq<CheckerCall>)
    ensures 1 <= |calls| <= MaxTries
    ensures calls[0].base == maxSegmentPort + 1
    ensures forall i | 0 <= i < |calls| :: calls[i].numPrimaries == segmentCount - 1
    ensures forall i | 1 <= i < |calls| :: LowestFallbackPort <= calls[i].base < MaxInt32
    ensures forall i | 0 <= i < |calls| - 1 :: !checker(i, calls[i].base, calls[i].numPrimaries)
    ensures r.Ok? <==> checker(|calls| - 1, calls[|calls| - 1].base, calls[|calls| - 1].numPrimaries)
    ensures r.Ok? ==> r.value == calls[|calls| - 1].base
    ensures r.Fail? ==> |calls| == MaxTries && r.err == NoFreePortBase
    ensures checker(0, maxSegmentPort + 1, segmentCount - 1) ==> r == Ok(maxSegmentPort + 1) && |calls| == 1
  {
    var numPrimaries := segmentCount - 1;
    var possiblePortBase := maxSegmentPort + 1;
    calls := [];
    var i := 0;
    while i < MaxTries
      invariant 0 <= i <= MaxTries && |calls| == i
      invariant i == 0 ==> possiblePortBase == maxSegmentPort + 1
      invariant i > 0 ==> LowestFallbackPort <= possiblePortBase < MaxInt32
      invariant i > 0 ==> calls[0].base == maxSegmentPort + 1
      invariant forall k | 0 <= k < i :: calls[k].numPrimaries == numPrimaries
      invariant forall k | 1 <= k < i :: LowestFallbackPort <= calls[k].base < MaxInt32
      invariant forall k | 0 <= k < i :: !checker(k, calls[k].base, calls[k].numPrimaries)
    {
      calls := calls + [CheckerCall(possiblePortBase, numPrimaries)];
      var allPortsFree := checker(i, possiblePortBase, numPrimaries);
      if allPortsFree {
        return Ok(possiblePortBase), calls;
      }
      // rand.Intn(math.MaxInt32 - 1024) + 1024
      var draw :| 0 <= draw < MaxInt32 - LowestFallbackPort;
      possiblePortBase := draw + LowestFallbackPort;
      i := i + 1;
    }
    return Fail(NoFreePortBase), calls;
  }

  // ---------------------------------------------------------------------
  // PrepareInitCluster: the gpinitsystem_config lines

  /** One line of the gpinitsystem_config file, as the bytes Go holds. */
  type Line = seq<byte>

  const ArrayNameLine: Line := Encode("ARRAY_NAME=\"gp_upgrade cluster\"")
  const TrailerLines: seq<Line> := [Encode("TRUSTED_SHELL=ssh"), Encode("CHECK_POINT_SEGMENTS=8"), Encode("ENCODING=UNICODE")]
  const NoFreeRange: Error := Error("did not find a free range of ports")

  /** The run-time panic of slicing a one-byte string up to its length
      minus two. */
  const SlicePanic: Error := Error("runtime error: slice bounds out of range [:-1]")

  /** The segment prefix: the bytes of the master data directory's last
      element without its last two bytes, or None where the slice panics
      because that element is a single byte. The cut is by bytes, so it
      can split a multi-byte character. */
  function SegPrefix(masterDataDir: string): (p: Option<seq<byte>>)
    ensures p.None? <==> |Encode(Base(masterDataDir))| == 1
    ensures p.Some? ==> |p.value| == |Encode(Base(masterDataDir))| - 2 &&
                        p.value == Encode(Base(masterDataDir))[..|p.value|]
  {
    var base := Encode(Base(masterDataDir));
    if |base| < 2 then None else Some(base[..|base| - 2])
  }

  /** For a master directory "<parent>/<name>" the prefix is cut from the
      bytes of <name>: two ASCII characters at its end go ("gpseg-1" gives
      "gpseg"), a final two-byte character goes on its own ("é" gives the
      empty prefix, "aé" gives "a"), a final three-byte character leaves
      its lead byte behind, and a one-character ASCII name panics. Any name
      of two characters or more gets a prefix. */
  lemma {:induction false} SegPrefixOfMasterDir(parent: string, name: string)
    requires parent != [] && parent[|parent| - 1] != '/'
    requires name != [] && '/' !in name
    ensures |name| >= 2 ==> SegPrefix(parent + "/" + name).Some?
    ensures |name| >= 2 && name[|name| - 2] as int < 0x80 && name[|name| - 1] as int < 0x80 ==>
      SegPrefix(parent + "/" + name) == Some(Encode(name[..|name| - 2]))
    ensures 0x80 <= name[|name| - 1] as int < 0x800 ==>
      SegPrefix(parent + "/" + name) == Some(Encode(name[..|name| - 1]))
    ensures |EncodeChar(name[|name| - 1])| == 3 ==>
      SegPrefix(parent + "/" + name) == Some(Encode(name[..|name| - 1]) + [EncodeChar(name[|name| - 1])[0]])
    ensures |name| == 1 && name[0] as int < 0x80 ==> SegPrefix(parent + "/" + name).None?
  {
    SegPrefixOfJoin(parent, name);
    DropTwoBytes(name);
  }

  /** The prefix of "<parent>/<name>" is cut from the bytes of <name>. */
  lemma SegPrefixOfJoin(parent: string, name: string)
    requires parent != [] && parent[|parent| - 1] != '/'
    requires name != [] && '/' !in name
    ensures var e := Encode(name);
      SegPrefix(parent + "/" + name) == if |e| < 2 then None else Some(e[..|e| - 2])
  {
    DirBaseOfJoin(parent, name);
  }

  /** The UTF-8 bytes of a non-empty name without their last two bytes, by
      the width of the characters at its end. */
  lemma {:induction false} DropTwoBytes(name: string)
    requires name != []
    ensures var e := Encode(name);
      && (|name| >= 2 ==> |e| >= 2)
      && (|name| >= 2 && name[|name| - 2] as int < 0x80 && name[|name| - 1] as int < 0x80 ==>
            e[..|e| - 2] == Encode(name[..|name| - 2]))
      && (0x80 <= name[|name| - 1] as int < 0x800 ==> e[..|e| - 2] == Encode(name[..|name| - 1]))
      && (|EncodeChar(name[|name| - 1])| == 3 ==>
            e[..|e| - 2] == Encode(name[..|name| - 1]) + [EncodeChar(name[|name| - 1])[0]])
      && (|name| == 1 && name[0] as int < 0x80 ==> |e| == 1)
  {
    var e, stem, last := Encode(name), name[..|name| - 1], name[|name| - 1];
    assert e == Encode(stem) + EncodeChar(last);
    if |name| >= 2 {
      var stem2 := name[..|name| - 2];
      assert stem[..|stem| - 1] == stem2;
      assert Encode(stem) == Encode(stem2) + EncodeChar(name[|name| - 2]);
    }
  }

  /** The new data directory for a segment: the parent directory of its old
      data directory with "_upgrade" appended. */
  function UpgradeDir(dataDir: string): string
  {
    Dir(dataDir) + "_upgrade"
  }

  /** A segment directory "<parent>/<name>" moves to "<parent>_upgrade". */
  lemma UpgradeDirOfSegmentDir(parent: string, name: string)
    requires parent != [] && parent[|parent| - 1] != '/'
    requires name != [] && '/' !in name
    ensures UpgradeDir(parent + "/" + name) == parent + "_upgrade"
  {
    DirBaseOfJoin(parent, name);
  }

  /** Builds the list of new data directories, one per old segment data
      directory, in the same order. */
  method UpgradeDataDirs(dataDirs: seq<string>) returns (dirs: seq<string>)
    ensures dirs == UpgradeDirs(dataDirs)
    ensures |dirs| == |dataDirs|
    ensures forall i | 0 <= i < |dataDirs| :: dirs[i] == UpgradeDir(dataDirs[i])
  {
    dirs := [];
    for k := 0 to |dataDirs|
      invariant dirs == UpgradeDirs(dataDirs[..k])
    {
      assert dataDirs[..k + 1][..k] == dataDirs[..k];
      dirs := dirs + [UpgradeDir(dataDirs[k])];
    }
    assert dataDirs[..|dataDirs|] == dataDirs;
  }

  /** Go's `string(masterPort)` on an int: the UTF-8 bytes of the code point
      with that number, or of U+FFFD (EF BF BD) when it is not a Unicode
      scalar value. This is what the source writes as the master-port
      line. */
  function MasterPortLine(masterPort: int): (line: Line)
    ensures 1 <= |line| <= 4
    ensures (0 <= masterPort < 0xD800 || 0xE000 <= masterPort <= 0x10FFFF) ==> line == EncodeChar(masterPort as char)
    ensures 0 <= masterPort < 0x80 ==> line == [masterPort]
    ensures !(0 <= masterPort < 0xD800 || 0xE000 <= masterPort <= 0x10FFFF) ==> line == [0xEF, 0xBF, 0xBD]
  {
    if 0 <= masterPort < 0xD800 || 0xE000 <= masterPort <= 0x10FFFF then EncodeChar(masterPort as char)
    else EncodeChar('\U{FFFD}')
  }

  /** The master-port line never names the port in decimal as
      "MASTER_PORT=<port>": it is at most four bytes long. */
  lemma MasterPortLineIsNotDecimal(masterPort: int)
    ensures MasterPortLine(masterPort) != Encode("MASTER_PORT=" + Itoa(masterPort))
    ensures forall rest :: MasterPortLine(masterPort) != Encode("MASTER_PORT=") + rest
  {
    var text := "MASTER_PORT=" + Itoa(masterPort);
    assert |Encode(text)| >= |text| > 4;
    assert |Encode("MASTER_PORT=")| >= 12;
  }

  /** What the hub reads from the old cluster's configuration. */
  datatype OldClusterView = OldClusterView(
    masterDataDir: string,
    segmentDataDirs: seq<string>,
    segmentCount: nat,
    maxSegmentPort: int,
    masterPort: int)

  /** The oracles the handler consults. `agentRpc(conn, req)` is the answer
      of the agent behind `conn` to `req`; the hosts' use of ports is taken
      as fixed while the hub searches. */
  datatype HubEnv = HubEnv(
    agentConns: Result<seq<Connection>>,
    agentRpc: (Connection, CheckFreePortsRequest) -> CheckFreePortsResponse,
    hostname: Result<string>,
    probeOutput: string,
    probeErr: Option<Error>,
    openPort: PortAndErr)

  function SegPrefixLine(prefix: seq<byte>): Line
  {
    Encode("SEG_PREFIX=") + prefix
  }

  function PortBaseLine(portBase: int): Line
  {
    Encode("PORT_BASE=" + Itoa(portBase))
  }

  /** The bash array of new data directories, separated by spaces. */
  function DataDirectoryLine(dirs: seq<string>): Line
  {
    Encode("declare -a DATA_DIRECTORY=(" + Join(dirs, " ") + ")")
  }

  function MasterHostnameLine(hostname: string): Line
  {
    Encode("MASTER_HOSTNAME=" + hostname)
  }

  function MasterDirectoryLine(masterDataDir: string): Line
  {
    Encode("MASTER_DIRECTORY=" + masterDataDir + "_upgrade")
  }

  /** The new data directories, one per old segment data directory, in the
      same order. */
  function UpgradeDirs(dataDirs: seq<string>): (dirs: seq<string>)
    ensures |dirs| == |dataDirs|
    ensures forall i | 0 <= i < |dataDirs| :: dirs[i] == UpgradeDir(dataDirs[i])
  {
    if dataDirs == [] then []
    else UpgradeDirs(dataDirs[..|dataDirs| - 1]) + [UpgradeDir(dataDirs[|dataDirs| - 1])]
  }

  /** The gpinitsystem_config lines that follow PORT_BASE. */
  function RemainingLines(view: OldClusterView, hostname: string, masterPort: int): (lines: seq<Line>)
    ensures |lines| == 7
    ensures lines[..4] == [DataDirectoryLine(UpgradeDirs(view.segmentDataDirs)), MasterHostnameLine(hostname), MasterDirectoryLine(view.masterDataDir), MasterPortLine(masterPort)]
    ensures lines[4..] == TrailerLines
  {
    [ DataDirectoryLine(UpgradeDirs(view.segmentDataDirs)),
      MasterHostnameLine(hostname),
      MasterDirectoryLine(view.masterDataDir),
      MasterPortLine(masterPort)
    ] + TrailerLines
  }

  /** The gpinitsystem_config lines for a given segment prefix, port base,
      host name and master port, in the order the file lists them. */
  function ConfigLines(view: OldClusterView, segPrefix: seq<byte>, portBase: int, hostname: string, masterPort: int): (lines: seq<Line>)
    ensures |lines| == 10
    ensures lines[..3] == [ArrayNameLine, SegPrefixLine(segPrefix), PortBaseLine(portBase)]
    ensures lines[3..7] == [DataDirectoryLine(UpgradeDirs(view.segmentDataDirs)), MasterHostnameLine(hostname), MasterDirectoryLine(view.masterDataDir), MasterPortLine(masterPort)]
    ensures lines[7..] == TrailerLines
  {
    [ArrayNameLine, SegPrefixLine(segPrefix), PortBaseLine(portBase)]
    + RemainingLines(view, hostname, masterPort)
  }

  /** The checker PrepareInitCluster hands to GetFreePortBase: the verdict of
      CheckAllFreePorts over the agent connections. */
  function AgentsChecker(conns: seq<Connection>, agentRpc: (Connection, CheckFreePortsRequest) -> CheckFreePortsResponse): (nat, int, int) -> bool
  {
    (round: nat, base: int, numPrimaries: int) => AllPortsFree(conns, base, numPrimaries, agentRpc)
  }

  /** Every agent accepts the port after the highest segment port. */
  predicate FirstCandidateFree(view: OldClusterView, conns: seq<Connection>,
                               agentRpc: (Connection, CheckFreePortsRequest) -> CheckFreePortsResponse)
  {
    AllPortsFree(conns, view.maxSegmentPort + 1, view.segmentCount - 1, agentRpc)
  }

  /** The part of the PrepareInitCluster handler that produces the
      gpinitsystem_config file: the lines it writes, or the error it returns
      (or the panic it raises) before writing anything; `portBase` is the
      port base the search settled on, if it got that far. */
  method PrepareInitCluster(view: OldClusterView, env: HubEnv) returns (r: Result<seq<Line>>, portBase: Option<int>)
    ensures SegPrefix(view.masterDataDir).None? ==> r == Fail(SlicePanic) && portBase.None?
    ensures SegPrefix(view.masterDataDir).Some? && env.agentConns.Fail? ==>
      r == Fail(env.agentConns.err) && portBase.None?
    ensures SegPrefix(view.masterDataDir).Some? && env.agentConns.Ok? && portBase.None? ==>
      r == Fail(NoFreeRange) &&
      !FirstCandidateFree(view, env.agentConns.value, env.agentRpc)
    ensures portBase.Some? ==>
      SegPrefix(view.masterDataDir).Some? && env.agentConns.Ok? &&
      (portBase.value == view.maxSegmentPort + 1 || LowestFallbackPort <= portBase.value < MaxInt32) &&
      AllPortsFree(env.agentConns.value, portBase.value, view.segmentCount - 1, env.agentRpc)
    ensures SegPrefix(view.masterDataDir).Some? && env.agentConns.Ok? && FirstCandidateFree(view, env.agentConns.value, env.agentRpc) ==>
      portBase == Some(view.maxSegmentPort + 1)
    ensures portBase.Some? ==>
      var mp := GetNewMasterPort(view.masterPort, env.probeOutput, env.probeErr, env.openPort);
      r == if env.hostname.Fail? then Fail(env.hostname.err)
           else if mp.err.Some? then Fail(mp.err.value)
           else Ok(ConfigLines(view, SegPrefix(view.masterDataDir).value, portBase.value, env.hostname.value, mp.port))
  {
    var segPrefix := SegPrefix(view.masterDataDir);
    if segPrefix.None? {
      return Fail(SlicePanic), None;
    }
    r, portBase := PrepareWithPrefix(view, env, segPrefix.value);
  }

  /** PrepareInitCluster once the segment prefix is known: the port-base
      search and the remaining lines. */
  method PrepareWithPrefix(view: OldClusterView, env: HubEnv, segPrefix: seq<byte>) returns (r: Result<seq<Line>>, portBase: Option<int>)
    ensures env.agentConns.Fail? ==> r == Fail(env.agentConns.err) && portBase.None?
    ensures env.agentConns.Ok? && portBase.None? ==>
      r == Fail(NoFreeRange) &&
      !FirstCandidateFree(view, env.agentConns.value, env.agentRpc)
    ensures portBase.Some? ==>
      env.agentConns.Ok? &&
      (portBase.value == view.maxSegmentPort + 1 || LowestFallbackPort <= portBase.value < MaxInt32) &&
      AllPortsFree(env.agentConns.value, portBase.value, view.segmentCount - 1, env.agentRpc)
    ensures env.agentConns.Ok? && FirstCandidateFree(view, env.agentConns.value, env.agentRpc) ==>
      portBase == Some(view.maxSegmentPort + 1)
    ensures portBase.Some? ==>
      var mp := GetNewMasterPort(view.masterPort, env.probeOutput, env.probeErr, env.openPort);
      r == if env.hostname.Fail? then Fail(env.hostname.err)
           else if mp.err.Some? then Fail(mp.err.value)
           else Ok(ConfigLines(view, segPrefix, portBase.value, env.hostname.value, mp.port))
  {
    var lines := [ArrayNameLine, SegPrefixLine(segPrefix)];
    if env.agentConns.Fail? {
      return Fail(env.agentConns.err), None;
    }
    var found := SearchPortBase(view, env.agentConns.value, env.agentRpc);
    if found.None? {
      return Fail(NoFreeRange), None;
    }
    portBase := Some(found.value);
    lines := lines + [PortBaseLine(found.value)];
    assert lines == [ArrayNameLine, SegPrefixLine(segPrefix), PortBaseLine(found.value)];
    r := AppendRemainingLines(view, env, lines);
  }

  /** The port-base search of PrepareInitCluster: GetFreePortBase with
      CheckAllFreePorts over the agent connections as its checker. */
  method SearchPortBase(view: OldClusterView, conns: seq<Connection>,
                        agentRpc: (Connection, CheckFreePortsRequest) -> CheckFreePortsResponse)
    returns (found: Option<int>)
    ensures found.None? ==> !FirstCandidateFree(view, conns, agentRpc)
    ensures found.Some? ==> found.value == view.maxSegmentPort + 1 || LowestFallbackPort <= found.value < MaxInt32
    ensures found.Some? ==> AllPortsFree(conns, found.value, view.segmentCount - 1, agentRpc)
    ensures FirstCandidateFree(view, conns, agentRpc) ==> found == Some(view.maxSegmentPort + 1)
  {
    var checker := AgentsChecker(conns, agentRpc);
    var r, calls := GetFreePortBase(view.segmentCount, view.maxSegmentPort, checker);
    assert checker(0, view.maxSegmentPort + 1, view.segmentCount - 1) == FirstCandidateFree(view, conns, agentRpc);
    if r.Fail? {
      return None;
    }
    return Some(r.value);
  }

  /** Continues PrepareInitCluster after PORT_BASE: the data directories,
      the host name, the master directory and port, and the fixed trailer,
      stopping at the first error. */
  method AppendRemainingLines(view: OldClusterView, env: HubEnv, header: seq<Line>) returns (r: Result<seq<Line>>)
    ensures var mp := GetNewMasterPort(view.masterPort, env.probeOutput, env.probeErr, env.openPort);
      r == if env.hostname.Fail? then Fail(env.hostname.err)
           else if mp.err.Some? then Fail(mp.err.value)
           else Ok(header + RemainingLines(view, env.hostname.value, mp.port))
  {
    var lines := header;
    var dirs := UpgradeDataDirs(view.segmentDataDirs);
    var dataDirLine := DataDirectoryLine(dirs);
    lines := lines + [dataDirLine];

    if env.hostname.Fail? {
      return Fail(env.hostname.err);
    }
    var hostnameLine := MasterHostnameLine(env.hostname.value);
    lines := lines + [hostnameLine];
    var masterDirLine := MasterDirectoryLine(view.masterDataDir);
    lines := lines + [masterDirLine];

    var mp := GetNewMasterPort(view.masterPort, env.probeOutput, env.probeErr, env.openPort);
    if mp.err.Some? {
      return Fail(mp.err.value);
    }
    var masterPortLine := MasterPortLine(mp.port);
    lines := lines + [masterPortLine];
    lines := lines + TrailerLines;

    assert lines == header + ([dataDirLine, hostnameLine, masterDirLine, masterPortLine] + TrailerLines);
    return Ok(lines);
  }

  const Newline: byte := '\n' as int

  /** The bytes of the gpinitsystem_config file: the lines joined with
      newlines. */
  function ConfigFileContents(lines: seq<Line>): (contents: seq<byte>)
    ensures lines == [] ==> contents == []
    ensures |lines| == 1 ==> contents == lines[0]
    ensures |lines| >= 2 ==> Newline in contents
  {
    Join(lines, [Newline])
  }

  /** Reading the file line by line gives the lines back when none of them
      contains a newline byte. */
  lemma ConfigFileRoundTrip(lines: seq<Line>)
    requires lines != []
    requires forall i | 0 <= i < |lines| :: Newline !in lines[i]
    ensures Split(ConfigFileContents(lines), Newline) == lines
  {
    SplitJoin(lines, Newline);
  }
}
