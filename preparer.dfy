/** The CLI side of `gpupgrade prepare` (cli/commanders/preparer.go): counting
    running hubs, starting the hub, waiting for it to answer, initialising the
    state directory, and passing on the hub's answers to the prepare
    requests. Commands, RPCs and file-system calls are given as their
    outcomes. */
module Commanders {
  import opened Common
  import opened GoText
  import GoPath
  import UtilsCluster

  // ---------------------------------------------------------------------
  // HowManyHubsRunning

  /** A count of running hubs and the error that came with it. */
  datatype HubCount = HubCount(count: int, err: Option<Error>)

  /** The error `strconv.Atoi` returns for `s`. The quoting of `s` is
      modelled as plain double quotes, which is what Go writes for printable
      ASCII text without quotes or backslashes. */
  function AtoiError(s: string, reason: string): Error
  {
    Error("strconv.Atoi: parsing \"" + s + "\": " + reason)
  }

  /** Reads the number of hub processes from the output and error of the
      `ps -ef | grep -Gc` pipeline. A non-negative count is accepted whatever
      the pipeline's exit status (grep exits with 1 when it counts nothing);
      output that is not a number yields -1 with the pipeline's error if it
      has one and the conversion error otherwise; a negative number yields
      -1 with the pipeline's error. */
  function HowManyHubsRunning(output: string, cmdErr: Option<Error>): (r: HubCount)
    ensures r.count >= -1
    ensures r.count >= 0 <==> (exists n :: n >= 0 && Atoi(TrimSpace(output)) == Parsed(n))
    ensures r.count >= 0 ==> r.err.None? && Atoi(TrimSpace(output)) == Parsed(r.count)
    ensures !Atoi(TrimSpace(output)).Parsed? ==> r.count == -1 && r.err.Some?
    ensures !Atoi(TrimSpace(output)).Parsed? && cmdErr.Some? ==> r.err == cmdErr
    ensures !Atoi(TrimSpace(output)).Parsed? && cmdErr.None? ==>
      r.err == Some(AtoiError(TrimSpace(output),
                              if Atoi(TrimSpace(output)).SyntaxError? then "invalid syntax" else "value out of range"))
    ensures Atoi(TrimSpace(output)).Parsed? && Atoi(TrimSpace(output)).value < 0 ==> r == HubCount(-1, cmdErr)
  {
    var text := TrimSpace(output);
    match Atoi(text)
    case SyntaxError =>
      HubCount(-1, if cmdErr.Some? then cmdErr else Some(AtoiError(text, "invalid syntax")))
    case RangeError =>
      HubCount(-1, if cmdErr.Some? then cmdErr else Some(AtoiError(text, "value out of range")))
    case Parsed(value) =>
      if value >= 0 then HubCount(value, None) else HubCount(-1, cmdErr)
  }

  /** grep -c prints the count followed by a newline; reading it back gives
      that count and no error, even when the pipeline reports an error (as
      grep does when the count is zero). */
  lemma HowManyHubsRunningReadsCount(n: int, cmdErr: Option<Error>)
    requires 0 <= n <= MaxInt64
    ensures HowManyHubsRunning(Itoa(n) + "\n", cmdErr) == HubCount(n, None)
  {
    TrimSpaceKeeps("", Itoa(n), "\n");
    assert "" + Itoa(n) + "\n" == Itoa(n) + "\n";
    AtoiItoa(n);
  }

  /** A negative number on the output with a successful pipeline gives -1
      and no error, so a caller sees neither a count nor a failure. */
  lemma NegativeCountWithoutError(n: int)
    requires MinInt64 <= n < 0
    ensures HowManyHubsRunning(Itoa(n), None) == HubCount(-1, None)
  {
    TrimSpaceKeeps("", Itoa(n), "");
    assert "" + Itoa(n) + "" == Itoa(n);
    AtoiItoa(n);
  }

  // ---------------------------------------------------------------------
  // StartHub

  const HubAlreadyRunning: Error := Error("gpupgrade_hub process already running")

  /** How `gpupgrade_hub --daemonize` ended: it started, or it failed with
      an error and, when it ran and exited non-zero, its captured stderr. */
  datatype LaunchOutcome = Launched | LaunchFailed(cmdErr: Error, exitStderr: Option<string>)

  /** Whether StartHub ran the hub binary, and what it returned. */
  datatype StartHubResult = StartHubResult(launched: bool, err: Option<Error>)

  /** The error StartHub reports for a failed launch. */
  function LaunchError(cmdErr: Error, exitStderr: Option<string>): Error
  {
    var err := "failed to start hub (" + cmdErr.msg + ")";
    if exitStderr.Some? then Error(err + ": " + exitStderr.value) else Error(err)
  }

  /** Starts the hub unless the count of running hubs failed or found one:
      `psOutput` and `psErr` are what the counting pipeline produced and
      `launch` how the launch went, consulted only when the hub is
      launched. */
  function StartHub(psOutput: string, psErr: Option<Error>, launch: LaunchOutcome): (r: StartHubResult)
    ensures var hubs := HowManyHubsRunning(psOutput, psErr);
      r.launched <==> hubs.err.None? && hubs.count < 1
    ensures var hubs := HowManyHubsRunning(psOutput, psErr);
      hubs.err.Some? ==> r.err == hubs.err
    ensures var hubs := HowManyHubsRunning(psOutput, psErr);
      hubs.err.None? && hubs.count >= 1 ==> r.err == Some(HubAlreadyRunning)
    ensures r.launched && launch.Launched? ==> r.err.None?
    ensures r.launched && launch.LaunchFailed? ==> r.err == Some(LaunchError(launch.cmdErr, launch.exitStderr))
  {
    var hubs := HowManyHubsRunning(psOutput, psErr);
    if hubs.err.Some? then StartHubResult(false, hubs.err)
    else if hubs.count >= 1 then StartHubResult(false, Some(HubAlreadyRunning))
    else if launch.Launched? then StartHubResult(true, None)
    else StartHubResult(true, Some(LaunchError(launch.cmdErr, launch.exitStderr)))
  }

  /** With a hub already counted the binary is never run. */
  lemma StartHubGuard(n: int, psErr: Option<Error>, launch: LaunchOutcome)
    requires 1 <= n <= MaxInt64
    ensures StartHub(Itoa(n) + "\n", psErr, launch) == StartHubResult(false, Some(HubAlreadyRunning))
  {
    HowManyHubsRunningReadsCount(n, psErr);
  }

  // ---------------------------------------------------------------------
  // VerifyConnectivity

  /** Pings the hub until it answers, at most `1 + attempts` times;
      `attempts` is the value of the package variable
      NumberOfConnectionAttempt (100 unless reassigned).
      `ping(k)` is the outcome of the k-th ping; the pause between pings is
      not modelled. Returns the last outcome and the number of pings. */
  method VerifyConnectivity(ping: nat -> Option<Error>, attempts: int) returns (err: Option<Error>, pings: nat)
    ensures 1 <= pings <= 1 + (if attempts > 0 then attempts else 0)
    ensures forall k | 0 <= k < pings - 1 :: ping(k).Some?
    ensures err == ping(pings - 1)
    ensures err.None? <==> exists k | 0 <= k < pings :: ping(k).None?
    ensures err.Some? ==> pings == 1 + (if attempts > 0 then attempts else 0)
    ensures (exists k | 0 <= k <= attempts :: ping(k).None?) ==> err.None?
  {
    err := ping(0);
    pings := 1;
    var i := 0;
    while i < attempts && err.Some?
      invariant 0 <= i && (i <= attempts || i == 0)
      invariant pings == i + 1
      invariant forall k | 0 <= k < pings - 1 :: ping(k).Some?
      invariant err == ping(pings - 1)
    {
      err := ping(pings);
      pings := pings + 1;
      i := i + 1;
    }
  }

  // ---------------------------------------------------------------------
  // DoInit

  /** How `os.Mkdir(stateDir, 0700)` ended. */
  datatype MkdirOutcome = Created | AlreadyExists | MkdirFailed(err: Error)

  function StateDirExists(stateDir: string): Error
  {
    Error("gpupgrade state dir (" + stateDir + ") already exists. Did you already run gpupgrade prepare init?")
  }

  /** `errors.Wrap(err, message)`. */
  function Wrap(err: Error, message: string): Error
  {
    Error(message + ": " + err.msg)
  }

  /** The configuration file an empty cluster with binaries in `binDir` is
      saved as. */
  function EmptyClusterFile(binDir: string): UtilsCluster.FileContents
  {
    UtilsCluster.Json(UtilsCluster.ClusterConfig([], binDir))
  }

  /** Creates the state directory and saves an empty source and an empty
      target cluster configuration in it. An existing state directory is
      reported and nothing is written. `sourceWriteErr` and
      `targetWriteErr` are the outcomes of the two file writes. */
  method DoInit(stateDir: string, sourceBinDir: string, targetBinDir: string,
                mkdir: MkdirOutcome, files: UtilsCluster.FileStore,
                sourceWriteErr: Option<Error>, targetWriteErr: Option<Error>)
    returns (err: Option<Error>, written: UtilsCluster.FileStore)
    ensures mkdir.AlreadyExists? ==> err == Some(StateDirExists(stateDir)) && written == files
    ensures mkdir.MkdirFailed? ==> err == Some(mkdir.err) && written == files
    ensures mkdir.Created? && sourceWriteErr.Some? ==>
      err == Some(Wrap(sourceWriteErr.value, "Unable to save source cluster configuration")) && written == files
    ensures var sourcePath := GoPath.JoinPath(stateDir, UtilsCluster.SourceConfigFilename);
      mkdir.Created? && sourceWriteErr.None? && targetWriteErr.Some? ==>
      err == Some(Wrap(targetWriteErr.value, "Unable to save target cluster configuration")) &&
      written == files[sourcePath := EmptyClusterFile(sourceBinDir)]
    ensures var sourcePath := GoPath.JoinPath(stateDir, UtilsCluster.SourceConfigFilename);
      var targetPath := GoPath.JoinPath(stateDir, UtilsCluster.TargetConfigFilename);
      mkdir.Created? && sourceWriteErr.None? && targetWriteErr.None? ==>
      err.None? &&
      written == files[sourcePath := EmptyClusterFile(sourceBinDir)][targetPath := EmptyClusterFile(targetBinDir)]
  {
    if mkdir.AlreadyExists? {
      return Some(StateDirExists(stateDir)), files;
    } else if mkdir.MkdirFailed? {
      return Some(mkdir.err), files;
    }
    var emptyCluster := UtilsCluster.NewCluster([]);
    var source := new UtilsCluster.Cluster(emptyCluster, sourceBinDir,
                                           GoPath.JoinPath(stateDir, UtilsCluster.SourceConfigFilename));
    var commitErr;
    written, commitErr := source.Commit(files, sourceWriteErr);
    if commitErr.Some? {
      return Some(Wrap(commitErr.value, "Unable to save source cluster configuration")), written;
    }
    var target := new UtilsCluster.Cluster(emptyCluster, targetBinDir,
                                           GoPath.JoinPath(stateDir, UtilsCluster.TargetConfigFilename));
    written, commitErr := target.Commit(written, targetWriteErr);
    if commitErr.Some? {
      return Some(Wrap(commitErr.value, "Unable to save target cluster configuration")), written;
    }
    return None, written;
  }

  /** Once DoInit succeeds, each of the two files loads back as an empty
      cluster with its binary directory. */
  lemma DoInitFilesLoadEmpty(stateDir: string, sourceBinDir: string, targetBinDir: string, files: UtilsCluster.FileStore)
    requires stateDir != [] && stateDir[|stateDir| - 1] != '/'
    ensures var sourcePath := GoPath.JoinPath(stateDir, UtilsCluster.SourceConfigFilename);
      var targetPath := GoPath.JoinPath(stateDir, UtilsCluster.TargetConfigFilename);
      var written := files[sourcePath := EmptyClusterFile(sourceBinDir)][targetPath := EmptyClusterFile(targetBinDir)];
      sourcePath != targetPath &&
      written[sourcePath] == EmptyClusterFile(sourceBinDir) &&
      written[targetPath] == EmptyClusterFile(targetBinDir) &&
      UtilsCluster.NewCluster(written[sourcePath].config.segConfigs) == UtilsCluster.GpCluster([], map[])
  {
    var sourcePath := GoPath.JoinPath(stateDir, UtilsCluster.SourceConfigFilename);
    var targetPath := GoPath.JoinPath(stateDir, UtilsCluster.TargetConfigFilename);
    GoPath.BaseOfJoinPath(stateDir, UtilsCluster.SourceConfigFilename);
    GoPath.BaseOfJoinPath(stateDir, UtilsCluster.TargetConfigFilename);
    assert GoPath.Base(sourcePath)[0] != GoPath.Base(targetPath)[0];
    assert UtilsCluster.NewCluster([]).segments == map[];
  }

  // ---------------------------------------------------------------------
  // Passing on the hub's answers

  /** ShutdownClusters logs a failed request and reports success anyway. */
  function ShutdownClusters(rpcErr: Option<Error>): (err: Option<Error>)
    ensures err.None?
  {
    None
  }

  /** InitCluster returns the hub's error unchanged. */
  function InitCluster(rpcErr: Option<Error>): (err: Option<Error>)
    ensures err == rpcErr
  {
    rpcErr
  }

  /** StartAgents returns the hub's error unchanged. */
  function StartAgents(rpcErr: Option<Error>): (err: Option<Error>)
    ensures err == rpcErr
  {
    rpcErr
  }
}
