# gpupgrade `prepare` core in Dafny

This project models the sequential logic behind `gpupgrade prepare` in
gpupgrade, the Greenplum major-version upgrade tool, and proves properties of
it. It covers four parts:

- **Hub: port search and the new cluster's configuration.** The hub asks every
  agent whether a port range is free (`CheckAllFreePorts`). It searches for a
  port base by trying the port after the highest segment port and then up to
  nine random bases (`GetFreePortBase`). It picks the new master port
  (`getNewMasterPort`). It also builds the lines of the `gpinitsystem_config`
  file (`PrepareInitCluster`).
- **Agent: the free-port answer.** `CheckFreePorts` takes the inclusive range
  `[base, base + numPrimaries]`, computed in 32-bit arithmetic, and answers
  from the output and error of a `netstat | awk` pipeline.
- **The cluster record (`utils.Cluster`).** `Commit` saves the segment
  configurations in content-ID order together with the binary directory, and
  `Load` reads them back. Also modelled: the distinct host names, the master's
  directory, host and port (content ID -1), and the database-connection
  settings with their three-level user fallback.
- **CLI preparer.** `HowManyHubsRunning` reads the hub count from `ps | grep -c`
  output, with its error precedence. `StartHub` is guarded by that count.
  `VerifyConnectivity` retries pings a bounded number of times. `DoInit`
  refuses an existing state directory. The remaining CLI calls pass on the
  hub's errors.

Everything outside the process is an input of the operation that uses it.
That means the agents' RPC answers, shell command output and errors, the host
name, the operating system's free port, the current user, the file system
(a map from path to contents) and the random draw. The random draw is a
nondeterministic choice (`:|`), so every property holds for every possible
draw.

Go library behaviour the core depends on is modelled in `GoText`
(`strings.TrimSpace`, `strconv.Itoa`, `strconv.Atoi`), `GoPath`
(`path.Base`, `path.Dir`, `filepath.Join`) and `GoUtf8` (the UTF-8 bytes of
a Go string, RFC 3629). `Common` holds Go's `int32` conversion and
wrap-around addition, `strings.Join` and `strings.Split`. Text is kept as
Unicode characters. The `gpinitsystem_config` lines are bytes, because the
code slices the segment prefix by byte count and writes `string(rune)`.

Several behaviours of the code are modelled as written, and a lemma shows
each one:

- The master-port line is Go's `string(masterPort)`: the one to four UTF-8
  bytes of the character numbered `masterPort`, not `MASTER_PORT=<port>`
  (`MasterPortLineIsNotDecimal`). Port numbers from 55296 to 57343 are
  surrogate code points, so they give the bytes of U+FFFD.
- The segment prefix drops the last two bytes of the master directory's
  base name, not the last two characters. A final three-byte character
  leaves its lead byte in the prefix, and a one-byte name makes the slice
  panic (`SegPrefixOfMasterDir`).
- The probe for the master port cannot come back clean and empty. The
  pipeline's status is grep's, and grep succeeds only when it prints a
  match, so the hub always takes the operating system's free port
  (`ProbeNeverClean`). The probe's pattern `\.<port>*$` also lets the
  port's last digit repeat or be absent, so probing 15433 also matches a
  listener on 1543.
- The hub ignores the agents' `Result` field and counts only errors
  (`BusyAgentStillCountsFree`).
- A base near `MaxInt32` makes the agent's end port wrap around, so the agent
  reports the range free (`WrappedRangeReportedFree`).
- A negative count with a clean pipeline yields -1 and no error
  (`NegativeCountWithoutError`).

The random fallback base is drawn from `[1024, MaxInt32)`, as the code
does.

## Model

| member | source | states |
|---|---|---|
| AgentCheckFreePorts.EndPort | agent/services/check_free_ports.go:16-17 | The last inspected port is base + numPrimaries computed in int32 arithmetic, and equals the true sum when it does not overflow. |
| AgentCheckFreePorts.ConflictOutput | agent/services/check_free_ports.go:21 | The awk filter prints nothing exactly when no listed port p satisfies start <= p <= end (both ends inclusive). |
| AgentCheckFreePorts.CheckFreePorts | agent/services/check_free_ports.go:36-48 | A command error gives that error with the zero reply (Result false). Otherwise there is no error, and Result is true exactly when the output is empty. |
| AgentCheckFreePorts.FreeIffNoPortInRange | agent/services/check_free_ports.go:16-48 | When the pipeline runs cleanly over a host's ports, the agent answers free exactly when none of them lies in [base, EndPort]. |
| AgentCheckFreePorts.ZeroPrimariesChecksBaseOnly | agent/services/check_free_ports.go:16-21 | With numPrimaries = 0, the range is free exactly when the base port itself is not in use. |
| HubPrepareInitCluster.FreePortsRequest | hub/services/hub_prepare_init_cluster.go:96-99 | The request carries int32(base) and int32(numPrimaries). These are the values themselves when they fit in 32 bits. |
| HubPrepareInitCluster.GetNewMasterPort | hub/services/hub_prepare_init_cluster.go:76-86 | Returns old port + 1 with no error when the probe ran without error and printed nothing. Otherwise returns the OS-assigned port and its error unchanged. |
| HubPrepareInitCluster.GrepProbe | hub/services/hub_prepare_init_cluster.go:77-80 | With no match the probe prints nothing and fails with grep's exit status 1. With matches it succeeds and prints at least one character per match. |
| HubPrepareInitCluster.ProbeNeverClean | hub/services/hub_prepare_init_cluster.go:76-86 | Whatever grep matches, getNewMasterPort returns the OS-assigned port and its error. |
| HubPrepareInitCluster.CheckAllFreePorts | hub/services/hub_prepare_init_cluster.go:88-115 | Calls every connection exactly once, in order, with the same request. Returns true exactly when no call returned an error, whatever the replies' Result fields say, so an empty connection list gives true. |
| HubPrepareInitCluster.AllPortsFreeOrderIndependent | hub/services/hub_prepare_init_cluster.go:91-114 | The fan-out's verdict does not depend on the order in which the connections are visited or answer. |
| HubPrepareInitCluster.BusyAgentStillCountsFree | hub/services/hub_prepare_init_cluster.go:96-104 | An agent that answers Result = false with no error, because the base port is in use there, still counts as free for the hub. |
| HubPrepareInitCluster.WrappedRangeReportedFree | agent/services/check_free_ports.go:16-21 | For a base within numPrimaries of MaxInt32, the end port wraps to a negative number and the agent reports the range free, whatever ports are in use. |
| HubPrepareInitCluster.GetFreePortBase | hub/services/hub_prepare_init_cluster.go:119-131 | Asks the checker 1 to 10 times. The first candidate is maxSegmentPort + 1; every later one lies in [1024, MaxInt32). Every call gets numPrimaries = segment count - 1, and every call before the last was rejected. Returns Ok(candidate) exactly when the last call accepted, and "no free port base found" only after exactly 10 rejections. Acceptance on the first call gives Ok(maxSegmentPort + 1) after one call. |
| HubPrepareInitCluster.SegPrefix | hub/services/hub_prepare_init_cluster.go:144-145 | The prefix is the UTF-8 bytes of path.Base(masterDataDir) without the last two bytes. It is missing (the slice panics) exactly when those bytes number one; path.Base is never empty. |
| HubPrepareInitCluster.SegPrefixOfMasterDir | hub/services/hub_prepare_init_cluster.go:144-146 | For a master directory "<parent>/<name>": a name ending in two ASCII characters loses both ("gpseg-1" gives "gpseg"). A final two-byte character goes alone ("é" gives "", "aé" gives "a"). A final three-byte character leaves its lead byte behind. A one-character ASCII name panics. Any name of two or more characters gets a prefix. |
| HubPrepareInitCluster.UpgradeDirOfSegmentDir | hub/services/hub_prepare_init_cluster.go:164 | A segment directory "<parent>/<name>" becomes "<parent>_upgrade". |
| HubPrepareInitCluster.UpgradeDirs | hub/services/hub_prepare_init_cluster.go:162-166 | One new directory per old segment directory, in the same order: path.Dir(d) followed by "_upgrade". |
| HubPrepareInitCluster.UpgradeDataDirs | hub/services/hub_prepare_init_cluster.go:161-166 | The append loop builds exactly UpgradeDirs of the segment directories, one per directory and in order. |
| HubPrepareInitCluster.MasterPortLine | hub/services/hub_prepare_init_cluster.go:188 | string(masterPort) is one to four bytes: the UTF-8 encoding of the code point masterPort when that is a Unicode scalar value (one byte equal to the port below 128), and EF BF BD (U+FFFD) otherwise, including for the surrogate range 55296-57343. |
| HubPrepareInitCluster.MasterPortLineIsNotDecimal | hub/services/hub_prepare_init_cluster.go:184-188 | The master-port line is never "MASTER_PORT=<port>" and never starts with "MASTER_PORT=". |
| HubPrepareInitCluster.SearchPortBase | hub/services/hub_prepare_init_cluster.go:149-157 | The search with CheckAllFreePorts as checker finds only bases for which no agent's call returned an error, each being maxSegmentPort + 1 or in [1024, MaxInt32). It settles on maxSegmentPort + 1 when no agent returns an error for it, and finds nothing only when some agent returns an error for that first candidate. |
| HubPrepareInitCluster.PrepareInitCluster | hub/services/hub_prepare_init_cluster.go:141-192 | A one-byte master base name panics before anything else happens. Otherwise a connection error is returned unchanged. A failed search gives "did not find a free range of ports" with no port base. For a found base, no agent's call returned an error. A host-name or master-port error is returned unchanged. Otherwise the lines, in order, are ARRAY_NAME, SEG_PREFIX, PORT_BASE, DATA_DIRECTORY with one _upgrade directory per segment, MASTER_HOSTNAME, MASTER_DIRECTORY, the master-port line and the three fixed trailer lines. |
| HubPrepareInitCluster.PrepareWithPrefix | hub/services/hub_prepare_init_cluster.go:147-192 | Once the prefix is cut: a connection error is returned unchanged, a failed search gives "did not find a free range of ports", and a found base (maxSegmentPort + 1 whenever no agent errs on it) leads to the host-name or master-port error or to the full list of lines with that prefix. |
| HubPrepareInitCluster.AppendRemainingLines | hub/services/hub_prepare_init_cluster.go:161-192 | After PORT_BASE, appends the data-directory, host-name, master-directory and master-port lines and the trailer, stopping at the first host-name or master-port error. |
| HubPrepareInitCluster.ConfigLines | hub/services/hub_prepare_init_cluster.go:141-192 | The file has exactly ten lines, in this order: ARRAY_NAME; SEG_PREFIX; PORT_BASE; the DATA_DIRECTORY array; MASTER_HOSTNAME; MASTER_DIRECTORY; the master-port line; then TRUSTED_SHELL, CHECK_POINT_SEGMENTS and ENCODING. |
| HubPrepareInitCluster.ConfigFileContents | hub/services/hub_prepare_init_cluster.go:194 | No lines give an empty file, and one line gives that line alone. Two or more lines give a file that contains a newline byte. |
| HubPrepareInitCluster.ConfigFileRoundTrip | hub/services/hub_prepare_init_cluster.go:194 | The file is the lines joined with a newline byte. Splitting it at newline bytes gives the lines back when none contains one. |
| Common.ToInt32 | hub/services/hub_prepare_init_cluster.go:97-98 | Go's int32(x): x itself when it fits, and otherwise the value congruent to x modulo 2^32. |
| Common.AddInt32 | agent/services/check_free_ports.go:17 | int32 addition: the exact sum when it fits, otherwise the sum shifted by 2^32 (wrap-around). |
| Common.Join | hub/services/hub_prepare_init_cluster.go:168 | strings.Join: no parts give an empty result, and one part gives that part with no separator. The same function joins the config lines at line 194. |
| Common.SplitJoin | hub/services/hub_prepare_init_cluster.go:194 | Splitting a strings.Join result at its one-character separator gives back the parts when no part contains the separator. |
| GoText.Itoa | hub/services/hub_prepare_init_cluster.go:159 | %d / strconv.Itoa text: non-empty, starts with '-' exactly for negative numbers, and digits otherwise. |
| GoText.Atoi | cli/commanders/preparer.go:100 | strconv.Atoi, for the text after an optional sign (`Unsigned`). Empty text is a syntax error. If some leading run of those digits exceeds 64 unsigned bits, the result is a range error, even when a non-digit follows. Otherwise, text with no digits or with a non-digit is a syntax error. Otherwise the text is all digits after the sign. It then parses to their decimal value, negated after a '-', when that lies within the 64-bit range, and is a range error when it does not. Leading zeros and a '+' sign are accepted. Conversely, a parsed value means the unsigned text is all digits and the value is that signed decimal value. It lies within the 64-bit range and has no surrounding white space. Text of at most 19 characters gets a range error only when it is all digits after the sign. |
| GoUtf8.EncodeChar | hub/services/hub_prepare_init_cluster.go:188 | A character's UTF-8 encoding is 1 to 4 bytes. One byte, equal to the code, exactly for ASCII; two bytes exactly for codes 0x80-0x7FF; three bytes exactly for codes 0x800-0xFFFF; four bytes otherwise. A longer encoding starts with a lead byte of 0xC0 or more, and every later byte is a continuation byte in [0x80, 0xC0). |
| GoUtf8.DecodeEncodeChar | hub/services/hub_prepare_init_cluster.go:188 | Decoding a character's UTF-8 bytes (the lead byte's payload bits, then six bits from each continuation byte) gives its code point back. |
| GoUtf8.Encode | hub/services/hub_prepare_init_cluster.go:145 | A string has at least as many bytes as characters, and no bytes exactly when it is empty. |
| GoUtf8.EncodeConcat | hub/services/hub_prepare_init_cluster.go:145 | The bytes of two texts put together are the bytes of the first followed by the bytes of the second, so a string's bytes are its characters' encodings in order. |
| GoUtf8.EncodeAscii | hub/services/hub_prepare_init_cluster.go:141 | ASCII text has one byte per character, each equal to the character's code. |
| GoText.AtoiItoa | cli/commanders/preparer.go:100 | Atoi reads back every 64-bit integer Itoa writes. |
| GoText.TrimSpace | cli/commanders/preparer.go:100 | strings.TrimSpace: the result is no longer than the text and neither starts nor ends with white space. It is empty exactly when the text is all white space. |
| GoText.TrimSpaceKeeps | cli/commanders/preparer.go:100 | TrimSpace removes exactly the surrounding white space from text that starts and ends with a non-space character. |
| GoPath.Base | hub/services/hub_prepare_init_cluster.go:144 | path.Base is never empty; it is "/" or contains no slash, and it is "." for the empty path. |
| GoPath.Dir | hub/services/hub_prepare_init_cluster.go:164 | path.Dir is ".", "/", or a prefix of the path without a trailing slash. |
| GoPath.DirBaseOfJoin | hub/services/hub_prepare_init_cluster.go:144-164 | Dir and Base split "d/b" back into d and b, for a plain element b and a directory d without a trailing slash. |
| GoPath.JoinPath | cli/commanders/preparer.go:125 | filepath.Join(dir, name) is name for an empty dir, and dir + "/" + name for a dir without a trailing slash. |
| GoPath.BaseOfJoinPath | cli/commanders/preparer.go:125-130 | A file name joined to a state directory is recovered by Base, and the directory by Dir. |
| UtilsCluster.NewCluster | utils/cluster.go:42 | The content IDs are listed in the order given, and a segment is stored for exactly the listed IDs. |
| UtilsCluster.SegmentsMapLast | utils/cluster.go:42 | A configuration that no later one overrides is stored under its content ID. |
| UtilsCluster.SegConfigsInOrder | utils/cluster.go:51-53 | One configuration per content ID, in ContentIDs order, each being what the map holds for that ID. |
| UtilsCluster.NewClusterOfSaved | utils/cluster.go:32-58 | Rebuilding a well-formed cluster from the configurations Commit saves gives the same cluster. |
| UtilsCluster.SavedOfNewCluster | utils/cluster.go:42-55 | A cluster loaded from configurations with distinct content IDs is well-formed, and saving it gives back the same configurations in the same order. |
| UtilsCluster.LookupOfNewCluster | utils/cluster.go:60-70 | In a loaded cluster with distinct content IDs, each configuration is found under its own content ID. |
| UtilsCluster.ConnUser | utils/cluster.go:85-96 | The user is PGUSER if non-empty, else the current OS user's name, else "gpadmin". |
| UtilsCluster.ConnUserNotEmpty | utils/cluster.go:85-96 | The chosen user is empty only when PGUSER is unset and the OS reports an empty user name. |
| UtilsCluster.Cluster.constructor | utils/cluster.go:17-21 | A record holds the cluster, the binary directory and the configuration path it is given. |
| UtilsCluster.Cluster.Load | utils/cluster.go:32-45 | A missing file, a read error on an existing file, or a decode error is returned, and the cluster and binary directory are left unchanged. Otherwise the cluster becomes NewCluster of the saved configurations and the binary directory the saved one. |
| UtilsCluster.Cluster.Commit | utils/cluster.go:47-58 | Writes one configuration per content ID, in order, plus BinDir to ConfigPath, and returns the write's error. A failed write changes no file. |
| UtilsCluster.Cluster.MasterDataDir | utils/cluster.go:60-62 | The data directory of content -1, or "" when there is no master entry. |
| UtilsCluster.Cluster.MasterHost | utils/cluster.go:64-66 | The host name of content -1, or "" when there is no master entry. |
| UtilsCluster.Cluster.MasterPort | utils/cluster.go:68-70 | The port of content -1, or 0 when there is no master entry. |
| UtilsCluster.MasterOfLoadedCluster | utils/cluster.go:60-70 | After loading configurations that include the master's, the three accessors report that entry's directory, host and port. |
| UtilsCluster.Cluster.GetHostnames | utils/cluster.go:72-82 | No host name appears twice, and the names are exactly the segments' host names. |
| UtilsCluster.Cluster.NewDBConn | utils/cluster.go:84-109 | The database is "postgres" with no open connections, the host and port are the master's, and the user is ConnUser's choice. |
| UtilsCluster.Cluster.Unloaded | utils/cluster_test.go:47-49 | A record made from a configuration path alone holds that path, an empty cluster and an empty binary directory, ready for Load. |
| UtilsCluster.CommitThenLoad | utils/cluster_test.go:44-57 | Committing a well-formed record and loading the file into a fresh record gives the same cluster and binary directory, without error. |
| Commanders.HowManyHubsRunning | cli/commanders/preparer.go:97-115 | A count is never below -1. A non-negative parse is returned with no error, even if the command failed. Unparsable output gives -1 with the command's error if there is one, else `strconv.Atoi: parsing "<text>": invalid syntax` or `... value out of range` for the trimmed text. A negative parse gives -1 with the command's error. |
| Commanders.HowManyHubsRunningReadsCount | cli/commanders/preparer.go:99-111 | grep's "<n>\n" reads back as n with no error, whatever error the pipeline reported. |
| Commanders.NegativeCountWithoutError | cli/commanders/preparer.go:113-114 | A negative number printed by a successful pipeline yields -1 and no error. |
| Commanders.StartHub | cli/commanders/preparer.go:42-66 | The hub is launched exactly when the count succeeded and is below 1. A counting error is returned as is, and a count >= 1 gives "gpupgrade_hub process already running". A failed launch gives "failed to start hub (...)", followed by ": <stderr>" when the process exited with an error. |
| Commanders.StartHubGuard | cli/commanders/preparer.go:43-51 | With one or more hubs counted, StartHub fails with "already running" and does not launch. |
| Commanders.VerifyConnectivity | cli/commanders/preparer.go:78-85 | Pings 1 to 1 + attempts times and stops at the first success. Every ping before the last failed. Returns the last ping's outcome, which is success exactly when some ping succeeded. Fails only after all 1 + attempts pings failed. |
| Commanders.DoInit | cli/commanders/preparer.go:117-136 | An existing state directory gives the "already exists" error, and another mkdir error is returned as is; neither writes a file. Otherwise an empty source cluster and then an empty target cluster are saved. Each write error is wrapped as "Unable to save source/target cluster configuration: ...", and a target failure keeps the source file. |
| Commanders.DoInitFilesLoadEmpty | cli/commanders/preparer.go:124-135 | The two files are different paths, and each holds an empty cluster with its own binary directory. |
| Commanders.ShutdownClusters | cli/commanders/preparer.go:32-40 | Reports success even when the hub's RPC failed. |
| Commanders.InitCluster | cli/commanders/preparer.go:68-76 | Returns the hub's RPC error unchanged. |
| Commanders.StartAgents | cli/commanders/preparer.go:87-95 | Returns the hub's RPC error unchanged. |

## Left out

- Goroutines, the wait group and the error channel in `CheckAllFreePorts`: the fan-out is a sequential fold, and a lemma shows the verdict does not depend on order.
- HubPrepareInitCluster.PrepareInitCluster: each agent's answer depends only on the request, so ports that other processes take or release between the hub's retries are not modelled. `GetFreePortBase` on its own still allows a checker whose answers change from call to call.
- HubPrepareInitCluster.GetFreePortBase: the checker function is not passed the agent connections; the checker that PrepareInitCluster builds captures them instead.
- The rest of the `PrepareInitCluster` handler after the config lines is not modelled. That covers writing the file (the code discards the write's error), the host file, running `gpinitsystem`, and the database connection and `SaveTargetClusterConfig`, because database work is out of scope.
- The old-cluster reader (`configutils`) is not part of this model. What the handler reads from it is given as an `OldClusterView` value.
- The shell pipelines (netstat/awk/grep/ps), `GetOpenPort`, `os.Hostname`, `os.Mkdir`, `exec.Command` in `StartHub`, the RPC transport and `time.Sleep` are oracles: their outcomes are inputs.
- AgentCheckFreePorts.ConflictOutput: the `uniq | sort` stages are not modelled. The output is one line per listed port in range, and only whether it is empty matters to the agent.
- `math/rand` is a nondeterministic choice in `[0, MaxInt32 - 1024)`, so no distribution is modelled.
- JSON encoding is abstract: a file holds the encoded `ClusterConfig` value, an undecodable body with its decoder error, or is unreadable with its read error. Go's distinction between a nil and an empty slice is not modelled.
- `cluster.NewCluster` (gp-common-go-libs) is not part of this model. It is modelled as listing the content IDs in input order and keying the segments by content ID, with later entries replacing earlier ones. The command executor is not modelled.
- UtilsCluster.Cluster.Commit: `WriteJSONFile` is not part of this model. Its outcome is an input, and a failed write is taken to leave no partial file.
- UtilsCluster.Cluster.GetHostnames: Go's random map iteration order becomes a nondeterministic choice, so no particular order is promised.
- GoText.Atoi: only a 64-bit `int` is modelled, not a 32-bit platform.
- Commanders.AtoiError: quotes the text with plain double quotes rather than Go's `strconv.Quote` escaping.
- GoPath.Dir and GoPath.JoinPath: the cleaning of `.`, `..` and doubled slashes that Go's `path.Clean` performs is not modelled. Only the removal of trailing slashes is.
- The step state store and checklist manager (`upgradestatus`) are not part of this model.
- `create_data_dirs.go`, `check_config.go` and `hub_ping.go` are not modelled, because they are thin wrappers. Logging is not modelled either.
- The number of extra pings is the package variable `NumberOfConnectionAttempt` (100 unless reassigned). It is the `attempts` parameter of `VerifyConnectivity`, since any code in the program may reassign it.
- Go's 64-bit `int` is modelled as an unbounded integer where the core adds or subtracts on it: `maxSegmentPort + 1` (hub line 121), `port + 1` (hub line 77), and the segment count minus one. These overflow only beyond 2^63, far above any port or segment count.
- HubPrepareInitCluster.PrepareInitCluster: a panic in a gRPC handler ends the hub process, since nothing recovers it. The model returns the panic as the `SlicePanic` error instead.
- HubPrepareInitCluster.GrepProbe: netstat's listing and grep's regular-expression matching are not modelled. The probe is given the matches grep finds.
