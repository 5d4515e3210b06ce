/** The hub's and CLI's record of a Greenplum cluster (utils.Cluster): the
    segment configuration, the binary directory and the JSON file the record
    is saved to and read back from. */
module UtilsCluster {
  import opened Common

  const SourceConfigFilename: string := "source_cluster_config.json"
  const TargetConfigFilename: string := "target_cluster_config.json"

  /** One row of gp_segment_configuration (gp-common-go-libs' SegConfig). */
  datatype SegConfig = SegConfig(
    dbID: int,
    contentID: int,
    role: string,
    preferredRole: string,
    mode: string,
    status: string,
    port: int,
    hostname: string,
    address: string,
    dataDir: string)

  /** Go's zero SegConfig, what indexing a map with a missing key yields. */
  const ZeroSegConfig: SegConfig := SegConfig(0, 0, "", "", "", "", 0, "", "", "")

  /** gp-common-go-libs' cluster.Cluster without its command executor: the
      content IDs in configuration order and the segments keyed by content
      ID. The master has content ID -1. */
  datatype GpCluster = GpCluster(contentIDs: seq<int>, segments: map<int, SegConfig>)

  /** `c.Segments[contentID]` in Go: the zero value when the key is absent. */
  function Lookup(c: GpCluster, contentID: int): (seg: SegConfig)
    ensures contentID !in c.segments ==> seg == ZeroSegConfig
  {
    if contentID in c.segments then c.segments[contentID] else ZeroSegConfig
  }

  predicate Distinct(ids: seq<int>)
  {
    forall i, j | 0 <= i < j < |ids| :: ids[i] != ids[j]
  }

  /** A cluster as NewCluster builds it from a configuration without
      repeated content IDs: every listed ID once, a segment for each listed
      ID and for no other, each stored under its own content ID. */
  ghost predicate WellFormed(c: GpCluster)
  {
    && Distinct(c.contentIDs)
    && (forall id :: id in c.segments <==> id in c.contentIDs)
    && (forall id | id in c.segments :: c.segments[id].contentID == id)
  }

  function ContentIDsOf(segs: seq<SegConfig>): (ids: seq<int>)
    ensures |ids| == |segs|
    ensures forall i | 0 <= i < |segs| :: ids[i] == segs[i].contentID
  {
    if segs == [] then [] else ContentIDsOf(segs[..|segs| - 1]) + [segs[|segs| - 1].contentID]
  }

  /** No two entries of `segs` share a content ID. */
  predicate DistinctIds(segs: seq<SegConfig>)
  {
    forall i, j | 0 <= i < j < |segs| :: segs[i].contentID != segs[j].contentID
  }

  /** No later entry of `segs` has the content ID of entry `i`. */
  predicate LastWithItsId(segs: seq<SegConfig>, i: int)
    requires 0 <= i < |segs|
  {
    forall j | i < j < |segs| :: segs[j].contentID != segs[i].contentID
  }

  /** The segments of `segs` keyed by content ID; a later entry replaces an
      earlier one with the same ID. */
  function SegmentsMap(segs: seq<SegConfig>): (m: map<int, SegConfig>)
    ensures forall id | id in m :: m[id].contentID == id
  {
    if segs == [] then map[]
    else SegmentsMap(segs[..|segs| - 1])[segs[|segs| - 1].contentID := segs[|segs| - 1]]
  }

  /** The keys of SegmentsMap are exactly the content IDs listed. */
  lemma {:induction false} SegmentsMapKeys(segs: seq<SegConfig>)
    ensures forall id :: id in SegmentsMap(segs) <==> id in ContentIDsOf(segs)
  {
    if segs != [] {
      var init := segs[..|segs| - 1];
      SegmentsMapKeys(init);
      assert ContentIDsOf(segs) == ContentIDsOf(init) + [segs[|segs| - 1].contentID];
    }
  }

  /** An entry that no later entry overrides is what SegmentsMap keeps. */
  lemma {:induction false} SegmentsMapLast(segs: seq<SegConfig>, i: nat)
    requires i < |segs| && LastWithItsId(segs, i)
    ensures segs[i].contentID in SegmentsMap(segs)
    ensures SegmentsMap(segs)[segs[i].contentID] == segs[i]
  {
    if i < |segs| - 1 {
      var init := segs[..|segs| - 1];
      assert LastWithItsId(init, i);
      SegmentsMapLast(init, i);
    }
  }

  /** cluster.NewCluster, whose source is not part of this model: the
      content IDs in the order given, the segments keyed by content ID. */
  function NewCluster(segs: seq<SegConfig>): (c: GpCluster)
    ensures |c.contentIDs| == |segs|
    ensures forall i | 0 <= i < |segs| :: c.contentIDs[i] == segs[i].contentID
    ensures forall id :: id in c.segments <==> id in c.contentIDs
  {
    SegmentsMapKeys(segs);
    GpCluster(ContentIDsOf(segs), SegmentsMap(segs))
  }

  /** The segment configurations in content-ID order: what Commit saves. */
  function SegConfigsInOrder(c: GpCluster): (segs: seq<SegConfig>)
    ensures |segs| == |c.contentIDs|
    ensures forall i | 0 <= i < |segs| :: segs[i] == Lookup(c, c.contentIDs[i])
  {
    seq(|c.contentIDs|, i requires 0 <= i < |c.contentIDs| => Lookup(c, c.contentIDs[i]))
  }

  /** Saving a well-formed cluster and rebuilding it from what was saved
      gives the same cluster. */
  lemma NewClusterOfSaved(c: GpCluster)
    requires WellFormed(c)
    ensures NewCluster(SegConfigsInOrder(c)) == c
  {
    var segs := SegConfigsInOrder(c);
    var n := NewCluster(segs);
    forall i | 0 <= i < |segs|
      ensures segs[i].contentID == c.contentIDs[i] && LastWithItsId(segs, i)
    {
      assert c.contentIDs[i] in c.contentIDs;
    }
    assert n.contentIDs == c.contentIDs;
    forall id | id in c.segments
      ensures id in n.segments && n.segments[id] == c.segments[id]
    {
      var i :| 0 <= i < |c.contentIDs| && c.contentIDs[i] == id;
      SegmentsMapLast(segs, i);
    }
    assert n.segments == c.segments;
  }

  /** Rebuilding a cluster from configurations with distinct content IDs
      and saving it again gives back the same configurations, in order. */
  lemma SavedOfNewCluster(segs: seq<SegConfig>)
    requires DistinctIds(segs)
    ensures WellFormed(NewCluster(segs))
    ensures SegConfigsInOrder(NewCluster(segs)) == segs
  {
    var c := NewCluster(segs);
    forall i | 0 <= i < |segs|
      ensures Lookup(c, segs[i].contentID) == segs[i]
    {
      SegmentsMapLast(segs, i);
    }
  }

  /** In a cluster built from configurations with distinct content IDs,
      each configuration is found under its own content ID. */
  lemma LookupOfNewCluster(segs: seq<SegConfig>, i: nat)
    requires DistinctIds(segs)
    requires i < |segs|
    ensures segs[i].contentID in NewCluster(segs).segments
    ensures Lookup(NewCluster(segs), segs[i].contentID) == segs[i]
  {
    SegmentsMapLast(segs, i);
  }

  /** The content ID of the master segment. */
  const MasterContentID: int := -1

  /** The body of a cluster configuration file (utils.ClusterConfig). */
  datatype ClusterConfig = ClusterConfig(segConfigs: seq<SegConfig>, binDir: string)

  /** What a file holds: the JSON encoding of a ClusterConfig, bytes that do
      not decode as one (with the decoder's error), or a file that exists but
      cannot be read (a directory, no permission; with the read error). */
  datatype FileContents = Json(config: ClusterConfig) | Malformed(decodeErr: Error) | Unreadable(readErr: Error)

  /** The file system, by path. */
  type FileStore = map<string, FileContents>

  /** The error reading a path that does not exist. */
  function NoSuchFile(path: string): Error
  {
    Error("open " + path + ": no such file or directory")
  }

  /** The user a database connection logs in as: PGUSER when it is set and
      not empty, else the current OS user's name, else "gpadmin". */
  function ConnUser(pgUser: string, currentUser: Result<string>): (user: string)
    ensures pgUser != "" ==> user == pgUser
    ensures pgUser == "" && currentUser.Ok? ==> user == currentUser.value
    ensures pgUser == "" && currentUser.Fail? ==> user == "gpadmin"
  {
    if pgUser != "" then pgUser
    else if currentUser.Fail? then "gpadmin"
    else currentUser.value
  }

  /** The user is never empty unless PGUSER is unset and the OS reports an
      empty user name. */
  lemma ConnUserNotEmpty(pgUser: string, currentUser: Result<string>)
    ensures ConnUser(pgUser, currentUser) == "" <==> pgUser == "" && currentUser == Ok("")
  {
  }

  /** The fields of dbconn.DBConn that NewDBConn sets; the pool, driver,
      transaction and version are left at their zero values. */
  datatype DBConn = DBConn(numConns: int, user: string, dbName: string, host: string, port: int)

  class Cluster {
    var cluster: GpCluster
    var binDir: string
    var configPath: string

    constructor (cluster: GpCluster, binDir: string, configPath: string)
      ensures this.cluster == cluster && this.binDir == binDir && this.configPath == configPath
    {
      this.cluster := cluster;
      this.binDir := binDir;
      this.configPath := configPath;
    }

    /** A record that only knows where its file is, before Load. */
    constructor Unloaded(configPath: string)
      ensures cluster == GpCluster([], map[]) && binDir == "" && this.configPath == configPath
    {
      cluster := GpCluster([], map[]);
      binDir := "";
      this.configPath := configPath;
    }

    /** Reads the configuration file and rebuilds the record from it. A read
        or decode error is returned and leaves the record as it was. */
    method Load(files: FileStore) returns (err: Option<Error>)
      modifies this
      ensures configPath == old(configPath)
      ensures configPath !in files ==>
        err == Some(NoSuchFile(configPath)) && unchanged(this)
      ensures configPath in files && files[configPath].Unreadable? ==>
        err == Some(files[configPath].readErr) && unchanged(this)
      ensures configPath in files && files[configPath].Malformed? ==>
        err == Some(files[configPath].decodeErr) && unchanged(this)
      ensures configPath in files && files[configPath].Json? ==>
        err.None? &&
        cluster == NewCluster(files[configPath].config.segConfigs) &&
        binDir == files[configPath].config.binDir
    {
      if configPath !in files {
        return Some(NoSuchFile(configPath));
      }
      var contents := files[configPath];
      if contents.Unreadable? {
        return Some(contents.readErr);
      }
      if contents.Malformed? {
        return Some(contents.decodeErr);
      }
      cluster := NewCluster(contents.config.segConfigs);
      binDir := contents.config.binDir;
      return None;
    }

    /** Writes the record to its file: one segment configuration per content
        ID, in order, and the binary directory. `writeErr` is the outcome of
        the write; a failed write leaves the files as they were. */
    method Commit(files: FileStore, writeErr: Option<Error>) returns (written: FileStore, err: Option<Error>)
      ensures err == writeErr
      ensures writeErr.Some? ==> written == files
      ensures writeErr.None? ==> written == files[configPath := Json(ClusterConfig(SegConfigsInOrder(cluster), binDir))]
    {
      var segConfigs: seq<SegConfig> := [];
      for k := 0 to |cluster.contentIDs|
        invariant |segConfigs| == k
        invariant forall i | 0 <= i < k :: segConfigs[i] == Lookup(cluster, cluster.contentIDs[i])
      {
        segConfigs := segConfigs + [Lookup(cluster, cluster.contentIDs[k])];
      }
      var clusterConfig := ClusterConfig(segConfigs, binDir);
      assert clusterConfig.segConfigs == SegConfigsInOrder(cluster);
      if writeErr.Some? {
        return files, writeErr;
      }
      return files[configPath := Json(clusterConfig)], None;
    }

    function MasterDataDir(): (dir: string)
      reads this
      ensures MasterContentID in cluster.segments ==> dir == cluster.segments[MasterContentID].dataDir
      ensures MasterContentID !in cluster.segments ==> dir == ""
    {
      Lookup(cluster, MasterContentID).dataDir
    }

    function MasterHost(): (host: string)
      reads this
      ensures MasterContentID in cluster.segments ==> host == cluster.segments[MasterContentID].hostname
      ensures MasterContentID !in cluster.segments ==> host == ""
    {
      Lookup(cluster, MasterContentID).hostname
    }

    function MasterPort(): (port: int)
      reads this
      ensures MasterContentID in cluster.segments ==> port == cluster.segments[MasterContentID].port
      ensures MasterContentID !in cluster.segments ==> port == 0
    {
      Lookup(cluster, MasterContentID).port
    }

    /** The distinct host names of the segments, in no particular order. */
    method GetHostnames() returns (hostnames: seq<string>)
      ensures forall i, j | 0 <= i < j < |hostnames| :: hostnames[i] != hostnames[j]
      ensures forall h :: h in hostnames <==> h in SegmentHostnames(cluster)
    {
      var hostnameSet: set<string> := {};
      var left := cluster.segments.Keys;
      while left != {}
        invariant left <= cluster.segments.Keys
        invariant hostnameSet == set id | id in cluster.segments.Keys - left :: cluster.segments[id].hostname
        decreases left
      {
        ghost var member := Pick(left);
        var id :| id in left;
        hostnameSet := hostnameSet + {cluster.segments[id].hostname};
        left := left - {id};
      }
      hostnames := [];
      var rest := hostnameSet;
      while rest != {}
        invariant rest <= hostnameSet
        invariant forall h :: h in hostnames <==> h in hostnameSet - rest
        invariant forall i, j | 0 <= i < j < |hostnames| :: hostnames[i] != hostnames[j]
        decreases rest
      {
        ghost var member := Pick(rest);
        var h :| h in rest;
        assert h !in hostnames;
        hostnames := hostnames + [h];
        rest := rest - {h};
      }
    }

    /** A connection to the master's "postgres" database as the user
        ConnUser picks from PGUSER (`pgUser`, "" when unset) and the OS's
        current user. */
    function NewDBConn(pgUser: string, currentUser: Result<string>): (conn: DBConn)
      reads this
      ensures conn.dbName == "postgres" && conn.numConns == 0
      ensures conn.host == MasterHost() && conn.port == MasterPort()
      ensures conn.user == ConnUser(pgUser, currentUser)
    {
      DBConn(0, ConnUser(pgUser, currentUser), "postgres", MasterHost(), MasterPort())
    }
  }

  /** The host names of all segments, master included. */
  function SegmentHostnames(c: GpCluster): set<string>
  {
    set id | id in c.segments :: c.segments[id].hostname
  }

  /** Once loaded from configurations with distinct content IDs that
      include the master's, the master accessors report that entry. */
  lemma MasterOfLoadedCluster(c: Cluster, segs: seq<SegConfig>, i: nat)
    requires DistinctIds(segs)
    requires i < |segs| && segs[i].contentID == MasterContentID
    requires c.cluster == NewCluster(segs)
    ensures c.MasterDataDir() == segs[i].dataDir
    ensures c.MasterHost() == segs[i].hostname
    ensures c.MasterPort() == segs[i].port
  {
    LookupOfNewCluster(segs, i);
  }

  /** Saving a record and loading the file into a fresh record rebuilds the
      same cluster and binary directory. */
  method CommitThenLoad(expected: Cluster, files: FileStore) returns (given: Cluster, err: Option<Error>)
    requires WellFormed(expected.cluster)
    ensures err.None?
    ensures given.cluster == expected.cluster && given.binDir == expected.binDir
    ensures given.configPath == expected.configPath
  {
    var written, commitErr := expected.Commit(files, None);
    given := new Cluster.Unloaded(expected.configPath);
    err := given.Load(written);
    NewClusterOfSaved(expected.cluster);
  }
}
