/**
 * The session writer of pkg/config/config.go: the session record (Cluster)
 * and the display record (Profile), how each is built from a profile of the
 * store, how it is serialised, and how Create writes the two artefacts to the
 * file system.
 */
module Config {
  import opened Wrappers
  import opened ProfileStore

  /** sensuctl's configuration directory, before homedir.Expand. */
  const SensuctlDir := "~/.config/sensu/sensuctl/"
  const ClusterFile := SensuctlDir + "cluster"
  const ProfileFile := SensuctlDir + "profile"
  const DefaultFormat := "tabular"
  const DefaultNamespace := "default"

  /** time.Second: a Go time.Duration counts nanoseconds. */
  const Second := 1_000_000_000
  const DefaultTimeout := 15 * Second

  /** The session record, fields in struct order.  `timeout` is in nanoseconds. */
  datatype Cluster = Cluster(
    apiUrl: string,
    trustedCaFile: string,
    insecureSkipTlsVerify: bool,
    accessToken: string,
    expiresAt: int,
    refreshToken: string,
    timeout: int)

  /** config.Cluster{}: every field at its zero value. */
  const ZeroCluster := Cluster("", "", false, "", 0, "", 0)

  /** The display record. */
  datatype Profile = Profile(format: string, namespace: string)

  // ---------------------------------------------------------------------------
  // Serialisation: a JSON object as its ordered list of (key, value) pairs.
  // ---------------------------------------------------------------------------

  datatype Json = JString(str: string) | JBool(flag: bool) | JNumber(num: int)

  type Document = seq<(string, Json)>

  /**
   * The keys of the cluster document, in struct field order.  The Timeout
   * field's tag is malformed (a single quote opens it), so encoding/json
   * falls back to the Go field name.
   */
  const ClusterKeys: seq<string> :=
    ["api-url", "trusted-ca-file", "insecure-skip-tls-verify",
     "access_token", "expires_at", "refresh_token", "Timeout"]

  const ProfileKeys: seq<string> := ["format", "namespace"]

  /** The value of the first member named `key`, if any. */
  function Lookup(d: Document, key: string): (r: Option<Json>)
    ensures r.Some? ==> (key, r.value) in d
  {
    if d == [] then None
    else if d[0].0 == key then Some(d[0].1)
    else Lookup(d[1..], key)
  }

  /**
   * json.MarshalIndent of a Cluster, without the layout bytes: the members in
   * struct field order, Timeout last under its Go name.
   */
  function EncodeCluster(c: Cluster): (d: Document)
    ensures |d| == |ClusterKeys| && forall i :: 0 <= i < |d| ==> d[i].0 == ClusterKeys[i]
  {
    [("api-url", JString(c.apiUrl)),
     ("trusted-ca-file", JString(c.trustedCaFile)),
     ("insecure-skip-tls-verify", JBool(c.insecureSkipTlsVerify)),
     ("access_token", JString(c.accessToken)),
     ("expires_at", JNumber(c.expiresAt)),
     ("refresh_token", JString(c.refreshToken)),
     ("Timeout", JNumber(c.timeout))]
  }

  /** json.MarshalIndent of a Profile, without the layout bytes. */
  function EncodeProfile(p: Profile): (d: Document)
    ensures |d| == |ProfileKeys| && forall i :: 0 <= i < |d| ==> d[i].0 == ProfileKeys[i]
  {
    [("format", JString(p.format)), ("namespace", JString(p.namespace))]
  }

  function StringAt(d: Document, key: string): string
  {
    match Lookup(d, key)
    case Some(JString(s)) => s
    case _ => ""
  }

  function BoolAt(d: Document, key: string): bool
  {
    match Lookup(d, key)
    case Some(JBool(b)) => b
    case _ => false
  }

  function NumberAt(d: Document, key: string): int
  {
    match Lookup(d, key)
    case Some(JNumber(n)) => n
    case _ => 0
  }

  /** json.Unmarshal into a Cluster: a member that is absent or of the wrong kind leaves the zero value. */
  function DecodeCluster(d: Document): (c: Cluster)
    ensures Lookup(d, "api-url").None? ==> c.apiUrl == ""
    ensures Lookup(d, "trusted-ca-file").None? ==> c.trustedCaFile == ""
    ensures Lookup(d, "insecure-skip-tls-verify").None? ==> !c.insecureSkipTlsVerify
    ensures Lookup(d, "access_token").None? ==> c.accessToken == ""
    ensures Lookup(d, "expires_at").None? ==> c.expiresAt == 0
    ensures Lookup(d, "refresh_token").None? ==> c.refreshToken == ""
    ensures Lookup(d, "Timeout").None? ==> c.timeout == 0
  {
    Cluster(StringAt(d, "api-url"), StringAt(d, "trusted-ca-file"),
            BoolAt(d, "insecure-skip-tls-verify"), StringAt(d, "access_token"),
            NumberAt(d, "expires_at"), StringAt(d, "refresh_token"),
            NumberAt(d, "Timeout"))
  }

  /** json.Unmarshal into a Profile. */
  function DecodeProfile(d: Document): (p: Profile)
    ensures Lookup(d, "format").None? ==> p.format == ""
    ensures Lookup(d, "namespace").None? ==> p.namespace == ""
  {
    Profile(StringAt(d, "format"), StringAt(d, "namespace"))
  }

  /** A member whose key does not occur earlier is the one Lookup finds. */
  lemma {:induction false} LookupFindsFirst(d: Document, i: int)
    requires 0 <= i < |d|
    requires forall j :: 0 <= j < i ==> d[j].0 != d[i].0
    ensures Lookup(d, d[i].0) == Some(d[i].1)
  {
    if i > 0 {
      assert d[0].0 != d[i].0;
      assert d[1..][i - 1] == d[i];
      LookupFindsFirst(d[1..], i - 1);
    }
  }

  /** The member at index i of the encoded cluster document holds its field. */
  lemma ClusterMember(c: Cluster, i: int)
    requires 0 <= i < 7
    ensures Lookup(EncodeCluster(c), ClusterKeys[i]) == Some(EncodeCluster(c)[i].1)
  {
    LookupFindsFirst(EncodeCluster(c), i);
  }

  /** Each member of the encoded cluster document holds its field. */
  lemma ClusterMembers(c: Cluster)
    ensures var d := EncodeCluster(c);
      && Lookup(d, "api-url") == Some(JString(c.apiUrl))
      && Lookup(d, "trusted-ca-file") == Some(JString(c.trustedCaFile))
      && Lookup(d, "insecure-skip-tls-verify") == Some(JBool(c.insecureSkipTlsVerify))
      && Lookup(d, "access_token") == Some(JString(c.accessToken))
      && Lookup(d, "expires_at") == Some(JNumber(c.expiresAt))
      && Lookup(d, "refresh_token") == Some(JString(c.refreshToken))
      && Lookup(d, "Timeout") == Some(JNumber(c.timeout))
  {
    ClusterMember(c, 0);
    ClusterMember(c, 1);
    ClusterMember(c, 2);
    ClusterMember(c, 3);
    ClusterMember(c, 4);
    ClusterMember(c, 5);
    ClusterMember(c, 6);
  }

  /** Reading back a written cluster artefact gives the record that was written. */
  lemma DecodeEncodeCluster(c: Cluster)
    ensures DecodeCluster(EncodeCluster(c)) == c
  {
    ClusterMembers(c);
  }

  /** Reading back a written display artefact gives the record that was written. */
  lemma DecodeEncodeProfile(p: Profile)
    ensures DecodeProfile(EncodeProfile(p)) == p
  {
    LookupFindsFirst(EncodeProfile(p), 0);
    LookupFindsFirst(EncodeProfile(p), 1);
  }

  // ---------------------------------------------------------------------------
  // newClusterConfig and newProfileConfig
  // ---------------------------------------------------------------------------

  /**
   * The record newClusterConfig serialises: `c` (the record decoded from the
   * backend's token response) with the API URL always taken from the profile,
   * the CA path and the insecure flag taken from the profile only when the
   * profile sets them, and the profile's timeout or the 15-second default.
   */
  function NewClusterRecord(c: Cluster, store: Store, name: string): (r: Cluster)
    // the API URL does not depend on the decoded record
    ensures r.apiUrl == GetString(store, name, "api")
    // the token fields pass through, and only the four profile fields differ from c
    ensures r.(apiUrl := c.apiUrl, trustedCaFile := c.trustedCaFile,
               insecureSkipTlsVerify := c.insecureSkipTlsVerify, timeout := c.timeout) == c
    ensures !IsSet(store, name, "trusted-ca-file") ==> r.trustedCaFile == c.trustedCaFile
    ensures !IsSet(store, name, "insecure-skip-tls-verify") ==> r.insecureSkipTlsVerify == c.insecureSkipTlsVerify
    ensures !IsSet(store, name, "timeout") ==> r.timeout == DefaultTimeout
  {
    var c1 := c.(apiUrl := GetString(store, name, "api"));
    var c2 := if IsSet(store, name, "trusted-ca-file")
      then c1.(trustedCaFile := GetString(store, name, "trusted-ca-file")) else c1;
    var c3 := if IsSet(store, name, "timeout")
      then c2.(timeout := GetDuration(store, name, "timeout")) else c2.(timeout := DefaultTimeout);
    if IsSet(store, name, "insecure-skip-tls-verify")
    then c3.(insecureSkipTlsVerify := GetBool(store, name, "insecure-skip-tls-verify")) else c3
  }

  /** newClusterConfig: the serialised session record, which reads back as NewClusterRecord. */
  function NewClusterConfig(c: Cluster, store: Store, name: string): (d: Document)
    ensures DecodeCluster(d) == NewClusterRecord(c, store, name)
  {
    DecodeEncodeCluster(NewClusterRecord(c, store, name));
    EncodeCluster(NewClusterRecord(c, store, name))
  }

  /** The written api-url is the profile's `api`, whatever the response held. */
  lemma ApiUrlFromProfile(c: Cluster, store: Store, name: string)
    ensures Lookup(NewClusterConfig(c, store, name), "api-url") == Some(JString(GetString(store, name, "api")))
  {
    ClusterMembers(NewClusterRecord(c, store, name));
  }

  /** The written Timeout is the profile's duration when set, else 15 s in nanoseconds. */
  lemma TimeoutSelection(c: Cluster, store: Store, name: string)
    ensures IsSet(store, name, "timeout") ==>
      Lookup(NewClusterConfig(c, store, name), "Timeout") == Some(JNumber(GetDuration(store, name, "timeout")))
    ensures !IsSet(store, name, "timeout") ==>
      Lookup(NewClusterConfig(c, store, name), "Timeout") == Some(JNumber(15_000_000_000))
  {
    ClusterMembers(NewClusterRecord(c, store, name));
  }

  /**
   * The CA path and the insecure flag come from the profile when it sets the
   * key (even to "" or false), and otherwise keep the decoded record's value.
   */
  lemma OptionalFieldsOverwrittenOnlyWhenSet(c: Cluster, store: Store, name: string)
    ensures var d := NewClusterConfig(c, store, name);
      && Lookup(d, "trusted-ca-file") == Some(JString(
           if IsSet(store, name, "trusted-ca-file") then GetString(store, name, "trusted-ca-file") else c.trustedCaFile))
      && Lookup(d, "insecure-skip-tls-verify") == Some(JBool(
           if IsSet(store, name, "insecure-skip-tls-verify") then GetBool(store, name, "insecure-skip-tls-verify")
           else c.insecureSkipTlsVerify))
  {
    ClusterMembers(NewClusterRecord(c, store, name));
  }

  /** The token fields of the response reach the artefact unchanged. */
  lemma TokensPassThrough(c: Cluster, store: Store, name: string)
    ensures var d := NewClusterConfig(c, store, name);
      && Lookup(d, "access_token") == Some(JString(c.accessToken))
      && Lookup(d, "expires_at") == Some(JNumber(c.expiresAt))
      && Lookup(d, "refresh_token") == Some(JString(c.refreshToken))
  {
    ClusterMembers(NewClusterRecord(c, store, name));
  }

  /** Applying the profile a second time changes nothing. */
  lemma NewClusterRecordIdempotent(c: Cluster, store: Store, name: string)
    ensures NewClusterRecord(NewClusterRecord(c, store, name), store, name) == NewClusterRecord(c, store, name)
  {
  }

  /**
   * The display record newProfileConfig serialises: an empty format becomes
   * "tabular" and an empty namespace "default"; the test is emptiness, so a
   * key set to "" is defaulted like an absent one.
   */
  function NewProfileRecord(store: Store, name: string): (p: Profile)
    ensures p.format != "" && p.namespace != ""
    ensures GetString(store, name, "format") != "" ==> p.format == GetString(store, name, "format")
    ensures GetString(store, name, "namespace") != "" ==> p.namespace == GetString(store, name, "namespace")
    ensures GetString(store, name, "format") == "" ==> p.format == DefaultFormat
    ensures GetString(store, name, "namespace") == "" ==> p.namespace == DefaultNamespace
  {
    var format := GetString(store, name, "format");
    var namespace := GetString(store, name, "namespace");
    Profile(if format == "" then DefaultFormat else format,
            if namespace == "" then DefaultNamespace else namespace)
  }

  /** newProfileConfig: the serialised display record, which reads back as NewProfileRecord. */
  function NewProfileConfig(store: Store, name: string): (d: Document)
    ensures DecodeProfile(d) == NewProfileRecord(store, name)
  {
    DecodeEncodeProfile(NewProfileRecord(store, name));
    EncodeProfile(NewProfileRecord(store, name))
  }

  /** A format or namespace key set to "" is treated exactly as one left out. */
  lemma DisplayDefaultsTestEmptiness(store: Store, name: string, key: string)
    requires key == "format" || key == "namespace"
    ensures NewProfileRecord(store[name := EntryOf(store, name)[key := Text("")]], name)
         == NewProfileRecord(store[name := EntryOf(store, name) - {key}], name)
  {
  }

  // ---------------------------------------------------------------------------
  // The file system and the writes
  // ---------------------------------------------------------------------------

  /** The two artefacts. */
  datatype Path = ClusterPath | ProfilePath

  /** The file each artefact is written to: a file inside sensuctl's directory. */
  function Location(p: Path): (loc: string)
    ensures |loc| > |SensuctlDir| && loc[..|SensuctlDir|] == SensuctlDir
  {
    match p
    case ClusterPath => ClusterFile
    case ProfilePath => ProfileFile
  }

  /** The two artefacts live in different files, so writing one never touches the other. */
  lemma LocationsDistinct(p: Path, q: Path)
    ensures Location(p) == Location(q) <==> p == q
  {
    if p != q {
      assert Location(ClusterPath)[|SensuctlDir|] == 'c';
      assert Location(ProfilePath)[|SensuctlDir|] == 'p';
    }
  }

  /** homedir.Expand failing to find the home directory. */
  datatype Error = HomeDirUnresolved

  /**
   * A snapshot of the file system as the core sees it: the two artefacts
   * (None when absent), whether the home directory can be resolved, which
   * artefacts ioutil.WriteFile can write, and the writes attempted so far.
   */
  datatype Disk = Disk(
    cluster: Option<Document>,
    profile: Option<Document>,
    homeResolves: bool,
    writable: set<Path>,
    log: seq<Path>)

  /** What Create or a Write* function leaves behind, and the error it returns. */
  datatype Persisted = Persisted(disk: Disk, err: Option<Error>)

  /** ioutil.WriteFile(path, doc): the whole file is replaced when the write goes through. */
  function FileWritten(d: Disk, p: Path, doc: Document): (d': Disk)
    ensures d'.homeResolves == d.homeResolves && d'.writable == d.writable
    ensures d'.log == d.log + [p]
    // a write that goes through replaces its own file and leaves the other one alone
    ensures p in d.writable && p == ClusterPath ==> d'.cluster == Some(doc) && d'.profile == d.profile
    ensures p in d.writable && p == ProfilePath ==> d'.profile == Some(doc) && d'.cluster == d.cluster
    // a write that does not go through changes neither file
    ensures p !in d.writable ==> d'.cluster == d.cluster && d'.profile == d.profile
  {
    var d1 := d.(log := d.log + [p]);
    if p !in d.writable then d1
    else match p
      case ClusterPath => d1.(cluster := Some(doc))
      case ProfilePath => d1.(profile := Some(doc))
  }

  /** WriteSensuClusterConfig / WriteSensuProfileConfig on the snapshot. */
  function WriteSpec(d: Disk, p: Path, doc: Document): (r: Persisted)
    // only the home-directory expansion can produce an error, and then nothing is written
    ensures r.err.Some? <==> !d.homeResolves
    ensures r.err.Some? ==> r.disk == d
    // a write that does not go through is still reported as success
    ensures r.err.None? && p !in d.writable ==> r.disk.cluster == d.cluster && r.disk.profile == d.profile
    // otherwise the result is the file write itself
    ensures r.err.None? ==> r.disk == FileWritten(d, p, doc)
  {
    if !d.homeResolves then Persisted(d, Some(HomeDirUnresolved))
    else Persisted(FileWritten(d, p, doc), None)
  }

  /**
   * config.Create on the snapshot: the cluster artefact, then the display
   * artefact.  The documents are those newClusterConfig and newProfileConfig
   * build, written out as the encoded records.
   */
  function CreateSpec(d: Disk, c: Cluster, store: Store, name: string): (r: Persisted)
    ensures r.disk.homeResolves == d.homeResolves && r.disk.writable == d.writable
    ensures r.err.Some? <==> !d.homeResolves
    // on error nothing was attempted; otherwise cluster strictly before profile
    ensures r.err.Some? ==> r.disk == d
    ensures r.err.None? ==> r.disk.log == d.log + [ClusterPath, ProfilePath]
    ensures r.err.None? ==>
      && r.disk.cluster == (if ClusterPath in d.writable then Some(EncodeCluster(NewClusterRecord(c, store, name))) else d.cluster)
      && r.disk.profile == (if ProfilePath in d.writable then Some(EncodeProfile(NewProfileRecord(store, name))) else d.profile)
  {
    var first := WriteSpec(d, ClusterPath, EncodeCluster(NewClusterRecord(c, store, name)));
    if first.err.Some? then first
    else WriteSpec(first.disk, ProfilePath, EncodeProfile(NewProfileRecord(store, name)))
  }

  /**
   * The pair of writes is not atomic: when only the cluster artefact can be
   * written, Create reports success with a new session file beside a stale
   * display file.
   */
  lemma CreateNotAtomic(d: Disk, c: Cluster, store: Store, name: string)
    requires d.homeResolves && d.writable == {ClusterPath}
    ensures var r := CreateSpec(d, c, store, name);
      && r.err == None
      && r.disk.cluster == Some(NewClusterConfig(c, store, name))
      && r.disk.profile == d.profile
  {
  }

  /** Create a second time with the same inputs leaves the same two artefacts. */
  lemma CreateIdempotent(d: Disk, c: Cluster, store: Store, name: string)
    ensures var r1 := CreateSpec(d, c, store, name);
            var r2 := CreateSpec(r1.disk, c, store, name);
      && r2.err == r1.err
      && r2.disk.cluster == r1.disk.cluster
      && r2.disk.profile == r1.disk.profile
  {
  }

  /** The local file system holding the two artefacts. */
  class FileSystem {
    var cluster: Option<Document>
    var profile: Option<Document>
    const homeResolves: bool
    const writable: set<Path>
    ghost var log: seq<Path>

    ghost function State(): Disk
      reads this
    {
      Disk(cluster, profile, homeResolves, writable, log)
    }

    constructor (cluster: Option<Document>, profile: Option<Document>, homeResolves: bool, writable: set<Path>)
      ensures State() == Disk(cluster, profile, homeResolves, writable, [])
    {
      this.cluster := cluster;
      this.profile := profile;
      this.homeResolves := homeResolves;
      this.writable := writable;
      log := [];
    }

    /** ioutil.WriteFile: reports whether the file was written. */
    method WriteFile(p: Path, doc: Document) returns (ok: bool)
      modifies this
      ensures ok <==> p in writable
      ensures State() == FileWritten(old(State()), p, doc)
    {
      log := log + [p];
      ok := p in writable;
      if ok {
        match p
        case ClusterPath => cluster := Some(doc);
        case ProfilePath => profile := Some(doc);
      }
    }
  }

  /** WriteSensuClusterConfig: the result of the file write itself is discarded. */
  method WriteSensuClusterConfig(fs: FileSystem, newCluster: Document) returns (err: Option<Error>)
    modifies fs
    ensures Persisted(fs.State(), err) == WriteSpec(old(fs.State()), ClusterPath, newCluster)
  {
    if !fs.homeResolves {
      return Some(HomeDirUnresolved);
    }
    var _ := fs.WriteFile(ClusterPath, newCluster);
    return None;
  }

  /** WriteSensuProfileConfig: the result of the file write itself is discarded. */
  method WriteSensuProfileConfig(fs: FileSystem, newProfile: Document) returns (err: Option<Error>)
    modifies fs
    ensures Persisted(fs.State(), err) == WriteSpec(old(fs.State()), ProfilePath, newProfile)
  {
    if !fs.homeResolves {
      return Some(HomeDirUnresolved);
    }
    var _ := fs.WriteFile(ProfilePath, newProfile);
    return None;
  }

  /** Create: build and write the cluster artefact, then build and write the display artefact. */
  method Create(fs: FileSystem, c: Cluster, store: Store, name: string) returns (err: Option<Error>)
    modifies fs
    ensures Persisted(fs.State(), err) == CreateSpec(old(fs.State()), c, store, name)
  {
    var newCluster := NewClusterConfig(c, store, name);
    err := WriteSensuClusterConfig(fs, newCluster);
    if err.Some? {
      return;
    }
    var newProfile := NewProfileConfig(store, name);
    err := WriteSensuProfileConfig(fs, newProfile);
  }
}
