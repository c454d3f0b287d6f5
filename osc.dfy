/**
 * The connect flow of pkg/osc/osc.go.  The HTTP client, the PEM and X.509
 * libraries and the system certificate pool are outside the model: each of
 * their calls is an abstract outcome held in an Env, and the flow is a
 * decision over those outcomes, the profile store and the file system.
 */
module Osc {
  import opened Wrappers
  import opened ProfileStore
  import opened Config

  /** The http.Client timeout Connect sets, independent of the profile's timeout. */
  const ClientTimeout := 10 * Second

  const StatusOK := 200

  // ---------------------------------------------------------------------------
  // Abstract outcomes of the collaborators
  // ---------------------------------------------------------------------------

  type Byte = b: int | 0 <= b < 256

  /** An X.509 certificate, reduced to what Connect inspects. */
  datatype Certificate = Certificate(der: seq<Byte>, isCA: bool)

  /** An x509.CertPool: a set, since AddCert skips a certificate the pool already holds. */
  datatype CertPool = CertPool(certs: set<Certificate>)

  /** x509.NewCertPool(). */
  const EmptyPool := CertPool({})

  /** os.Open followed by ioutil.ReadAll of the trusted-CA path. */
  datatype CaFile = OpenFailed | ReadFailed | Contents(data: seq<Byte>)

  /**
   * One HTTP exchange: http.NewRequest failed, client.Do failed with no
   * response, or a response arrived.  client.Do returns an error together
   * with a response when the redirect policy stops (after 10 redirects); that
   * exchange is a Reply with the last 3xx status.
   */
  datatype Exchange =
    | RequestNotBuilt
    | TransportError
    | Reply(status: int, body: Cluster)   // body: what json.Unmarshal decodes from the response

  /** What the outside world answers during one Connect. */
  datatype Env = Env(
    caFile: CaFile,                     // reading the trusted-CA file
    pemBlock: Option<seq<Byte>>,        // pem.Decode of its contents: the first block, if any
    certificate: Option<Certificate>,   // x509.ParseCertificate of that block
    systemPool: Option<CertPool>,       // x509.SystemCertPool; None when it fails
    probe: Exchange,                    // GET {api}/auth/test
    token: Exchange)                    // GET {api}/auth

  // ---------------------------------------------------------------------------
  // The HTTP client and its TLS set-up
  // ---------------------------------------------------------------------------

  datatype TlsConfig = TlsConfig(insecureSkipVerify: bool, rootCAs: Option<CertPool>)

  /** An *http.Transport; tls is its TLSClientConfig (None is nil). */
  datatype Transport = Transport(tls: Option<TlsConfig>)

  /** An http.Client; transport None is the default transport. */
  datatype Client = Client(timeout: int, transport: Option<Transport>)

  function SkipsVerify(c: Client): bool
  {
    c.transport.Some? && c.transport.value.tls.Some? && c.transport.value.tls.value.insecureSkipVerify
  }

  function RootCAs(c: Client): Option<CertPool>
  {
    if c.transport.Some? && c.transport.value.tls.Some? then c.transport.value.tls.value.rootCAs else None
  }

  /** Why the trusted-CA set-up stopped Connect. */
  datatype TlsFailure = CaOpenFailed | CaReadFailed | CaNotPem | CaUnparsable | CaNotAuthority

  /** The trusted-CA checks, in the order Connect makes them. */
  function CheckCa(env: Env): (r: Result<Certificate, TlsFailure>)
    ensures r.Success? <==>
      env.caFile.Contents? && env.pemBlock.Some? && env.certificate.Some? && env.certificate.value.isCA
    ensures r.Success? ==> r.value == env.certificate.value
    ensures env.caFile.OpenFailed? ==> r == Failure(CaOpenFailed)
    ensures env.caFile.ReadFailed? ==> r == Failure(CaReadFailed)
    ensures env.caFile.Contents? && env.pemBlock.None? ==> r == Failure(CaNotPem)
    ensures env.caFile.Contents? && env.pemBlock.Some? && env.certificate.None? ==> r == Failure(CaUnparsable)
    ensures env.caFile.Contents? && env.pemBlock.Some? && env.certificate.Some? && !env.certificate.value.isCA
      ==> r == Failure(CaNotAuthority)
  {
    if env.caFile.OpenFailed? then Failure(CaOpenFailed)
    else if env.caFile.ReadFailed? then Failure(CaReadFailed)
    else if env.pemBlock.None? then Failure(CaNotPem)
    else if env.certificate.None? then Failure(CaUnparsable)
    else if !env.certificate.value.isCA then Failure(CaNotAuthority)
    else Success(env.certificate.value)
  }

  /** The root pool: the system pool (or an empty one when it is unavailable) plus the CA. */
  function TrustPool(env: Env, cert: Certificate): (p: CertPool)
    ensures forall x :: x in p.certs <==> x == cert || (env.systemPool.Some? && x in env.systemPool.value.certs)
    ensures env.systemPool.None? ==> p.certs == {cert}
  {
    var base := if env.systemPool.Some? then env.systemPool.value else EmptyPool;
    CertPool(base.certs + {cert})
  }

  /** The client Connect builds, or the trusted-CA failure that stops it. */
  function ClientSetup(insecure: bool, caPath: string, env: Env): (r: Result<Client, TlsFailure>)
    ensures r.Failure? <==> caPath != "" && CheckCa(env).Failure?
    ensures r.Failure? ==> r.error == CheckCa(env).error
    ensures r.Success? ==> r.value.timeout == ClientTimeout
    ensures r.Success? ==> SkipsVerify(r.value) == insecure
    ensures r.Success? ==>
      RootCAs(r.value) == if caPath == "" then None else Some(TrustPool(env, CheckCa(env).value))
    ensures r.Success? && !insecure && caPath == "" ==> r.value.transport.None?
  {
    var client := Client(ClientTimeout,
      if insecure then Some(Transport(Some(TlsConfig(true, None)))) else None);
    if caPath == "" then Success(client)
    else match CheckCa(env)
      case Failure(f) => Failure(f)
      case Success(cert) =>
        var tls := if insecure then TlsConfig(true, None) else TlsConfig(false, None);
        Success(client.(transport := Some(Transport(Some(tls.(rootCAs := Some(TrustPool(env, cert))))))))
  }

  /** A failing system pool does not stop Connect: the CA alone becomes the root pool. */
  lemma SystemPoolFailureTolerated(insecure: bool, caPath: string, env: Env)
    requires caPath != "" && env.systemPool.None?
    requires env.caFile.Contents? && env.pemBlock.Some? && env.certificate.Some? && env.certificate.value.isCA
    ensures ClientSetup(insecure, caPath, env).Success?
    ensures RootCAs(ClientSetup(insecure, caPath, env).value) == Some(CertPool({env.certificate.value}))
  {
  }

  // ---------------------------------------------------------------------------
  // backendAuth and backendToken
  // ---------------------------------------------------------------------------

  /**
   * backendAuth: true exactly for a 200 reply.  A request that cannot be
   * built panics, since SetBasicAuth is called on the nil request before the
   * error is checked.
   */
  function BackendAuth(ex: Exchange): (r: Crashable<bool>)
    ensures r == Returned(true) <==> ex.Reply? && ex.status == StatusOK
    ensures r.Panicked? <==> ex.RequestNotBuilt?
  {
    match ex
    case RequestNotBuilt => Panicked
    case TransportError => Returned(false)
    case Reply(status, _) => Returned(status == StatusOK)
  }

  /**
   * backendToken: a 200 reply yields the decoded body, any other status the
   * zero record, and neither is an error.  A request that cannot be built
   * panics as in backendAuth, and so does a transport error (the body of the
   * nil response is read).
   */
  function BackendToken(ex: Exchange): (r: Crashable<Cluster>)
    ensures r.Panicked? <==> !ex.Reply?
    ensures r.Returned? && ex.status == StatusOK ==> r.value == ex.body
    ensures r.Returned? && ex.status != StatusOK ==> r.value == ZeroCluster
  {
    match ex
    case Reply(status, body) => Returned(if status == StatusOK then body else ZeroCluster)
    case _ => Panicked
  }

  // ---------------------------------------------------------------------------
  // Connect
  // ---------------------------------------------------------------------------

  /** A request sent over the network, with its Basic credentials and client. */
  datatype Request = Request(url: string, username: string, password: string, client: Client)

  /** The requests an exchange puts on the network: none when the request is not built. */
  function Sent(url: string, username: string, password: string, client: Client, ex: Exchange): (rs: seq<Request>)
    ensures |rs| <= 1
    ensures rs == [] <==> ex.RequestNotBuilt?
  {
    if ex.RequestNotBuilt? then [] else [Request(url, username, password, client)]
  }

  /** How Connect ends. */
  datatype Outcome =
    | ProfileNotFound               // printed, os.Exit(1)
    | TlsSetupAbort(reason: TlsFailure)   // printed, plain return
    | AuthFailed                    // printed, os.Exit(1)
    | Crashed                       // a nil-pointer panic
    | PersistError(err: Error)      // printed, plain return
    | Connected                     // printed, plain return

  /** The process exit status each outcome leads to (a Go panic exits with 2). */
  function ExitCode(o: Outcome): (code: int)
    ensures code == 1 <==> o == ProfileNotFound || o == AuthFailed
    ensures code == 0 <==> o.TlsSetupAbort? || o.PersistError? || o == Connected
    ensures code == 2 <==> o == Crashed
  {
    match o
    case ProfileNotFound => 1
    case AuthFailed => 1
    case Crashed => 2
    case _ => 0
  }

  /** One Connect: how it ends, what it sent, and the file system it leaves. */
  datatype Run = Run(outcome: Outcome, requests: seq<Request>, disk: Disk)

  /** The profile's keys as Connect reads them. */
  function ApiOf(store: Store, name: string): string { GetString(store, name, "api") }
  function CaPathOf(store: Store, name: string): string { GetString(store, name, "trusted-ca-file") }
  function InsecureOf(store: Store, name: string): bool { GetBool(store, name, "insecure-skip-tls-verify") }

  /** The specification of Connect for profile `name`, starting from disk `d`. */
  function ConnectSpec(store: Store, name: string, env: Env, d: Disk): (run: Run)
    ensures run.disk.homeResolves == d.homeResolves && run.disk.writable == d.writable
  {
    if ApiOf(store, name) == "" then Run(ProfileNotFound, [], d)
    else match ClientSetup(InsecureOf(store, name), CaPathOf(store, name), env)
      case Failure(f) => Run(TlsSetupAbort(f), [], d)
      case Success(client) => AuthenticateSpec(store, name, client, env, d)
  }

  /** The part of Connect after the client is set up: probe, token exchange, persistence. */
  function AuthenticateSpec(store: Store, name: string, client: Client, env: Env, d: Disk): (run: Run)
    ensures run.disk.homeResolves == d.homeResolves && run.disk.writable == d.writable
  {
    var api := ApiOf(store, name);
    var username := GetString(store, name, "username");
    var password := GetString(store, name, "password");
    var probed := Sent(api + "/auth/test", username, password, client, env.probe);
    match BackendAuth(env.probe)
    case Panicked => Run(Crashed, probed, d)
    case Returned(isValid) =>
      if !isValid then Run(AuthFailed, probed, d)
      else
        var sent := probed + Sent(api + "/auth", username, password, client, env.token);
        match BackendToken(env.token)
        case Panicked => Run(Crashed, sent, d)
        case Returned(c) =>
          var p := CreateSpec(d, c, store, name);
          Run(if p.err.Some? then PersistError(p.err.value) else Connected, sent, p.disk)
  }

  /** The profile check comes first: an empty `api` ends Connect with nothing sent or written. */
  lemma ProfileCheckFirst(store: Store, name: string, env: Env, d: Disk)
    ensures var run := ConnectSpec(store, name, env, d);
      && (run.outcome == ProfileNotFound <==> ApiOf(store, name) == "")
      && (run.outcome == ProfileNotFound ==> run.requests == [] && run.disk == d && ExitCode(run.outcome) == 1)
  {
  }

  /**
   * The trusted-CA checks can stop Connect only when a CA path is configured,
   * and then before any request and any write, with exit status 0.
   */
  lemma TlsAbortBeforeNetwork(store: Store, name: string, env: Env, d: Disk)
    ensures var run := ConnectSpec(store, name, env, d);
      && (run.outcome.TlsSetupAbort? <==>
            ApiOf(store, name) != "" && CaPathOf(store, name) != "" && CheckCa(env).Failure?)
      && (run.outcome.TlsSetupAbort? ==>
            run.outcome.reason == CheckCa(env).error && run.requests == [] && run.disk == d
            && ExitCode(run.outcome) == 0)
  {
  }

  /**
   * Every request goes out after the profile and TLS checks passed, to the
   * profile's API, with the profile's credentials and the client set up.
   */
  lemma RequestsFollowChecks(store: Store, name: string, env: Env, d: Disk)
    ensures var run := ConnectSpec(store, name, env, d);
      forall r :: r in run.requests ==>
        && ApiOf(store, name) != ""
        && ClientSetup(InsecureOf(store, name), CaPathOf(store, name), env).Success?
        && r.client == ClientSetup(InsecureOf(store, name), CaPathOf(store, name), env).value
        && (r.url == ApiOf(store, name) + "/auth/test" || r.url == ApiOf(store, name) + "/auth")
        && r.username == GetString(store, name, "username")
        && r.password == GetString(store, name, "password")
  {
  }

  /**
   * Nothing is written unless the probe answered 200 and the token exchange
   * returned; the writes come after both requests.
   */
  lemma NoWriteUnlessProbeSucceeded(store: Store, name: string, env: Env, d: Disk)
    ensures var run := ConnectSpec(store, name, env, d);
      run.disk != d ==>
        && BackendAuth(env.probe) == Returned(true)
        && BackendToken(env.token).Returned?
        && |run.requests| == 2
        && run.requests[0].url == ApiOf(store, name) + "/auth/test"
        && run.requests[1].url == ApiOf(store, name) + "/auth"
  {
  }

  /**
   * The probe decides between AuthFailed and going on: a transport error or
   * any status but 200 fails, after exactly one request and with no write.
   */
  lemma AuthFailedIff(store: Store, name: string, env: Env, d: Disk)
    ensures ConnectSpec(store, name, env, d).outcome == AuthFailed <==>
      && ApiOf(store, name) != ""
      && ClientSetup(InsecureOf(store, name), CaPathOf(store, name), env).Success?
      && (env.probe.TransportError? || (env.probe.Reply? && env.probe.status != StatusOK))
    ensures var run := ConnectSpec(store, name, env, d);
      run.outcome == AuthFailed ==> run.disk == d && |run.requests| == 1 && ExitCode(run.outcome) == 1
  {
  }

  /**
   * After a probe and a token exchange that both answer 200, with a writable
   * home directory, the session artefact holds the response's tokens and the
   * profile's API URL and timeout, and the display artefact the defaulted
   * format and namespace.
   */
  lemma ConnectedArtefacts(store: Store, name: string, env: Env, d: Disk)
    requires ApiOf(store, name) != ""
    requires ClientSetup(InsecureOf(store, name), CaPathOf(store, name), env).Success?
    requires env.probe.Reply? && env.probe.status == StatusOK
    requires env.token.Reply? && env.token.status == StatusOK
    requires d.homeResolves && d.writable == {ClusterPath, ProfilePath}
    ensures var run := ConnectSpec(store, name, env, d);
      && run.outcome == Connected
      && ExitCode(run.outcome) == 0
      && run.disk.cluster.Some? && run.disk.profile.Some?
      && DecodeCluster(run.disk.cluster.value).apiUrl == ApiOf(store, name)
      && DecodeCluster(run.disk.cluster.value).accessToken == env.token.body.accessToken
      && DecodeCluster(run.disk.cluster.value).expiresAt == env.token.body.expiresAt
      && DecodeCluster(run.disk.cluster.value).refreshToken == env.token.body.refreshToken
      && DecodeCluster(run.disk.cluster.value).timeout ==
           (if IsSet(store, name, "timeout") then GetDuration(store, name, "timeout") else DefaultTimeout)
      && DecodeProfile(run.disk.profile.value) == NewProfileRecord(store, name)
  {
    var c := env.token.body;
    var run := ConnectSpec(store, name, env, d);
    assert run.disk.cluster == Some(NewClusterConfig(c, store, name));
    assert run.disk.profile == Some(NewProfileConfig(store, name));
  }

  /**
   * A non-200 token response is absorbed: Connect still persists, with empty
   * token fields.
   */
  lemma TokenRefusalPersistsEmptyTokens(store: Store, name: string, env: Env, d: Disk)
    requires ApiOf(store, name) != ""
    requires ClientSetup(InsecureOf(store, name), CaPathOf(store, name), env).Success?
    requires env.probe.Reply? && env.probe.status == StatusOK
    requires env.token.Reply? && env.token.status != StatusOK
    requires d.homeResolves && ClusterPath in d.writable
    ensures var run := ConnectSpec(store, name, env, d);
      && run.outcome == Connected
      && run.disk.cluster.Some?
      && DecodeCluster(run.disk.cluster.value).accessToken == ""
      && DecodeCluster(run.disk.cluster.value).expiresAt == 0
      && DecodeCluster(run.disk.cluster.value).refreshToken == ""
  {
    var run := ConnectSpec(store, name, env, d);
    assert run.disk.cluster == Some(NewClusterConfig(ZeroCluster, store, name));
  }

  /** Connecting twice with the same answers leaves the same artefacts and ends the same way. */
  lemma ConnectIdempotent(store: Store, name: string, env: Env, d: Disk)
    ensures var r1 := ConnectSpec(store, name, env, d);
            var r2 := ConnectSpec(store, name, env, r1.disk);
      && r2.outcome == r1.outcome
      && r2.requests == r1.requests
      && r2.disk.cluster == r1.disk.cluster
      && r2.disk.profile == r1.disk.profile
  {
    var r1 := ConnectSpec(store, name, env, d);
    if ApiOf(store, name) != "" && ClientSetup(InsecureOf(store, name), CaPathOf(store, name), env).Success?
       && BackendAuth(env.probe) == Returned(true) && BackendToken(env.token).Returned? {
      CreateIdempotent(d, BackendToken(env.token).value, store, name);
    }
  }

  /** Both requests answered 200: Connect sends the two requests, then Create runs on the token body. */
  lemma SuccessfulExchangeRun(store: Store, name: string, client: Client, env: Env, d: Disk)
    requires env.probe.Reply? && env.probe.status == StatusOK
    requires env.token.Reply? && env.token.status == StatusOK
    ensures var p := CreateSpec(d, env.token.body, store, name);
            var api := ApiOf(store, name);
            var username := GetString(store, name, "username");
            var password := GetString(store, name, "password");
      AuthenticateSpec(store, name, client, env, d) ==
        Run(if p.err.Some? then PersistError(p.err.value) else Connected,
            [Request(api + "/auth/test", username, password, client),
             Request(api + "/auth", username, password, client)],
            p.disk)
  {
  }

  /**
   * A sample connection: profile prod = {api: "https://x.test", username: "u",
   * password: "p"}, both requests answered 200 with tokens "tok", 1234, "r".
   */
  lemma ProdScenario(store: Store, env: Env, d: Disk)
    requires store == map["prod" := map["api" := Text("https://x.test"), "username" := Text("u"), "password" := Text("p")]]
    requires env.probe.Reply? && env.probe.status == StatusOK
    requires env.token == Reply(StatusOK, Cluster("", "", false, "tok", 1234, "r", 0))
    requires d.homeResolves && d.writable == {ClusterPath, ProfilePath}
    ensures var run := ConnectSpec(store, "prod", env, d);
      && run.outcome == Connected
      && run.requests == [
           Request("https://x.test/auth/test", "u", "p", Client(ClientTimeout, None)),
           Request("https://x.test/auth", "u", "p", Client(ClientTimeout, None))]
      && run.disk.cluster == Some([
           ("api-url", JString("https://x.test")),
           ("trusted-ca-file", JString("")),
           ("insecure-skip-tls-verify", JBool(false)),
           ("access_token", JString("tok")),
           ("expires_at", JNumber(1234)),
           ("refresh_token", JString("r")),
           ("Timeout", JNumber(15_000_000_000))])
      && run.disk.profile == Some([("format", JString("tabular")), ("namespace", JString("default"))])
  {
    var body := env.token.body;
    ProdProfileReads(store, body);
    var client := Client(ClientTimeout, None);
    assert ClientSetup(false, "", env) == Success(client);
    assert ConnectSpec(store, "prod", env, d) == AuthenticateSpec(store, "prod", client, env, d);
    SuccessfulExchangeRun(store, "prod", client, env, d);
    var p := CreateSpec(d, body, store, "prod");
    assert p.err.None?;
    assert p.disk.cluster == Some(EncodeCluster(Cluster("https://x.test", "", false, "tok", 1234, "r", 15_000_000_000)));
    assert p.disk.profile == Some(EncodeProfile(Profile("tabular", "default")));
    assert ("https://x.test" + "/auth/test") == "https://x.test/auth/test";
    assert ("https://x.test" + "/auth") == "https://x.test/auth";
  }

  /** What the sample connection's profile reads as. */
  lemma ProdProfileReads(store: Store, body: Cluster)
    requires store == map["prod" := map["api" := Text("https://x.test"), "username" := Text("u"), "password" := Text("p")]]
    requires body == Cluster("", "", false, "tok", 1234, "r", 0)
    ensures ApiOf(store, "prod") == "https://x.test"
    ensures GetString(store, "prod", "username") == "u" && GetString(store, "prod", "password") == "p"
    ensures CaPathOf(store, "prod") == "" && !InsecureOf(store, "prod")
    ensures NewClusterRecord(body, store, "prod") == Cluster("https://x.test", "", false, "tok", 1234, "r", 15_000_000_000)
    ensures NewProfileRecord(store, "prod") == Profile("tabular", "default")
  {
    assert EntryOf(store, "prod") == store["prod"];
    assert !IsSet(store, "prod", "trusted-ca-file");
    assert !IsSet(store, "prod", "insecure-skip-tls-verify");
    assert !IsSet(store, "prod", "timeout");
    assert GetString(store, "prod", "format") == "" && GetString(store, "prod", "namespace") == "";
  }

  /**
   * The client set-up of Connect: a 10-second client, a transport that skips
   * verification when the profile is insecure, and, when a CA path is set, the
   * trusted-CA checks and the root pool added to the (possibly new) transport.
   */
  method NewClient(insecure: bool, trustedCaFile: string, env: Env) returns (r: Result<Client, TlsFailure>)
    ensures r == ClientSetup(insecure, trustedCaFile, env)
  {
    var client := Client(ClientTimeout, None);
    if insecure {
      client := client.(transport := Some(Transport(Some(TlsConfig(true, None)))));
    }
    if trustedCaFile != "" {
      if env.caFile.OpenFailed? {
        return Failure(CaOpenFailed);
      }
      if env.caFile.ReadFailed? {
        return Failure(CaReadFailed);
      }
      if env.pemBlock.None? {
        return Failure(CaNotPem);
      }
      if env.certificate.None? {
        return Failure(CaUnparsable);
      }
      var cert := env.certificate.value;
      if !cert.isCA {
        return Failure(CaNotAuthority);
      }
      var rootCAs := if env.systemPool.Some? then env.systemPool.value else EmptyPool;
      rootCAs := CertPool(rootCAs.certs + {cert});
      if client.transport.None? {
        client := client.(transport := Some(Transport(None)));
      }
      var transport := client.transport.value;
      if transport.tls.None? {
        transport := transport.(tls := Some(TlsConfig(false, None)));
      }
      transport := transport.(tls := Some(transport.tls.value.(rootCAs := Some(rootCAs))));
      client := client.(transport := Some(transport));
    }
    return Success(client);
  }

  /** The package-level state of pkg/osc and the requests it has sent. */
  class Osc {
    var server: string
    var api: string
    var username: string
    var password: string
    var insecure: bool
    var trustedCaFile: string
    ghost var requests: seq<Request>

    /** The package variables start at their zero values. */
    constructor ()
      ensures server == "" && api == "" && username == "" && password == ""
      ensures !insecure && trustedCaFile == "" && requests == []
    {
      server, api, username, password := "", "", "", "";
      insecure, trustedCaFile := false, "";
      requests := [];
    }

    /**
     * Connect(args): load the profile args[0] into the package variables, set
     * up the client step by step, probe, exchange for tokens and persist.
     */
    method Connect(args: seq<string>, store: Store, env: Env, fs: FileSystem) returns (outcome: Outcome)
      requires |args| >= 1   // the command demands at least one argument
      modifies this, fs
      ensures server == args[0] && api == ApiOf(store, args[0])
      ensures username == GetString(store, args[0], "username") && password == GetString(store, args[0], "password")
      ensures insecure == InsecureOf(store, args[0]) && trustedCaFile == CaPathOf(store, args[0])
      ensures var run := ConnectSpec(store, args[0], env, old(fs.State()));
        && outcome == run.outcome
        && requests == old(requests) + run.requests
        && fs.State() == run.disk
    {
      server := args[0];
      api := GetString(store, server, "api");
      username := GetString(store, server, "username");
      password := GetString(store, server, "password");
      insecure := GetBool(store, server, "insecure-skip-tls-verify");
      trustedCaFile := GetString(store, server, "trusted-ca-file");

      if GetString(store, server, "api") == "" {
        return ProfileNotFound;
      }

      var setup := NewClient(insecure, trustedCaFile, env);
      if setup.Failure? {
        return TlsSetupAbort(setup.error);
      }
      outcome := Authenticate(setup.value, store, env, fs);
    }

    /**
     * The end of Connect: backendAuth, then backendToken and config.Create
     * only when the probe succeeded.
     */
    method Authenticate(client: Client, store: Store, env: Env, fs: FileSystem) returns (outcome: Outcome)
      requires api == ApiOf(store, server)
      requires username == GetString(store, server, "username") && password == GetString(store, server, "password")
      modifies this`requests, fs
      ensures var run := AuthenticateSpec(store, server, client, env, old(fs.State()));
        && outcome == run.outcome
        && requests == old(requests) + run.requests
        && fs.State() == run.disk
    {
      requests := requests + Sent(api + "/auth/test", username, password, client, env.probe);
      var isValid := BackendAuth(env.probe);
      if isValid.Panicked? {
        return Crashed;
      }
      if isValid.value {
        requests := requests + Sent(api + "/auth", username, password, client, env.token);
        var newConfig := BackendToken(env.token);
        if newConfig.Panicked? {
          return Crashed;
        }
        var err := Create(fs, newConfig.value, store, server);
        if err.Some? {
          return PersistError(err.value);
        }
        return Connected;
      } else {
        return AuthFailed;
      }
    }
  }

  // ---------------------------------------------------------------------------
  // frmt
  // ---------------------------------------------------------------------------

  /** The separator: U+2500, three bytes in UTF-8. */
  const Sep: char := '\U{2500}'

  /** The number of bytes a character takes in UTF-8. */
  function RuneLength(c: char): (n: nat)
    ensures 1 <= n <= 4
    ensures n == 1 <==> (c as int) < 0x80
  {
    if (c as int) < 0x80 then 1
    else if (c as int) < 0x800 then 2
    else if (c as int) < 0x10000 then 3
    else 4
  }

  /** len(s) in Go: the number of bytes of the UTF-8 encoding of s. */
  function Utf8Length(s: string): nat
  {
    if s == [] then 0 else RuneLength(s[0]) + Utf8Length(s[1..])
  }

  /** frmt: the separator repeated once per byte of s. */
  function Frmt(s: string): (r: string)
    ensures |r| == Utf8Length(s)
    ensures forall i :: 0 <= i < |r| ==> r[i] == Sep
  {
    seq(Utf8Length(s), _ => Sep)
  }

  lemma {:induction false} Utf8LengthAppend(a: string, b: string)
    ensures Utf8Length(a + b) == Utf8Length(a) + Utf8Length(b)
  {
    if a != [] {
      assert (a + b)[1..] == a[1..] + b;
      Utf8LengthAppend(a[1..], b);
    } else {
      assert a + b == b;
    }
  }

  /** The bar under a concatenation is the two bars side by side. */
  lemma FrmtAppend(a: string, b: string)
    ensures Frmt(a + b) == Frmt(a) + Frmt(b)
  {
    Utf8LengthAppend(a, b);
  }

  /** The byte length is at least the character count, with equality exactly for ASCII text. */
  lemma {:induction false} Utf8LengthBounds(s: string)
    ensures Utf8Length(s) >= |s|
    ensures Utf8Length(s) == |s| <==> forall i :: 0 <= i < |s| ==> (s[i] as int) < 0x80
  {
    if s != [] {
      Utf8LengthBounds(s[1..]);
      assert forall i :: 1 <= i < |s| ==> s[i] == s[1..][i - 1];
    }
  }

  /** The bar is as wide as the text only when the text is ASCII; otherwise it is wider. */
  lemma FrmtWidth(s: string)
    ensures |Frmt(s)| >= |s|
    ensures |Frmt(s)| == |s| <==> forall i :: 0 <= i < |s| ==> (s[i] as int) < 0x80
  {
    Utf8LengthBounds(s);
  }
}
