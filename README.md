# osc: connect flow and session writer, modelled in Dafny

osc (Operate Sensu Cluster) keeps named connection profiles for Sensu
backends and makes one of them the active `sensuctl` session. `osc connect
<profile>` reads the profile from the store and sets up an HTTP client,
checking the trusted CA when one is configured. It then probes
`GET {api}/auth/test` and exchanges the credentials for tokens at
`GET {api}/auth`. Finally it writes two artefacts:

- the session record (`~/.config/sensu/sensuctl/cluster`);
- the display record (`~/.config/sensu/sensuctl/profile`).

The model has four modules:

- `Wrappers` (wrappers.dfy): `Option`, `Result`, and `Crashable`, which stands for a Go call that returns or panics.
- `ProfileStore` (store.dfy): the viper profile store. It is a map from profile name to a map from key to value. A missing key reads as `""`, `false` or a zero duration, and "is the key set" is map membership.
- `Config` (config.dfy), for `pkg/config/config.go`:
  - the `Cluster` and `Profile` records;
  - serialisation as an ordered list of (key, value) pairs, with a decoder as its inverse;
  - `newClusterConfig` and `newProfileConfig` as functions;
  - the file system as a class `FileSystem` with the two artefacts as fields;
  - `Create`, `WriteSensuClusterConfig` and `WriteSensuProfileConfig` as methods, each proved against a specification function over a `Disk` snapshot (`CreateSpec`, `WriteSpec`).
- `Osc` (osc.dfy), for `pkg/osc/osc.go`:
  - every outside call is an abstract outcome in an `Env`: reading the CA file, PEM decode, X.509 parse with its IsCA flag, the system pool, and the two HTTP exchanges (request not built, transport error, or status plus decoded body);
  - `Connect` is a method of class `Osc`. The class holds the package variables and a ghost log of the requests sent.
  - `Connect` is proved equal to the pure `ConnectSpec`, and the ordering and defaulting claims are lemmas about `ConnectSpec`;
  - `frmt` is modelled with Go's byte length of a string.

These behaviours of the code are easy to misread; the model follows the code:

- A request that cannot be built is not an authentication failure. `SetBasicAuth` runs on the nil request before the error check, so the process panics (outcome `Crashed`, exit status 2).
- A transport error with no response during the token exchange also panics, because the body of the nil response is read. So `backendToken` never returns its error, and the error branch of `Connect` (osc.go:147-150) cannot be reached. When `client.Do` returns an error together with a response (its redirect policy gave up on a 3xx), the exchange is a reply with that 3xx status: the probe is false, and the token exchange yields the zero record.
- A TLS set-up failure and a persistence error end `Connect` with a plain return, so the exit status is 0, not a failure.
- A failed file write is not reported. `ioutil.WriteFile`'s error is discarded, and only the home-directory expansion can make a write function fail.
- When the profile does not set the CA path or the insecure flag, the value decoded from the token response is kept. Those fields are not always taken from the profile.
- The session artefact always carries a seventh member, `"Timeout"` (nanoseconds, 15000000000 by default). Its struct tag is malformed, so the Go field name is used.

## Model

| member | source | states |
|---|---|---|
| `Config.ClusterMembers` | pkg/config/config.go:22-30 | each member of the encoded session record holds the struct field its JSON tag names |
| `Config.EncodeCluster` | pkg/config/config.go:22-30 | the serialised session record has seven members keyed api-url, trusted-ca-file, insecure-skip-tls-verify, access_token, expires_at, refresh_token, then Timeout under the Go field name |
| `Config.EncodeProfile` | pkg/config/config.go:33-36 | the serialised display record has two members keyed format, namespace |
| `Config.DecodeCluster` | pkg/osc/osc.go:200-203 | a member absent from the document leaves its field at the zero value of a fresh `config.Cluster` |
| `Config.DecodeProfile` | pkg/config/config.go:33-36 | a member absent from the document leaves its field empty |
| `Config.DecodeEncodeCluster` | pkg/config/config.go:84 | decoding the serialised session record gives back the record: serialisation loses nothing |
| `Config.DecodeEncodeProfile` | pkg/config/config.go:110 | decoding the serialised display record gives back the record |
| `Config.NewClusterRecord` | pkg/config/config.go:68-82 | the API URL is the profile's `api` whatever the input held; only the API URL, CA path, insecure flag and timeout may differ from the input; an unset CA path or insecure key keeps the input value; an unset timeout gives 15 s |
| `Config.ApiUrlFromProfile` | pkg/config/config.go:69 | the written api-url is the profile's `api` value for every decoded response |
| `Config.TimeoutSelection` | pkg/config/config.go:75-79 | the written Timeout is the profile's duration when the key is set, else exactly 15000000000 ns |
| `Config.OptionalFieldsOverwrittenOnlyWhenSet` | pkg/config/config.go:72-82 | the written CA path and insecure flag come from the profile when the key is set (even to "" or false), and otherwise are the decoded response's values |
| `Config.TokensPassThrough` | pkg/config/config.go:68-90 | access_token, expires_at and refresh_token are written exactly as decoded from the response |
| `Config.NewClusterConfig` | pkg/config/config.go:68-90 | the serialised session artefact reads back as exactly the record `NewClusterRecord` describes |
| `Config.NewProfileConfig` | pkg/config/config.go:92-115 | the serialised display artefact reads back as exactly the record `NewProfileRecord` describes |
| `Config.NewClusterRecordIdempotent` | pkg/config/config.go:68-82 | applying the profile to an already materialised record changes nothing |
| `Config.NewProfileRecord` | pkg/config/config.go:92-108 | format and namespace are never empty: an empty value becomes "tabular" / "default" and a non-empty one is kept verbatim |
| `Config.DisplayDefaultsTestEmptiness` | pkg/config/config.go:94-103 | a format or namespace key set to "" yields the same display record as an absent key, so the test is emptiness, not IsSet |
| `Config.Location` | pkg/config/config.go:14-15 | each artefact's file lies inside `~/.config/sensu/sensuctl/` |
| `Config.LocationsDistinct` | pkg/config/config.go:14-15 | the session and display artefacts are different files |
| `Config.FileWritten` | pkg/config/config.go:151 | a write to a writable file replaces that file with the document and leaves the other file alone; a write to a file that cannot be written changes neither file; either way the write is logged and the home-directory and writability facts are unchanged |
| `Config.WriteSpec` | pkg/config/config.go:146-153 | a write function errs iff the home directory cannot be resolved, and then writes nothing; otherwise the result is the file write itself, reported as success even when it did not go through |
| `Config.CreateSpec` | pkg/config/config.go:45-66 | Create errs iff home expansion fails, and then touches nothing; otherwise it writes the cluster artefact strictly before the profile artefact, and each file gets its new document exactly when it is writable |
| `Config.CreateNotAtomic` | pkg/config/config.go:45-66 | when only the cluster file is writable, Create reports success with a new session file beside a stale display file |
| `Config.CreateIdempotent` | pkg/config/config.go:45-66 | running Create again with the same inputs leaves the same two artefacts and the same error |
| `Config.FileSystem.WriteFile` | pkg/config/config.go:151 | the file is replaced exactly when it is writable, and the result says whether it was |
| `Config.WriteSensuClusterConfig` | pkg/config/config.go:146-153 | the new file-system state and error are those of `WriteSpec` for the cluster artefact |
| `Config.WriteSensuProfileConfig` | pkg/config/config.go:156-163 | the new file-system state and error are those of `WriteSpec` for the display artefact |
| `Config.Create` | pkg/config/config.go:45-66 | the new file-system state and error are those of `CreateSpec` |
| `Osc.CheckCa` | pkg/osc/osc.go:101-125 | the CA checks pass iff the file is read, a PEM block is decoded, it parses, and the certificate is a CA; each failure names the first check that failed: open, read, PEM decode, parse, then the CA flag |
| `Osc.TrustPool` | pkg/osc/osc.go:126-131 | the root pool holds exactly the trusted CA and the system pool's certificates (the CA alone when the system pool is unavailable) |
| `Osc.ClientSetup` | pkg/osc/osc.go:89-142 | set-up fails iff a CA path is set and the CA checks fail; on success the client has the 10 s timeout, skips verification iff the profile is insecure, and has a root pool iff a CA path is set, which is the system pool plus the CA; with neither option the default transport is kept |
| `Osc.SystemPoolFailureTolerated` | pkg/osc/osc.go:126-131 | a failing system pool does not abort: the client trusts the CA alone |
| `Osc.NewClient` | pkg/osc/osc.go:89-142 | the step-by-step transport mutation yields exactly `ClientSetup` |
| `Osc.BackendAuth` | pkg/osc/osc.go:165-184 | the probe is true iff a response with status 200 arrived; it panics iff the request could not be built |
| `Osc.BackendToken` | pkg/osc/osc.go:188-207 | a 200 reply yields the decoded body, any other status the zero record, never an error; it panics iff no response arrived |
| `Osc.ExitCode` | pkg/osc/osc.go:84-160 | the exit status is 1 exactly for ProfileNotFound and AuthFailed, 0 for a TLS abort, a persistence error and success, and 2 exactly for a crash |
| `Osc.ConnectSpec` | pkg/osc/osc.go:75-162 | Connect never changes whether the home directory resolves or which files are writable |
| `Osc.AuthenticateSpec` | pkg/osc/osc.go:144-161 | the probe-token-persist tail never changes whether the home directory resolves or which files are writable |
| `Osc.ProfileCheckFirst` | pkg/osc/osc.go:84-87 | Connect ends with ProfileNotFound iff the profile's api is empty, and then it sends nothing, writes nothing and exits 1 |
| `Osc.TlsAbortBeforeNetwork` | pkg/osc/osc.go:101-125 | a TLS abort happens iff a CA path is configured and the CA checks fail, with the first failing check as reason, before any request or write, and with exit status 0 |
| `Osc.RequestsFollowChecks` | pkg/osc/osc.go:167-194 | every request is sent only after the profile and TLS checks passed, to the profile's api plus /auth/test or /auth, with the profile's credentials and the client that was set up |
| `Osc.NoWriteUnlessProbeSucceeded` | pkg/osc/osc.go:144-160 | the file system changes only if the probe answered 200 and the token exchange returned, after exactly the probe and the token requests in that order |
| `Osc.AuthFailedIff` | pkg/osc/osc.go:144-160 | AuthFailed happens iff the checks passed and the probe had a transport error or a non-200 status; then one request was sent, nothing was written, and the exit status is 1 |
| `Osc.SuccessfulExchangeRun` | pkg/osc/osc.go:144-156 | after two 200 replies, both requests are sent in order and the outcome and disk are those of Create on the token body |
| `Osc.ConnectedArtefacts` | pkg/osc/osc.go:144-156 | after two 200 replies and writable files, Connect succeeds; the session artefact holds the profile's API URL and timeout and the response's tokens, and the display artefact holds the defaulted display record |
| `Osc.TokenRefusalPersistsEmptyTokens` | pkg/osc/osc.go:200-206 | a non-200 token reply is absorbed: Connect still succeeds and writes empty token fields |
| `Osc.ConnectIdempotent` | pkg/osc/osc.go:75-162 | connecting twice against the same answers gives the same outcome, the same requests and the same two artefacts |
| `Osc.ProdScenario` | pkg/osc/osc.go:75-162 | a sample connection (profile prod, 200/200, tokens tok/1234/r) sends the two requests and writes exactly the listed session document, including Timeout 15000000000, and the display document tabular/default |
| `Osc.Osc.constructor` | pkg/osc/osc.go:20-27 | the package variables start at their zero values |
| `Osc.Osc.Connect` | pkg/osc/osc.go:75-162 | the package variables hold the profile's values, and the outcome, the requests sent and the new file system are those of `ConnectSpec` |
| `Osc.Osc.Authenticate` | pkg/osc/osc.go:144-161 | the outcome, the requests sent and the new file system are those of `AuthenticateSpec` |
| `Osc.Frmt` | pkg/osc/osc.go:211-213 | the result is the separator U+2500 repeated once per byte of the UTF-8 encoding of the input |
| `Osc.FrmtAppend` | pkg/osc/osc.go:211-213 | the rule under a concatenation is the two rules side by side |
| `Osc.FrmtWidth` | pkg/osc/osc.go:211-213 | the rule is never shorter than the text in characters, and has the same length iff the text is ASCII |

## Left out

- Command wiring, argument arity, the config search path and YAML loading (cmd/*.go) are not modelled. The loaded store is the `Store` parameter, and `Connect` only requires the one argument the command guarantees.
- Viper's type conversions are not modelled. Each store value already has the kind the code reads, and a value of another kind reads as zero. Viper's case-insensitive keys and profile names that contain dots are not modelled either.
- Real HTTP, PEM and X.509 are abstract outcomes in `Env`. The model does not tie a response to the client configuration it was sent with. It does not model the 10-second timeout firing, beyond a transport error.
- JSON is modelled as ordered (key, value) pairs. Indentation bytes, escaping and json.Unmarshal's case-insensitive key matching are not modelled.
- DecodeCluster, DecodeProfile: a document with a duplicate key is decoded from its first occurrence, while json.Unmarshal keeps the last. The encoders never produce duplicates, so the round trips are unaffected.
- FileWritten, WriteSpec, CreateSpec: a write is all or nothing. `ioutil.WriteFile` truncates the file when it opens it, so a write that fails after the open (disk full, quota, I/O error) leaves an empty or partial file. The model does not capture this. In it a failed write leaves the old file, which is why `CreateNotAtomic` speaks of a stale display file rather than an empty one.
- The error branches after `json.MarshalIndent` (config.go:85-87 and 111-113) are not modelled. Marshalling structs of strings, booleans and integers cannot fail.
- `homedir.Expand` is one fact per file system, `homeResolves`. go-homedir caches the home directory once it is found, so the second expansion in `Create` cannot fail after the first succeeded. The command also resolves the home directory at start-up and exits when that fails (cmd/root.go:23-27), so inside the CLI the expansion never fails and `PersistError` is reachable only when `Create` is called on its own.
- `ReadSensuConfig` and `List` (config.go:118-143, osc.go:35-72) are not modelled: they are file reads and console rendering. Their decoding side is covered only through `DecodeCluster`/`DecodeProfile` as inverses of the writer.
- Console messages and `os.Exit` are not modelled; they appear only as `Outcome` values and `ExitCode`. A panic is the outcome `Crashed`, and its stack trace is not reproduced.
- Integer widths are not modelled. `expires_at` is Go's 64-bit `int` and durations are 64-bit nanosecond counts, and the model does not wrap either.
- Concurrent invocations racing on the two files are not modelled. The model is single-threaded, as the program is.
