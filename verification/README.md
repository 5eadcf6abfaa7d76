# Configuration, plugin registry and upstream hook of the kun tunnel proxy

kun is a reverse-tunnel proxy. Its API server has a peer (replication)
listener, a public frontend and a tunnel backend, and it chooses an
authentication plugin by name. This project models the parts of the
repository that have behaviour:

- **ApiserverConfig** (`config.dfy`): the peer, frontend and backend
  configuration sections. Each has a `SetDefaults` that assigns fixed values
  in place and a `Validate` that runs an ordered chain of checks and returns
  the first error. `Configuration` runs `SetDefaults` on the log, peer,
  frontend and backend sections, and its `Validate` collects one prefixed
  error per failing section. The file system is an oracle
  `stat: string -> FileStatus`, where `FileStatus` is one of `Missing`,
  `Regular` or `NotRegular`.
- **LogOptions** (`log_options.dfy`): the logger options. `SetDefaults` sets
  the level, the encoding, sampling and the output paths. `Validate` checks
  the encoding name. `SetLevelFlag` is the level flag's setter.
- **MysqlOptions** (`mysql_options.dfy`): the database client options, with
  their defaults and the required-field check.
- **AuthPlugins** (`auth_plugin.dfy`): the process-wide plugin table. Keys
  are the upper-case form of the plugin id. Registration refuses a key that
  is already taken. Lookup fails on an unknown key.
- **AuthOptions** (`auth_options.dfy`): the raw-JSON holder for a plugin's
  settings, which works like `json.RawMessage`. A nil slice (`None`) is kept
  apart from an empty one (`Some([])`). Also the auth options, with their
  defaults and validation.
- **ProxyModel** (`upstream.dfy`): the upstream database record, its table
  name and the creation hook that assigns an ID.

Error values are datatypes whose constructors stand for the source's error
messages. A `panic` on duplicate plugin registration becomes the error
`AlreadyRegistered`.

Side effects are modelled as follows:
- The `os.Stat` call is the `stat` oracle.
- `xid.New()` is the `generated` parameter of `BeforeCreate`.
- `zapcore.ParseLevel` is the `parseLevel` parameter of `SetLevelFlag`.
- The plugin's own `Setup`/`Validate` are the `verdict` parameter of the
  auth `Options.Validate`.
- `strings.ToUpper` is ASCII upper-casing (`Upper`).
- `reflect.New` in `NewPlugin` is represented by the registered
  `PluginKind`, which stands for a fresh zero-valued instance of that type.

## Model

| member | source | states |
|---|---|---|
| `ProxyModel.Upstream.TableName` | pkg/proxy/model/upstream.go:29-31 | upstream records always live in the table `upstreams` |
| `ProxyModel.Upstream.BeforeCreate` | pkg/proxy/model/upstream.go:34-39 | never fails; an empty ID becomes `upstream-` + the generated id; afterwards the ID is non-empty; a record that already has an ID is left entirely unchanged, so a second call changes nothing (idempotent); no other field changes |
| `MysqlOptions.Options.Zero` | pkg/client/mysql/options_test.go:35-37 | the zero-valued options fail validation, reporting the host first |
| `MysqlOptions.Options.NewOptions` | pkg/client/mysql/options.go:75-79 | the new options carry the defaults and pass validation |
| `MysqlOptions.Options.SetDefaults` | pkg/client/mysql/options.go:54-58 | host `localhost:3306`, database `test`, username `root`; password and pool sizes are unchanged; the result validates |
| `MysqlOptions.Options.Validate` | pkg/client/mysql/options.go:61-72 | no error iff host, database and username are all non-empty (other fields unconstrained); the error names the first missing one in the order host, database, username |
| `LogOptions.Options.SetLevelFlag` | pkg/log/options.go:41-47 | a level string that does not parse gives the parse error and leaves the level unchanged; one that parses but finds no allocated level (before `SetDefaults`) gives `LevelNotAllocated`, the source's nil-pointer panic; otherwise the parsed level becomes the level; the level object itself is never replaced |
| `LogOptions.Options.NewOptions` | pkg/log/options.go:176-181 | the new options have a freshly allocated zero sampling policy and an empty encoding, so they fail validation with "no encoder name" |
| `LogOptions.Options.SetDefaults` | pkg/log/options.go:105-134 | fresh debug level; encoding `console`; an existing sampling policy is reused and one is allocated only when there is none; sampling is 100/100; both output lists are `["stderr"]`; the boolean switches are unchanged; the result validates |
| `LogOptions.Options.Validate` | pkg/log/options.go:164-173 | no error iff the encoding is `json` or `console`; an empty encoding gives "no encoder name"; any other name gives "no encoder registered" |
| `AuthPlugins.Upper` | pkg/auth/plugin.go:51 | the registry key has the id's length and is upper-cased character by character (ASCII) |
| `AuthPlugins.UpperIdempotent` | pkg/auth/plugin.go:51-59 | upper-casing an already upper-cased id gives it back, so every key the table stores is in its own upper-case form |
| `AuthPlugins.FakeSpellingsShareKey` | pkg/auth/plugin.go:51-59 | illustrates the case-insensitive key: `fake`, `Fake` and `FAKE` all map to the key `FAKE` |
| `AuthPlugins.Registry.StoredKeyFoundBySpelling` | pkg/auth/plugin.go:51-59 | in a table whose keys are upper-case, a stored key is found by `NewPlugin` under every id with the same upper-case form |
| `AuthPlugins.Registry.constructor` | pkg/auth/plugin.go:11 | the process starts with an empty table whose keys are all upper-case |
| `AuthPlugins.Registry.RegisterPlugin` | pkg/auth/plugin.go:50-56 | a taken upper-case key gives "already registered" with the table unchanged; otherwise exactly one key is added and no other entry changes; afterwards every spelling of the id finds the kind; keys stay upper-case |
| `AuthPlugins.Registry.NewPlugin` | pkg/auth/plugin.go:58-65 | succeeds iff the upper-cased id is registered, giving the registered kind; otherwise "not registered", naming the id as given; reads but never changes the table |
| `AuthOptions.MarshalJSON` | pkg/auth/options.go:52-57 | a nil holder encodes as `null`; any other holder encodes as its bytes verbatim |
| `AuthOptions.Overwrite` | pkg/auth/options.go:46 | overwriting leaves exactly the new bytes, except that appending nothing to a nil slice keeps it nil |
| `AuthOptions.Unmarshaled` | pkg/auth/options.go:45-48 | the input `null` leaves the contents alone; any other input overwrites them |
| `AuthOptions.UnmarshalThenMarshal` | pkg/auth/options.go:45-56 | round trip: after decoding an input that is not `null`, encoding gives back that input, unless the input is empty and the holder nil (Go's `append` then keeps the nil slice) |
| `AuthOptions.UnmarshalEmptyIntoNil` | pkg/auth/options.go:45-54 | an empty input on a nil holder leaves it nil, and it then encodes as `null` |
| `AuthOptions.MarshalThenUnmarshal` | pkg/auth/options.go:45-56 | decoding a holder's own encoding back into it changes nothing |
| `AuthOptions.PluginOptions.constructor` | pkg/auth/options.go:114-116 | a new holder has nil contents |
| `AuthOptions.PluginOptions.UnmarshalJSON` | pkg/auth/options.go:40-49 | a nil input is an error and leaves the contents unchanged; `null` succeeds and changes nothing; other bytes become the contents; decoding then encoding a non-`null` input returns it, except an empty input into a nil holder |
| `AuthOptions.PluginOptions.Set` | pkg/auth/options.go:30-32 | behaves exactly like `UnmarshalJSON` of the string's bytes and never fails |
| `AuthOptions.Options.NewOptions` | pkg/auth/options.go:119-121 | no method, and a fresh holder with nil contents |
| `AuthOptions.Options.SetDefaults` | pkg/auth/options.go:73-78 | method `STATIC`; an existing holder and its contents are kept; a nil-content holder is allocated only when there is none |
| `AuthOptions.Options.Validate` | pkg/auth/options.go:80-105 | an empty method is "method is required", checked before any lookup; an unregistered method is "unable to create plugin"; no error iff the method names a registered plugin whose Setup and Validate accept |
| `ApiserverConfig.CheckFile` | pkg/apiserver/config/config.go:141-149 | a path passes iff it is a regular file; a stat error is returned as is; otherwise "not regular file" names the field |
| `ApiserverConfig.CheckFiles` | pkg/apiserver/config/config.go:123-131 | no error iff every CA path is a regular file; otherwise the error is that of the first failing path, and all paths before it are regular |
| `ApiserverConfig.CheckCertificatePair` | pkg/apiserver/config/config.go:133-159 | no error iff certificate and key are both empty, or both set and regular files; a lone certificate or a lone key names the missing companion |
| `ApiserverConfig.CheckServer` | pkg/apiserver/config/config.go:118-166 | the shared peer/backend chain: bind address, then CA files, then certificate pair, then mode; no error iff all four hold |
| `ApiserverConfig.PeerOptions.constructor` | pkg/apiserver/config/config.go:501 | a new peer section has every field zero |
| `ApiserverConfig.PeerOptions.SetDefaults` | pkg/apiserver/config/config.go:82-86 | bind address `:7070`, mode `request`, members `["http://localhost:7070"]`; every other field unchanged; with no CA or certificate paths the section then validates for every file system |
| `ApiserverConfig.PeerOptions.Validate` | pkg/apiserver/config/config.go:118-167 | no error iff bind address set, every CA a regular file, certificate pair complete and regular, and mode empty or one of the four modes; an empty bind address is reported before anything else; then the first bad CA; an unpaired certificate/key always fails; an unknown mode is reported iff everything else passes |
| `ApiserverConfig.FrontendOptions.constructor` | pkg/apiserver/config/config.go:503 | a new frontend section has every field zero |
| `ApiserverConfig.FrontendOptions.SetDefaults` | pkg/apiserver/config/config.go:218-225 | addresses `:8080`/`:8443`, 1 MiB header limit, idle/read/read-header timeouts of five minutes; write timeout and default certificate pair unchanged; then valid whenever no default certificate paths are set |
| `ApiserverConfig.FrontendOptions.Validate` | pkg/apiserver/config/config.go:255-294 | no error iff the two addresses differ and the default certificate pair is complete and regular; a valid frontend has at least one address; two empty addresses and two equal addresses each give their own error |
| `ApiserverConfig.BackendOptions.constructor` | pkg/apiserver/config/config.go:502 | a new backend section has every field zero |
| `ApiserverConfig.BackendOptions.SetDefaults` | pkg/apiserver/config/config.go:353-360 | bind address `:8090`, client mode `request`, 1 MiB header limit, three five-minute timeouts; CA pool, certificate pair and write timeout unchanged; then valid whenever no CA or certificate paths are set |
| `ApiserverConfig.BackendOptions.Validate` | pkg/apiserver/config/config.go:397-446 | the same guarantees as the peer section, for the client authentication mode |
| `ApiserverConfig.Configuration.NewConfiguration` | pkg/apiserver/config/config.go:497-505 | every section is a fresh object: the log options with no level, a zero sampling policy and empty encoding and paths; the auth options with an empty method and a fresh nil-content holder; the peer, frontend and backend options with every field zero |
| `ApiserverConfig.Configuration.SetDefaults` | pkg/apiserver/config/config.go:466-471 | applies each section's defaults in full: a fresh `Debug` level, the `console` encoding, the 100/100 sampling policy and `stderr` outputs for the log; the bind addresses, the `request` auth modes, the member URL, the 1 MiB header limit and the five-minute timeouts for the servers; every field a section's defaults do not set keeps its value; the auth section and its holder are unchanged |
| `ApiserverConfig.Configuration.Validate` | pkg/apiserver/config/config.go:474-494 | no errors iff all four sections validate; each entry is the current error of the section it names; entries follow the order log, peer, frontend, backend, one per failing section; the auth section is never consulted |

## Left out

- The tunnel sessions, the domain registry, expiry and peer replication are not modelled. The backend controller's `WatchTunnels`, `ConnectTunnel` and `Login` only panic (pkg/apiserver/controller/backend_controller.go:27-40).
- Generated gRPC and gateway code, the HTTP servers and the command entry points are not modelled. They are transport plumbing and process I/O.
- pkg/client/mysql/factory.go is not part of this model: it opens a database connection through gorm.
- pkg/types/duration.go and pkg/version/version.go are not part of this model. Durations are plain integers of nanoseconds here.
- All `AddFlags`/`Flags` wiring is left out (pflag library). So are `PluginOptions.String` (`json.Compact`), `PluginOptions.Unmarshal` (`json.Unmarshal`) and the `Type` methods.
- The zap encoder configuration, the `[]zap.Option` slice and `InitialFields` are left out of the log options. They are values of a foreign library, and no validation reads them.
- `GlobalOptions` is left out: it only declares two durations and has no behaviour.
- LogOptions.Options.SetLevelFlag: `zapcore.ParseLevel` is not visible, so the parser is a parameter. The flag adapter holds a pointer to the options' level field; the model reads the field directly. Calling `SetLevel` on a zap level that was never allocated panics in the source; the model returns `LevelNotAllocated` instead.
- AuthPlugins.Upper: only ASCII letters are upper-cased. Go's `strings.ToUpper` also maps other Unicode letters.
- AuthPlugins.Registry: `sync.Map` concurrency is modelled as a sequential map. The panic on duplicate registration is an error result.
- AuthOptions.Options.Validate: the plugin's `Setup` and `Validate` are one verdict per plugin kind. The verdict does not depend on the options' bytes, and `Close` is not modelled.
- AuthOptions.PluginOptions.UnmarshalJSON: `append` reuses the old backing array. Other slices aliasing that array would see the new bytes; this model has no such aliasing.
- ApiserverConfig.Configuration: nil section pointers, which would make the Go methods panic, are not modelled. Every section is a non-null object.
