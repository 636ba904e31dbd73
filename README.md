# Peer-node startup configuration, modelled in Dafny

This project models the startup configuration object of the MetaHash peer
node (`sniper::Config`). The object is built once from two files:

- a structured settings file with the sections `core`, `stats`,
  `http.server` and `http.client`;
- a line-oriented peer file: a network name, then `<ipv4> <port> [<weight>]`
  lines.

Construction loads the settings onto the declared defaults, derives the
per-thread queue size, loads the peer file, and then checks three things in
order: the stats URL is set, the network is named, and at least one peer was
read. After that the object is only read through its accessors.

Files and modules:

- `common.dfy` (`Common`): `Option`, `Result` and the C++ integer widths
  (`uint16`, `uint32`, `int64`).
- `peer_list.dfy` (`PeerList`): the peer-file loader. `LoadNetworkNodes` is the
  line loop. `Scan` is the same fold as a function. `NetworkName`, `PeerLines`
  and `PeersOf` describe the same result in closed form.
- `config_state.dfy` (`ConfigState`): the field set as one value (`State`),
  the declared defaults and the construction errors.
- `settings.dfy` (`Settings`): the settings resolution as functions, one per
  section, plus the file checks, and lemmas about a load that starts from the
  constructor's initial fields.
- `config.dfy` (`Configuration`): class `Config` with the real fields, its
  constructor (the member initialisers), the loading methods, the accessors,
  and `NewConfig` (the constructor body, which returns a `Result`). `Build` is
  the whole construction as a function, with lemmas about it.

Inputs that the program gets from outside are parameters:

- whether the settings file exists, its size, and its parsed contents;
- the lines of the peer file;
- the hardware concurrency;
- the initial HTTP server and client settings;
- the string helpers `split`, `fast_atoi64` and `ip_from_sv`.

Facts about the code that the model keeps:

- The code has no minimum-of-one guard on the thread count. With hardware
  concurrency 0, `threads` 0 or absent, and `queue_size` present, it divides
  by zero (`src/Config.cpp:110-119`). The model reports this case as the
  error `QueueSizeDivisionByZero`.
- Peer lines are split on a single space, not on any whitespace.
- The port token is accepted whenever `fast_atoi64` accepts it. The code does
  not check that it is non-negative.

## Model

| member | source | states |
|---|---|---|
| `PeerList.LoadNetworkNodes` | src/Config.cpp:43-66 | The line loop returns exactly the fold `Scan`. While the name is empty, the line becomes the name and is not parsed. Later lines add the peer from tokens 0 and 1 only when the split gives at least 2 tokens, token 1 parses as an integer and token 0 as an IPv4 address. |
| `PeerList.ParsePeerLine` | src/Config.cpp:56-61 | Reference definition, no contract of its own: the split, then at least 2 tokens, then the port from token 1, then the address from token 0. `MalformedLineSkipped`, `PeersOfAllAccepted` and `PeerFromLine` state its role. |
| `PeerList.Step` | src/Config.cpp:50-61 | Reference definition, no contract of its own: one callback call. `NameStable` and `ScanCharacterised` state its effect. |
| `PeerList.Scan` | src/Config.cpp:49-63 | Reference definition, no contract of its own: the callback folded over the lines. `ScanCharacterised` gives its closed form. |
| `PeerList.ScanCharacterised` | src/Config.cpp:49-62 | The fold's name is the first non-empty line. That line is never parsed as a peer. The peers are those of the lines after it, in order. |
| `PeerList.NameStable` | src/Config.cpp:50-54 | Once the name is non-empty, later lines never change it. They only append their peers. |
| `PeerList.NameIndex` | src/Config.cpp:50-54 | The name line is the first non-empty line. Every line before it is empty, and the name index is \|lines\| exactly when all lines are empty. |
| `PeerList.PeersOf` | src/Config.cpp:56-62 | Each candidate line yields at most one peer. |
| `PeerList.PeersOfAppend` | src/Config.cpp:56-62 | The peers of two consecutive runs of lines are concatenated in file order. Nothing is sorted or deduplicated. |
| `PeerList.MalformedLineSkipped` | src/Config.cpp:56-62 | A line that does not parse leaves the peer list as if the line were absent. Parsing goes on without error. |
| `PeerList.PeersOfAllAccepted` | src/Config.cpp:58-61 | If every candidate line parses, the peers are those lines' peers one for one, with the same order and multiplicity. |
| `PeerList.PeerFromLine` | src/Config.cpp:56-62 | A peer is listed if and only if some candidate line parses to it. |
| `Settings.CoreThreadsAndFlags` | src/Config.cpp:109-114 | The `threads` and dump-flag lookups change only the thread count and the two flags. |
| `Settings.PerThread` | src/Config.cpp:116-119 | The per-thread queue size is the integer quotient of the configured size by a non-zero thread count, between 0 and the configured size, so it always fits the 64-bit field. |
| `Settings.ResolveCore` | src/Config.cpp:107-120 | The `core` section changes only the thread count, the two dump flags and the per-thread queue size. |
| `Settings.ResolveStats` | src/Config.cpp:124-131 | The `stats` section changes only the send interval, the URL, the stdout flag and the send flag. |
| `Settings.ResolveServer` | src/Config.cpp:138-154 | The `http.server` section changes only the ip, the port and the server settings. A present `message_max_size` makes the buffer size equal the request size limit. |
| `Settings.ResolveClient` | src/Config.cpp:158-172 | The `http.client` section changes only the retry count and the client settings. |
| `Settings.CoreStage` | src/Config.cpp:106-121 | With no `core` section nothing changes. Otherwise the same fields as `ResolveCore` may change. |
| `Settings.StatsStage` | src/Config.cpp:123-132 | With no `stats` section nothing changes. Otherwise only the stats fields may change. |
| `Settings.ServerStage` | src/Config.cpp:134-155 | The server section is read only when both `http` and `http.server` exist. Only the ip, the port and the server settings may change. |
| `Settings.ClientStage` | src/Config.cpp:134-173 | The client section is read only when both `http` and `http.client` exist. Only the retry count and the client settings may change. |
| `Settings.ResolveSettings` | src/Config.cpp:107-174 | Resolution never touches the peer group. Its only failure is the queue-size division by zero. |
| `Settings.LoadSettings` | src/Config.cpp:95-174 | Reference definition, no contract of its own: the file checks, then `ResolveSettings`. `FileChecksComeFirst` and the lemmas after it state its results. |
| `Settings.FileChecksComeFirst` | src/Config.cpp:95-104 | A missing file fails first and an empty file second, whatever the contents. A load succeeds only if the file exists, is non-empty and is accepted by the reader. |
| `Settings.ThreadsAfterLoad` | src/Config.cpp:107-112 | Without a `core` section the thread count is the hardware concurrency. With one, it is `threads`, or the hardware concurrency if `threads` is 0 or absent. It is 0 only if the hardware concurrency is 0. |
| `Settings.QueueSizeAfterLoad` | src/Config.cpp:105-120 | With `core.queue_size` present, the per-thread queue size is `queue_size / threads`, using the final thread count, which is then non-zero. The result lies between 0 and `queue_size`. Otherwise the queue size stays 0. |
| `Settings.DivisionByZeroExactly` | src/Config.cpp:110-120 | A load fails on the division exactly when `queue_size` is present, `threads` is 0 or absent, and the hardware concurrency is 0. |
| `Settings.CoreFlagsAfterLoad` | src/Config.cpp:114-115 | Each request-dump flag is the file's value when present, false otherwise. |
| `Settings.StatsAfterLoad` | src/Config.cpp:123-132 | Each stats field is the file's value when its key is present. Otherwise it keeps its default: 1 second, empty URL, no dump to stdout, sending on. |
| `Settings.ServerAfterLoad` | src/Config.cpp:137-155 | Each server field is the file's value when its key is present. Otherwise it keeps its initial value: port 8080, empty ip, library defaults. `message_max_size` sets the buffer size and the request size limit to the same value. |
| `Settings.ClientAfterLoad` | src/Config.cpp:157-173 | Each client field is the file's value when its key is present. Otherwise it keeps its initial value: 1 retry, library defaults. |
| `Settings.CoreExamples` | src/Config.cpp:107-120 | An empty `core` section gives threads equal to the hardware concurrency and a queue size of 0. `threads = 4` with `queue_size = 100` gives 25 per thread. |
| `Configuration.MergeNetwork` | src/Config.cpp:86-90 | Reference definition, no contract of its own: a non-empty loaded name replaces the name, and the loaded peers are appended. `LoadNetwork` is proved against it. |
| `Configuration.Build` | src/Config.cpp:70-79 | Reference definition, no contract of its own: settings, then the peer file, then `Validate`. `BuildOutcome` gives its closed form and `NewConfig` is proved against it. |
| `Configuration.Validate` | src/Config.cpp:76-78 | The checks run in a fixed order: stats URL, then network name, then node list. The first failing check is the error reported. No error means all three hold. |
| `Configuration.Config.constructor` | src/Config.h:56-72 | Defaults: port 8080, retries 1, stats interval 1, `stats_send` true, no stdout dump, no request dumps, queue size 0, empty URL and ip, empty peer group. The thread count is the hardware concurrency, not the declared 1. |
| `Configuration.Config.LoadConfig` | src/Config.cpp:93-174 | The new fields are exactly `LoadSettings` applied to the old ones, or the error it reports. |
| `Configuration.Config.LoadCore` | src/Config.cpp:107-121 | The `core` lookups, the thread fallback and the queue-size derivation equal `ResolveCore`. |
| `Configuration.Config.LoadStats` | src/Config.cpp:123-132 | The `stats` lookups equal `ResolveStats`. Nothing else changes. |
| `Configuration.Config.LoadServer` | src/Config.cpp:137-155 | The `http.server` lookups equal `ResolveServer`. Nothing else changes. |
| `Configuration.Config.LoadClient` | src/Config.cpp:157-173 | The `http.client` lookups equal `ResolveClient`. Nothing else changes. |
| `Configuration.Config.LoadNetwork` | src/Config.cpp:81-91 | The name changes only to a non-empty loaded name. The loaded peers are appended after the existing nodes. No other field changes. |
| `Configuration.Config.Port` | src/Config.cpp:219-222 | The 16-bit port equals the stored value modulo 2^16. It is the stored value itself when that fits. |
| `Configuration.NewConfig` | src/Config.cpp:70-79 | Construction returns a fresh object that satisfies the three checks and whose fields are `Build`'s result, or `Build`'s error. |
| `Configuration.BuildOutcome` | src/Config.cpp:70-91 | Construction succeeds exactly when the settings load, the URL is set, the name is non-empty and at least one peer parses. The peer group is then the first non-empty line and the peers of the lines after it. |
| `Configuration.SettingsErrorsFirst` | src/Config.cpp:73-74 | A settings failure is the error reported, whatever the peer file holds. |
| `Configuration.MissingStatsUrlRejected` | src/Config.cpp:76 | With no `stats.url`, construction fails with the stats error. |
| `Configuration.NoPeersRejected` | src/Config.cpp:78 | If the URL and name are set but no later line parses, construction fails with the node-list error. |
| `Configuration.LoadedQueueSizeNonNegative` | src/Config.cpp:117-119 | A successful settings load never gives a negative per-thread queue size. |
| `Configuration.DeclaredThreadsDefaultUnobservable` | src/Config.h:60 | After construction the thread count is the hardware concurrency or a non-zero `core.threads`. The declared 1 never shows. |

## Left out

- File access is not modelled: `fs::exists`, `fs::file_size`, `load_file_by_line` and `libconfig::Config::readFile`. Existence, size and the parsed contents are inputs. A failing file-system call counts as "missing" or "empty". How lines are cut out of the peer file is not modelled.
- The settings file format is not modelled. Sections are looked up by path (`core`, `stats`, `http`, `http.server`, `http.client`). A value is read only if it has the expected kind, and one of another kind counts as absent. The reader's own conversions between numeric types are not modelled.
- Logging is left out, including the `0.0.0.0` shown for an empty ip and the version banner. It does not change any field.
- The bodies of `strings::split`, `strings::fast_atoi64` and `net::ip_from_sv` are not part of this model. They are function parameters, so nothing is claimed about negative ports or extra tokens. How `net::Peer` narrows the port is not part of this model either: a peer keeps the 64-bit port as parsed.
- The HTTP server and client settings types are not modelled beyond the fields the resolver writes. Their defaults are parameters. Their widths are taken as 32-bit unsigned, and their durations as plain counts.
- `strings::split` is assumed to replace the contents of its token buffer on every call. The source reuses one `static_vector` across all lines (`src/Config.cpp:48`), and the model splits each line independently of the lines before it.
- The result of `file::load_file_by_line` is ignored by the source (`src/Config.cpp:49`). The model treats an unreadable peer file like an empty `lines`. Construction then fails with `NetworkNameEmpty`, unless an earlier check has already failed.
- `net::Domain` is modelled as a name and a node list. A fresh one is assumed to have an empty name and no nodes, and `set` is assumed to replace the name.
- `std::thread::hardware_concurrency` is a parameter.
- Shared ownership of the server settings (`intrusive_ptr`) and concurrent reads are left out.
- `Configuration.NewConfig`: a division by zero in the source is undefined behaviour, not a reported error. The model turns it into the error `QueueSizeDivisionByZero`.
- `Configuration.Config.Ip`, `HttpServerConfig`, `HttpClientConfig`, `HttpPostRetries`, `ThreadsCount`, `StatsSendInterval`, `StatsDumpStdout`, `StatsSend`, `ReqsDumpOk`, `ReqsDumpErr`, `Network`, `Stats` and `ThreadQueueSize` are plain field reads with no contract of their own. Being functions, they cannot change any field. Their values after construction are the subject of the lemmas above.
- Nothing in the model enforces that the loading methods run only inside construction, since Dafny has no private members. `NewConfig` is their only caller.
