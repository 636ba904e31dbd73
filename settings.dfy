/** Resolution of the structured settings file. The file, once read, is a map
    from section path ("core", "stats", "http", "http.server", "http.client")
    to that section's key/value settings. Each lookup overwrites its field
    only when the key is present with a value of the expected kind. */
module Settings {
  import opened Common
  import opened ConfigState

  /** A setting's value as the reader delivers it. */
  datatype Value = UInt(n: uint32) | Bool(b: bool) | Str(s: string)

  type Group = map<string, Value>
  type SettingsFile = map<string, Group>

  /** What the file system and the reader report about the settings file:
      whether it exists, its size, and its parsed contents (None when the
      reader rejects it). */
  datatype SettingsSource = SettingsSource(found: bool, size: nat, parsed: Option<SettingsFile>)

  const CorePath: string := "core"
  const StatsPath: string := "stats"
  const HttpPath: string := "http"
  const ServerPath: string := "http.server"
  const ClientPath: string := "http.client"

  /** The value of `key` read as an unsigned integer; absent, or of another
      kind, reads as None. */
  function UIntAt(g: Group, key: string): Option<uint32> {
    if key in g && g[key].UInt? then Some(g[key].n) else None
  }

  function BoolAt(g: Group, key: string): Option<bool> {
    if key in g && g[key].Bool? then Some(g[key].b) else None
  }

  function StrAt(g: Group, key: string): Option<string> {
    if key in g && g[key].Str? then Some(g[key].s) else None
  }

  // ---------------------------------------------------------------------
  // The resolution, section by section
  // ---------------------------------------------------------------------

  /** The `core` section: thread count with its hardware fallback, the two
      dump flags, and the per-thread queue size derived from the final
      thread count. A zero divisor is reported as an error. */
  function ResolveCore(s: State, core: Group, hw: uint32): (r: Result<State, ConfigError>)
    ensures r.Success? ==>
      r.value == s.(threadsCount := r.value.threadsCount, reqsDumpOk := r.value.reqsDumpOk,
                    reqsDumpErr := r.value.reqsDumpErr, threadQueueSize := r.value.threadQueueSize)
  {
    var s1 := CoreThreadsAndFlags(s, core, hw);
    match UIntAt(core, "queue_size")
    case None => Success(s1)
    case Some(num) =>
      if s1.threadsCount == 0 then Failure(QueueSizeDivisionByZero)
      else Success(s1.(threadQueueSize := PerThread(num, s1.threadsCount)))
  }

  /** The `core` lookups that precede the queue size: the thread count with
      its hardware fallback, and the two dump flags. */
  function CoreThreadsAndFlags(s: State, core: Group, hw: uint32): (r: State)
    ensures r == s.(threadsCount := r.threadsCount, reqsDumpOk := r.reqsDumpOk, reqsDumpErr := r.reqsDumpErr)
  {
    var read := UIntAt(core, "threads").GetOr(s.threadsCount);
    s.(threadsCount := if read == 0 then hw else read,
       reqsDumpOk := BoolAt(core, "reqs_dump_ok").GetOr(s.reqsDumpOk),
       reqsDumpErr := BoolAt(core, "reqs_dump_err").GetOr(s.reqsDumpErr))
  }

  /** The per-thread share of a queue size: the integer quotient, which lies
      between zero and the dividend. */
  function PerThread(queueSize: int64, threads: uint32): (share: int64)
    requires queueSize >= 0 && threads > 0
    ensures 0 <= share <= queueSize
  {
    DivisionBounds(queueSize, threads);
    queueSize / threads
  }

  /** The `stats` section. */
  function ResolveStats(s: State, stats: Group): (r: State)
    ensures r == s.(statsSendInterval := r.statsSendInterval, stats := r.stats,
                    statsDumpStdout := r.statsDumpStdout, statsSend := r.statsSend)
  {
    s.(statsSendInterval := match UIntAt(stats, "interval_seconds")
                            case Some(num) => num
                            case None => s.statsSendInterval,
       stats := StrAt(stats, "url").GetOr(s.stats),
       statsDumpStdout := BoolAt(stats, "dump_stdout").GetOr(s.statsDumpStdout),
       statsSend := BoolAt(stats, "send").GetOr(s.statsSend))
  }

  /** The `http.server` section: `message_max_size` sets both the buffer size
      and the request size limit. */
  function ResolveServer(s: State, server: Group): (r: State)
    ensures r == s.(ip := r.ip, port := r.port, httpServer := r.httpServer)
    ensures UIntAt(server, "message_max_size").Some? ==> r.httpServer.bufferSize == r.httpServer.requestMaxSize
  {
    var c := s.httpServer;
    var size := UIntAt(server, "message_max_size");
    s.(ip := StrAt(server, "ip").GetOr(s.ip),
       port := UIntAt(server, "port").GetOr(s.port),
       httpServer := c.(maxConns := UIntAt(server, "max_conns").GetOr(c.maxConns),
                        backlog := UIntAt(server, "backlog").GetOr(c.backlog),
                        keepAliveTimeoutSeconds := UIntAt(server, "keep_alive_timeout_seconds").GetOr(c.keepAliveTimeoutSeconds),
                        bufferSize := size.GetOr(c.bufferSize),
                        requestMaxSize := size.GetOr(c.requestMaxSize)))
  }

  /** The `http.client` section (the timeout key is spelt `reponse_timeout_ms`). */
  function ResolveClient(s: State, client: Group): (r: State)
    ensures r == s.(httpPostRetries := r.httpPostRetries, httpClient := r.httpClient)
  {
    var c := s.httpClient;
    s.(httpPostRetries := UIntAt(client, "retries").GetOr(s.httpPostRetries),
       httpClient := c.(connsPerIp := UIntAt(client, "conns_per_ip").GetOr(c.connsPerIp),
                        poolMaxConns := UIntAt(client, "pool_max_conns").GetOr(c.poolMaxConns),
                        responseTimeoutMs := UIntAt(client, "reponse_timeout_ms").GetOr(c.responseTimeoutMs),
                        bodyMaxSize := UIntAt(client, "message_max_size").GetOr(c.bodyMaxSize)))
  }

  /** The `core` section when the file has one; otherwise nothing changes. */
  function CoreStage(s: State, f: SettingsFile, hw: uint32): (r: Result<State, ConfigError>)
    ensures r.Success? ==>
      r.value == s.(threadsCount := r.value.threadsCount, reqsDumpOk := r.value.reqsDumpOk,
                    reqsDumpErr := r.value.reqsDumpErr, threadQueueSize := r.value.threadQueueSize)
    ensures CorePath !in f ==> r == Success(s)
  {
    if CorePath in f then ResolveCore(s, f[CorePath], hw) else Success(s)
  }

  /** The `stats` section when the file has one; otherwise nothing changes. */
  function StatsStage(s: State, f: SettingsFile): (r: State)
    ensures r == s.(statsSendInterval := r.statsSendInterval, stats := r.stats,
                    statsDumpStdout := r.statsDumpStdout, statsSend := r.statsSend)
    ensures StatsPath !in f ==> r == s
  {
    if StatsPath in f then ResolveStats(s, f[StatsPath]) else s
  }

  /** The `http.server` section when the file has both `http` and
      `http.server`; otherwise nothing changes. */
  function ServerStage(s: State, f: SettingsFile): (r: State)
    ensures r == s.(ip := r.ip, port := r.port, httpServer := r.httpServer)
    ensures !(HttpPath in f && ServerPath in f) ==> r == s
  {
    if HttpPath in f && ServerPath in f then ResolveServer(s, f[ServerPath]) else s
  }

  /** The `http.client` section when the file has both `http` and
      `http.client`; otherwise nothing changes. */
  function ClientStage(s: State, f: SettingsFile): (r: State)
    ensures r == s.(httpPostRetries := r.httpPostRetries, httpClient := r.httpClient)
    ensures !(HttpPath in f && ClientPath in f) ==> r == s
  {
    if HttpPath in f && ClientPath in f then ResolveClient(s, f[ClientPath]) else s
  }

  /** All four sections, each only when present; the server and client
      sections are looked up inside the `http` section. The peer group is
      never touched. */
  function ResolveSettings(s: State, f: SettingsFile, hw: uint32): (r: Result<State, ConfigError>)
    ensures r.Success? ==> r.value.network == s.network
    ensures r.Failure? ==> r.error == QueueSizeDivisionByZero
  {
    match CoreStage(s, f, hw)
    case Failure(e) => Failure(e)
    case Success(s1) => Success(ClientStage(ServerStage(StatsStage(s1, f), f), f))
  }

  /** The whole settings load: the file must exist and be non-empty before it
      is read, and the reader must accept it. */
  function LoadSettings(s: State, src: SettingsSource, hw: uint32): Result<State, ConfigError> {
    if !src.found then Failure(ConfigFileMissing)
    else if src.size == 0 then Failure(ConfigFileEmpty)
    else
      match src.parsed
      case None => Failure(ConfigFileUnreadable)
      case Some(f) => ResolveSettings(s, f, hw)
  }

  // ---------------------------------------------------------------------
  // The sections as the resolver sees them (an absent section reads as an
  // empty one)
  // ---------------------------------------------------------------------

  function CoreOf(f: SettingsFile): Group {
    if CorePath in f then f[CorePath] else map[]
  }

  function StatsOf(f: SettingsFile): Group {
    if StatsPath in f then f[StatsPath] else map[]
  }

  function ServerOf(f: SettingsFile): Group {
    if HttpPath in f && ServerPath in f then f[ServerPath] else map[]
  }

  function ClientOf(f: SettingsFile): Group {
    if HttpPath in f && ClientPath in f then f[ClientPath] else map[]
  }

  // ---------------------------------------------------------------------
  // Properties of a load that starts from the constructor's initial fields
  // ---------------------------------------------------------------------

  /** A missing or empty file fails before its contents are looked at, with
      the first failing check reported. */
  lemma FileChecksComeFirst(s: State, src: SettingsSource, other: Option<SettingsFile>, hw: uint32)
    ensures !src.found ==> LoadSettings(s, src, hw) == Failure(ConfigFileMissing)
    ensures src.found && src.size == 0 ==> LoadSettings(s, src, hw) == Failure(ConfigFileEmpty)
    ensures !src.found || src.size == 0 ==>
      LoadSettings(s, src, hw) == LoadSettings(s, src.(parsed := other), hw)
    ensures LoadSettings(s, src, hw).Success? ==> src.found && src.size > 0 && src.parsed.Some?
  {
  }

  /** The thread count after loading: hardware concurrency when the `core`
      section is absent; otherwise the file's `threads`, replaced by hardware
      concurrency when it is absent or zero. It is zero only when hardware
      concurrency is. */
  lemma ThreadsAfterLoad(f: SettingsFile, hw: uint32, server: ServerConfig, client: ClientConfig)
    requires ResolveSettings(Initial(hw, server, client), f, hw).Success?
    ensures var r := ResolveSettings(Initial(hw, server, client), f, hw).value;
      && (CorePath !in f ==> r.threadsCount == hw)
      && (CorePath in f ==>
            r.threadsCount == match UIntAt(f[CorePath], "threads")
                              case Some(t) => if t == 0 then hw else t
                              case None => hw)
      && (r.threadsCount == 0 ==> hw == 0)
  {
  }

  /** The per-thread queue size after loading: the configured queue size
      divided by the final thread count when `core.queue_size` is present,
      zero otherwise; it never exceeds the configured size. */
  lemma QueueSizeAfterLoad(f: SettingsFile, hw: uint32, server: ServerConfig, client: ClientConfig)
    requires ResolveSettings(Initial(hw, server, client), f, hw).Success?
    ensures var r := ResolveSettings(Initial(hw, server, client), f, hw).value;
      match UIntAt(CoreOf(f), "queue_size")
      case None => r.threadQueueSize == 0
      case Some(q) =>
        && r.threadsCount != 0
        && r.threadQueueSize == q / r.threadsCount
        && 0 <= r.threadQueueSize <= q
  {
  }

  /** Dividing a non-negative value by a positive one gives a value between
      zero and the dividend. */
  lemma DivisionBounds(q: nat, t: nat)
    requires t > 0
    ensures 0 <= q / t <= q
  {
    var d := q / t;
    assert 0 <= d;
    ProductNonNegative(d, t - 1);
    assert d * (t - 1) == d * t - d;
  }

  lemma ProductNonNegative(a: nat, b: nat)
    ensures a * b >= 0
  {
  }

  /** Loading fails on the queue-size division exactly when a queue size is
      configured, the thread count read from the file is zero or absent, and
      hardware concurrency is zero. */
  lemma DivisionByZeroExactly(f: SettingsFile, hw: uint32, server: ServerConfig, client: ClientConfig)
    ensures ResolveSettings(Initial(hw, server, client), f, hw).Failure? <==>
      && CorePath in f
      && UIntAt(f[CorePath], "queue_size").Some?
      && UIntAt(f[CorePath], "threads").GetOr(0) == 0
      && hw == 0
  {
  }

  /** The dump flags after loading: each is the file's value when its key is
      present and false otherwise. */
  lemma CoreFlagsAfterLoad(f: SettingsFile, hw: uint32, server: ServerConfig, client: ClientConfig)
    requires ResolveSettings(Initial(hw, server, client), f, hw).Success?
    ensures var r := ResolveSettings(Initial(hw, server, client), f, hw).value;
      && r.reqsDumpOk == BoolAt(CoreOf(f), "reqs_dump_ok").GetOr(false)
      && r.reqsDumpErr == BoolAt(CoreOf(f), "reqs_dump_err").GetOr(false)
  {
  }

  /** The stats fields after loading: each is the file's value when its key
      is present and keeps its declared default (1 second, no URL, no dump to
      standard output, sending on) otherwise. */
  lemma StatsAfterLoad(f: SettingsFile, hw: uint32, server: ServerConfig, client: ClientConfig)
    requires ResolveSettings(Initial(hw, server, client), f, hw).Success?
    ensures var r := ResolveSettings(Initial(hw, server, client), f, hw).value;
      && r.statsSendInterval == (match UIntAt(StatsOf(f), "interval_seconds")
                                 case Some(n) => n
                                 case None => DefaultStatsSendInterval)
      && r.stats == StrAt(StatsOf(f), "url").GetOr("")
      && r.statsDumpStdout == BoolAt(StatsOf(f), "dump_stdout").GetOr(false)
      && r.statsSend == BoolAt(StatsOf(f), "send").GetOr(true)
  {
    var s0 := Initial(hw, server, client);
    var s1 := CoreStage(s0, f, hw).value;
    var s2 := StatsStage(s1, f);
    assert ResolveSettings(s0, f, hw) == Success(ClientStage(ServerStage(s2, f), f));
    assert s1.statsSendInterval == DefaultStatsSendInterval && s1.stats == "";
    assert !s1.statsDumpStdout && s1.statsSend;
  }

  /** The server fields after loading: each is the file's value when its key
      is present and keeps its initial value (port 8080, empty address, the
      server library's defaults) otherwise; `message_max_size` sets the
      buffer size and the request size limit to the same value. */
  lemma ServerAfterLoad(f: SettingsFile, hw: uint32, server: ServerConfig, client: ClientConfig)
    requires ResolveSettings(Initial(hw, server, client), f, hw).Success?
    ensures var r := ResolveSettings(Initial(hw, server, client), f, hw).value;
      && r.ip == StrAt(ServerOf(f), "ip").GetOr("")
      && r.port == UIntAt(ServerOf(f), "port").GetOr(DefaultPort)
      && r.httpServer.maxConns == UIntAt(ServerOf(f), "max_conns").GetOr(server.maxConns)
      && r.httpServer.backlog == UIntAt(ServerOf(f), "backlog").GetOr(server.backlog)
      && r.httpServer.keepAliveTimeoutSeconds ==
           UIntAt(ServerOf(f), "keep_alive_timeout_seconds").GetOr(server.keepAliveTimeoutSeconds)
      && r.httpServer.bufferSize == UIntAt(ServerOf(f), "message_max_size").GetOr(server.bufferSize)
      && r.httpServer.requestMaxSize == UIntAt(ServerOf(f), "message_max_size").GetOr(server.requestMaxSize)
      && (UIntAt(ServerOf(f), "message_max_size").Some? ==> r.httpServer.bufferSize == r.httpServer.requestMaxSize)
  {
  }

  /** The client fields after loading: each is the file's value when its key
      is present and keeps its initial value (one retry, the client library's
      defaults) otherwise. */
  lemma ClientAfterLoad(f: SettingsFile, hw: uint32, server: ServerConfig, client: ClientConfig)
    requires ResolveSettings(Initial(hw, server, client), f, hw).Success?
    ensures var r := ResolveSettings(Initial(hw, server, client), f, hw).value;
      && r.httpPostRetries == UIntAt(ClientOf(f), "retries").GetOr(DefaultHttpPostRetries)
      && r.httpClient.connsPerIp == UIntAt(ClientOf(f), "conns_per_ip").GetOr(client.connsPerIp)
      && r.httpClient.poolMaxConns == UIntAt(ClientOf(f), "pool_max_conns").GetOr(client.poolMaxConns)
      && r.httpClient.responseTimeoutMs == UIntAt(ClientOf(f), "reponse_timeout_ms").GetOr(client.responseTimeoutMs)
      && r.httpClient.bodyMaxSize == UIntAt(ClientOf(f), "message_max_size").GetOr(client.bodyMaxSize)
  {
  }

  /** A file with an empty `core` section resolves the thread count to the
      hardware concurrency and the per-thread queue size to zero; four
      threads and a queue size of 100 give 25 per thread. */
  lemma CoreExamples(hw: uint32, server: ServerConfig, client: ClientConfig)
    ensures var r := ResolveSettings(Initial(hw, server, client), map[CorePath := map[]], hw);
      r.Success? && r.value.threadsCount == hw && r.value.threadQueueSize == 0
    ensures var core := map["threads" := UInt(4), "queue_size" := UInt(100)];
      var r := ResolveSettings(Initial(hw, server, client), map[CorePath := core], hw);
      r.Success? && r.value.threadsCount == 4 && r.value.threadQueueSize == 25
  {
  }
}
