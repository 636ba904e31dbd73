/** The field set of the configuration object, its declared defaults and the
    errors that abort construction. */
module ConfigState {
  import opened Common
  import opened PeerList

  /** The HTTP server settings the resolver writes. Their initial values come
      from the server library's own defaults, which are outside this model;
      durations are counts of seconds. */
  datatype ServerConfig = ServerConfig(
    maxConns: uint32,
    backlog: uint32,
    keepAliveTimeoutSeconds: uint32,
    bufferSize: uint32,
    requestMaxSize: uint32)

  /** The HTTP client settings the resolver writes, with the client library's
      initial values; the response timeout is a count of milliseconds. */
  datatype ClientConfig = ClientConfig(
    connsPerIp: uint32,
    poolMaxConns: uint32,
    responseTimeoutMs: uint32,
    bodyMaxSize: uint32)

  /** The named peer group. A fresh one has no name and no nodes. */
  datatype Domain = Domain(name: string, nodes: seq<Peer>)

  /** Every field of the configuration object, as one value. */
  datatype State = State(
    httpServer: ServerConfig,
    httpClient: ClientConfig,
    ip: string,
    port: uint32,
    threadsCount: uint32,
    statsSendInterval: int64,
    statsDumpStdout: bool,
    httpPostRetries: uint32,
    statsSend: bool,
    network: Domain,
    stats: string,
    threadQueueSize: int64,
    reqsDumpOk: bool,
    reqsDumpErr: bool)

  /** Why construction aborts. */
  datatype ConfigError =
    | ConfigFileMissing        // the settings file does not exist
    | ConfigFileEmpty          // the settings file has size zero
    | ConfigFileUnreadable     // the settings reader rejected the file
    | QueueSizeDivisionByZero  // the per-thread queue size divides by a zero thread count
    | StatsUrlNotSet
    | NetworkNameEmpty
    | NetworkNodesEmpty

  const DefaultPort: uint32 := 8080
  const DefaultThreadsCount: uint32 := 1
  const DefaultStatsSendInterval: int64 := 1
  const DefaultHttpPostRetries: uint32 := 1

  /** The fields as the class declaration initialises them. */
  function DeclaredDefaults(server: ServerConfig, client: ClientConfig): State {
    State(
      httpServer := server,
      httpClient := client,
      ip := "",
      port := DefaultPort,
      threadsCount := DefaultThreadsCount,
      statsSendInterval := DefaultStatsSendInterval,
      statsDumpStdout := false,
      httpPostRetries := DefaultHttpPostRetries,
      statsSend := true,
      network := Domain("", []),
      stats := "",
      threadQueueSize := 0,
      reqsDumpOk := false,
      reqsDumpErr := false)
  }

  /** The fields once the constructor's initialiser list has run: the thread
      count is the hardware concurrency, whatever the declared default. */
  function Initial(hw: uint32, server: ServerConfig, client: ClientConfig): State {
    DeclaredDefaults(server, client).(threadsCount := hw)
  }
}
