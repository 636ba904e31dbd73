/** The configuration object: built once from the settings file and the peer
    file, validated, and afterwards only read. */
module Configuration {
  import opened Common
  import opened PeerList
  import opened ConfigState
  import opened Settings

  // ---------------------------------------------------------------------
  // Specification
  // ---------------------------------------------------------------------

  /** Merging a loaded peer file into the peer group: the name is replaced only
      by a non-empty one; the peers are appended after the existing nodes. */
  function MergeNetwork(d: Domain, loaded: (string, seq<Peer>)): Domain {
    Domain(if loaded.0 != "" then loaded.0 else d.name, d.nodes + loaded.1)
  }

  /** The three checks after loading, in order; the first that fails is
      reported. */
  function Validate(s: State): (r: Option<ConfigError>)
    ensures r == None <==> s.stats != "" && s.network.name != "" && s.network.nodes != []
    ensures r == Some(StatsUrlNotSet) <==> s.stats == ""
    ensures r == Some(NetworkNameEmpty) <==> s.stats != "" && s.network.name == ""
    ensures r == Some(NetworkNodesEmpty) <==> s.stats != "" && s.network.name != "" && s.network.nodes == []
  {
    if s.stats == "" then Some(StatsUrlNotSet)
    else if s.network.name == "" then Some(NetworkNameEmpty)
    else if s.network.nodes == [] then Some(NetworkNodesEmpty)
    else None
  }

  /** The whole construction: initial fields, the settings, then the peer
      file, then validation. */
  function Build(src: SettingsSource, p: LineParsers, lines: seq<string>,
                 hw: uint32, server: ServerConfig, client: ClientConfig): Result<State, ConfigError>
  {
    match LoadSettings(Initial(hw, server, client), src, hw)
    case Failure(e) => Failure(e)
    case Success(s) =>
      var s' := s.(network := MergeNetwork(s.network, Scan(p, lines)));
      match Validate(s')
      case Some(e) => Failure(e)
      case None => Success(s')
  }

  // ---------------------------------------------------------------------
  // The object
  // ---------------------------------------------------------------------

  class Config {
    var httpServer: ServerConfig
    var httpClient: ClientConfig
    var ip: string
    var port: uint32
    var threadsCount: uint32
    var statsSendInterval: int64
    var statsDumpStdout: bool
    var httpPostRetries: uint32
    var statsSend: bool
    var network: Domain
    var stats: string
    var threadQueueSize: int64
    var reqsDumpOk: bool
    var reqsDumpErr: bool

    /** All fields as one value. */
    function Snapshot(): State
      reads this
    {
      State(httpServer, httpClient, ip, port, threadsCount, statsSendInterval, statsDumpStdout,
            httpPostRetries, statsSend, network, stats, threadQueueSize, reqsDumpOk, reqsDumpErr)
    }

    /** What every constructed object satisfies once validation has passed. */
    ghost predicate Valid()
      reads this
    {
      stats != "" && network.name != "" && network.nodes != [] && threadQueueSize >= 0
    }

    /** The declared field initialisers, with the thread count taken from the
        hardware concurrency and the HTTP settings from their libraries'
        defaults. */
    constructor (hw: uint32, server: ServerConfig, client: ClientConfig)
      ensures Snapshot() == Initial(hw, server, client)
      ensures port == 8080 && threadsCount == hw && statsSendInterval == 1
      ensures !statsDumpStdout && httpPostRetries == 1 && statsSend
      ensures !reqsDumpOk && !reqsDumpErr && threadQueueSize == 0
      ensures stats == "" && ip == "" && network == Domain("", [])
      ensures httpServer == server && httpClient == client
    {
      httpServer := server;
      httpClient := client;
      ip := "";
      port := DefaultPort;
      threadsCount := hw;
      statsSendInterval := DefaultStatsSendInterval;
      statsDumpStdout := false;
      httpPostRetries := DefaultHttpPostRetries;
      statsSend := true;
      network := Domain("", []);
      stats := "";
      threadQueueSize := 0;
      reqsDumpOk := false;
      reqsDumpErr := false;
    }

    /** load_config: checks the file, then overwrites one field per present
        key, section by section. */
    method LoadConfig(src: SettingsSource, hw: uint32) returns (err: Option<ConfigError>)
      modifies this
      ensures match LoadSettings(old(Snapshot()), src, hw)
              case Success(s) => err == None && Snapshot() == s
              case Failure(e) => err == Some(e)
    {
      if !src.found {
        return Some(ConfigFileMissing);
      }
      if src.size == 0 {
        return Some(ConfigFileEmpty);
      }
      if src.parsed.None? {
        return Some(ConfigFileUnreadable);
      }
      var cfg := src.parsed.value;
      if CorePath in cfg {
        err := LoadCore(cfg[CorePath], hw);
        if err.Some? {
          return;
        }
      }
      if StatsPath in cfg {
        LoadStats(cfg[StatsPath]);
      }
      if HttpPath in cfg {
        if ServerPath in cfg {
          LoadServer(cfg[ServerPath]);
        }
        if ClientPath in cfg {
          LoadClient(cfg[ClientPath]);
        }
      }
      return None;
    }

    /** The `core` part of load_config. */
    method LoadCore(core: Group, hw: uint32) returns (err: Option<ConfigError>)
      modifies this
      ensures ResolveCore(old(Snapshot()), core, hw).Success? ==>
        err == None && Snapshot() == ResolveCore(old(Snapshot()), core, hw).value
      ensures ResolveCore(old(Snapshot()), core, hw).Failure? ==>
        err == Some(ResolveCore(old(Snapshot()), core, hw).error)
    {
      var queueSize: int64 := 0;
      var threads := UIntAt(core, "threads").GetOr(threadsCount);
      if threads == 0 {
        threads := hw;
      }
      threadsCount := threads;
      reqsDumpOk := BoolAt(core, "reqs_dump_ok").GetOr(reqsDumpOk);
      reqsDumpErr := BoolAt(core, "reqs_dump_err").GetOr(reqsDumpErr);
      var num := UIntAt(core, "queue_size");
      if num.Some? {
        queueSize := num.value;
        if threads == 0 {
          return Some(QueueSizeDivisionByZero);
        }
        threadQueueSize := PerThread(queueSize, threads);
      }
      return None;
    }

    /** The `stats` part of load_config. */
    method LoadStats(group: Group)
      modifies this
      ensures Snapshot() == ResolveStats(old(Snapshot()), group)
    {
      var interval := UIntAt(group, "interval_seconds");
      if interval.Some? {
        statsSendInterval := interval.value;
      }
      stats := StrAt(group, "url").GetOr(stats);
      statsDumpStdout := BoolAt(group, "dump_stdout").GetOr(statsDumpStdout);
      statsSend := BoolAt(group, "send").GetOr(statsSend);
    }

    /** The `http.server` part of load_config. */
    method LoadServer(server: Group)
      modifies this
      ensures Snapshot() == ResolveServer(old(Snapshot()), server)
    {
      ip := StrAt(server, "ip").GetOr(ip);
      port := UIntAt(server, "port").GetOr(port);
      var num := UIntAt(server, "max_conns");
      if num.Some? {
        httpServer := httpServer.(maxConns := num.value);
      }
      httpServer := httpServer.(backlog := UIntAt(server, "backlog").GetOr(httpServer.backlog));
      num := UIntAt(server, "keep_alive_timeout_seconds");
      if num.Some? {
        httpServer := httpServer.(keepAliveTimeoutSeconds := num.value);
      }
      num := UIntAt(server, "message_max_size");
      if num.Some? {
        httpServer := httpServer.(bufferSize := num.value);
        httpServer := httpServer.(requestMaxSize := num.value);
      }
    }

    /** The `http.client` part of load_config. */
    method LoadClient(client: Group)
      modifies this
      ensures Snapshot() == ResolveClient(old(Snapshot()), client)
    {
      var num := UIntAt(client, "conns_per_ip");
      if num.Some? {
        httpClient := httpClient.(connsPerIp := num.value);
      }
      num := UIntAt(client, "pool_max_conns");
      if num.Some? {
        httpClient := httpClient.(poolMaxConns := num.value);
      }
      num := UIntAt(client, "reponse_timeout_ms");
      if num.Some? {
        httpClient := httpClient.(responseTimeoutMs := num.value);
      }
      httpPostRetries := UIntAt(client, "retries").GetOr(httpPostRetries);
      num := UIntAt(client, "message_max_size");
      if num.Some? {
        httpClient := httpClient.(bodyMaxSize := num.value);
      }
    }

    /** load_network: reads the peer file, takes its name only when it is
        non-empty, and appends its peers one by one after the existing
        nodes. */
    method LoadNetwork(p: LineParsers, lines: seq<string>)
      modifies this
      ensures Snapshot() == old(Snapshot()).(network := MergeNetwork(old(network), Scan(p, lines)))
    {
      var name, nodes := LoadNetworkNodes(p, lines);
      if name != "" {
        network := network.(name := name);
      }
      for i := 0 to |nodes|
        invariant network.name == (if name != "" then name else old(network.name))
        invariant network.nodes == old(network.nodes) + nodes[..i]
        invariant Snapshot() == old(Snapshot()).(network := network)
      {
        assert nodes[..i + 1] == nodes[..i] + [nodes[i]];
        network := network.(nodes := network.nodes + [nodes[i]]);
      }
      assert nodes[..|nodes|] == nodes;
    }

    /** The listening port as a 16-bit value: the stored value reduced modulo
        2^16. */
    function Port(): (result: uint16)
      reads this
      ensures port < 0x1_0000 ==> result == port
      ensures (port - result) % 0x1_0000 == 0
    {
      port % 0x1_0000
    }

    function Ip(): string reads this { ip }
    function HttpServerConfig(): ServerConfig reads this { httpServer }
    function HttpClientConfig(): ClientConfig reads this { httpClient }
    function HttpPostRetries(): uint32 reads this { httpPostRetries }
    function ThreadsCount(): uint32 reads this { threadsCount }
    function StatsSendInterval(): int64 reads this { statsSendInterval }
    function StatsDumpStdout(): bool reads this { statsDumpStdout }
    function StatsSend(): bool reads this { statsSend }
    function ReqsDumpOk(): bool reads this { reqsDumpOk }
    function ReqsDumpErr(): bool reads this { reqsDumpErr }
    function Network(): Domain reads this { network }
    function Stats(): string reads this { stats }
    function ThreadQueueSize(): int64 reads this { threadQueueSize }
  }

  /** The constructor body: loads the settings, then the peer file, then
      checks the stats URL, the network name and the node list in that order.
      Any failure means no object. */
  method NewConfig(src: SettingsSource, p: LineParsers, lines: seq<string>,
                   hw: uint32, server: ServerConfig, client: ClientConfig)
    returns (r: Result<Config, ConfigError>)
    ensures r.Success? ==> fresh(r.value) && r.value.Valid()
    ensures r.Success? ==> Build(src, p, lines, hw, server, client) == Success(r.value.Snapshot())
    ensures r.Failure? ==> Build(src, p, lines, hw, server, client) == Failure(r.error)
  {
    var c := new Config(hw, server, client);
    var err := c.LoadConfig(src, hw);
    if err.Some? {
      return Failure(err.value);
    }
    ghost var loaded := c.Snapshot();
    assert LoadSettings(Initial(hw, server, client), src, hw) == Success(loaded);
    LoadedQueueSizeNonNegative(src, hw, server, client);
    c.LoadNetwork(p, lines);
    if c.stats == "" {
      return Failure(StatsUrlNotSet);
    }
    if c.network.name == "" {
      return Failure(NetworkNameEmpty);
    }
    if c.network.nodes == [] {
      return Failure(NetworkNodesEmpty);
    }
    return Success(c);
  }

  // ---------------------------------------------------------------------
  // Properties
  // ---------------------------------------------------------------------

  /** A successful settings load from the initial fields never yields a
      negative per-thread queue size. */
  lemma LoadedQueueSizeNonNegative(src: SettingsSource, hw: uint32, server: ServerConfig, client: ClientConfig)
    ensures var r := LoadSettings(Initial(hw, server, client), src, hw);
      r.Success? ==> r.value.threadQueueSize >= 0
  {
    if src.found && src.size > 0 && src.parsed.Some? {
      var f := src.parsed.value;
      if ResolveSettings(Initial(hw, server, client), f, hw).Success? {
        QueueSizeAfterLoad(f, hw, server, client);
      }
    }
  }

  /** Construction succeeds exactly when the settings load, the stats URL is
      set, the peer file names the network and lists at least one peer; the
      resulting group is the file's first non-empty line and the peers of the
      lines after it, in file order. */
  lemma BuildOutcome(src: SettingsSource, p: LineParsers, lines: seq<string>,
                     hw: uint32, server: ServerConfig, client: ClientConfig)
    ensures var r := Build(src, p, lines, hw, server, client);
      var loaded := LoadSettings(Initial(hw, server, client), src, hw);
      && (r.Success? <==>
            loaded.Success? && loaded.value.stats != ""
            && NetworkName(lines) != "" && PeersOf(p, PeerLines(lines)) != [])
      && (r.Success? ==>
            && r.value == loaded.value.(network := Domain(NetworkName(lines), PeersOf(p, PeerLines(lines))))
            && r.value.network.name != "" && r.value.network.nodes != [])
  {
    ScanCharacterised(p, lines);
    var loaded := LoadSettings(Initial(hw, server, client), src, hw);
    if loaded.Success? {
      assert loaded.value.network == Domain("", []);
    }
  }

  /** Settings errors are reported before the peer file is considered: the
      outcome does not depend on the peer lines. */
  lemma SettingsErrorsFirst(src: SettingsSource, p: LineParsers, lines: seq<string>, lines': seq<string>,
                            hw: uint32, server: ServerConfig, client: ClientConfig)
    requires LoadSettings(Initial(hw, server, client), src, hw).Failure?
    ensures Build(src, p, lines, hw, server, client) == Build(src, p, lines', hw, server, client)
    ensures Build(src, p, lines, hw, server, client) == Failure(LoadSettings(Initial(hw, server, client), src, hw).error)
  {
  }

  /** A settings file without a stats URL makes construction fail with the
      stats error, whatever the peer file holds. */
  lemma MissingStatsUrlRejected(src: SettingsSource, p: LineParsers, lines: seq<string>,
                                hw: uint32, server: ServerConfig, client: ClientConfig)
    requires src.found && src.size > 0 && src.parsed.Some?
    requires ResolveSettings(Initial(hw, server, client), src.parsed.value, hw).Success?
    requires StrAt(StatsOf(src.parsed.value), "url").None?
    ensures Build(src, p, lines, hw, server, client) == Failure(StatsUrlNotSet)
  {
    StatsAfterLoad(src.parsed.value, hw, server, client);
  }

  /** A peer file whose lines after the name yield no peer makes construction
      fail with the node-list error once the stats URL and the name are set. */
  lemma NoPeersRejected(src: SettingsSource, p: LineParsers, lines: seq<string>,
                        hw: uint32, server: ServerConfig, client: ClientConfig)
    requires LoadSettings(Initial(hw, server, client), src, hw).Success?
    requires LoadSettings(Initial(hw, server, client), src, hw).value.stats != ""
    requires NetworkName(lines) != ""
    requires forall i :: 0 <= i < |PeerLines(lines)| ==> ParsePeerLine(p, PeerLines(lines)[i]).None?
    ensures Build(src, p, lines, hw, server, client) == Failure(NetworkNodesEmpty)
  {
    NoAcceptedLineNoPeers(p, PeerLines(lines));
    ScanCharacterised(p, lines);
  }

  lemma {:induction false} NoAcceptedLineNoPeers(p: LineParsers, lines: seq<string>)
    requires forall i :: 0 <= i < |lines| ==> ParsePeerLine(p, lines[i]).None?
    ensures PeersOf(p, lines) == []
  {
    if lines != [] {
      assert ParsePeerLine(p, lines[0]).None?;
      assert forall i :: 1 <= i < |lines| ==> lines[1..][i - 1] == lines[i];
      NoAcceptedLineNoPeers(p, lines[1..]);
    }
  }

  /** The declared default thread count of 1 never shows: after construction
      the thread count is the hardware concurrency or the non-zero value the
      `core` section gives. */
  lemma DeclaredThreadsDefaultUnobservable(src: SettingsSource, p: LineParsers, lines: seq<string>,
                                           hw: uint32, server: ServerConfig, client: ClientConfig)
    requires Build(src, p, lines, hw, server, client).Success?
    ensures var t := Build(src, p, lines, hw, server, client).value.threadsCount;
      t == hw || (t != 0 && UIntAt(CoreOf(src.parsed.value), "threads") == Some(t))
  {
    ThreadsAfterLoad(src.parsed.value, hw, server, client);
  }
}
