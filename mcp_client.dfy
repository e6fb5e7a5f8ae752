/**
 * `MCPClient`: a table of configured tool servers keyed by name, each with an
 * `enabled` flag and the process started for it, the guards in front of every
 * tool call, server start-up and status reporting, and the three enumeration
 * entry points that call one tool on each selected server and consolidate.
 *
 * Spawning, stopping and talking to a process are effects; the model receives
 * their outcomes as inputs (`SpawnOutcome`, `StopOutcome`, `Reply`).
 */
module McpClient {
  import opened Common
  import opened OrderedMaps
  import opened Json
  import Consolidation

  /** A server process as the client sees it: its exit code (`None` while it runs) and whether it has a stdin pipe. */
  datatype Process = Process(returnCode: Option<int>, hasStdin: bool)

  /** One entry of the `mcp_servers` list of the configuration document. */
  datatype ServerEntry = ServerEntry(name: string, url: string, serverType: string, enabled: bool)

  /** `MCPServerConfig`: an entry together with the process started for it. */
  datatype ServerConfig = ServerConfig(
    name: string, url: string, serverType: string, enabled: bool, process: Option<Process>)

  /** What `asyncio.create_subprocess_exec` did: raised, or gave a process (observed after the one-second grace sleep). */
  datatype SpawnOutcome = SpawnRaised | Spawned(process: Process)

  /** What stopping did: the process ended with an exit code (after `terminate`, or after `kill`), or an exception was raised. */
  datatype StopOutcome = Exited(code: int) | StopRaised

  /** A request the client wrote (if any) and the dictionary it returned. */
  datatype Exchange = Exchange(request: Option<Value>, response: Value)

  /** The three enumeration entry points and the configuration each one takes. */
  datatype Kind =
    | Passive
    | Active(config: OMap<Value>)
    | Combined(passiveConfig: Option<OMap<Value>>, activeConfig: Option<OMap<Value>>)

  function FromEntry(e: ServerEntry): (c: ServerConfig)
    ensures c.name == e.name && c.enabled == e.enabled && c.process.None?
  {
    ServerConfig(e.name, e.url, e.serverType, e.enabled, None)
  }

  const DefaultServerName: string := "amass-mcp-default"

  /** The server `_create_default_config` registers when there is no configuration file. */
  function DefaultServer(): ServerConfig {
    ServerConfig(DefaultServerName, "http://localhost:8001", "amass", true, None)
  }

  /** The table `load_config` builds: each entry stored under its name, in list order. */
  function Loaded(entries: seq<ServerEntry>): (r: OMap<ServerConfig>)
    ensures r.Valid()
    ensures forall k :: k in r.values ==> r.values[k].name == k
  {
    if entries == [] then Empty()
    else
      var last := entries[|entries| - 1];
      Loaded(entries[..|entries| - 1]).Put(last.name, FromEntry(last))
  }

  /** The position of the last entry called `name`, or -1. */
  function LastNamed(entries: seq<ServerEntry>, name: string): (i: int)
    ensures -1 <= i < |entries|
    ensures i >= 0 ==> entries[i].name == name
    ensures forall j :: i < j < |entries| ==> entries[j].name != name
  {
    if entries == [] then -1
    else if entries[|entries| - 1].name == name then |entries| - 1
    else LastNamed(entries[..|entries| - 1], name)
  }

  /** Loading keeps, for every name, the last entry carrying it; names no entry carries are absent. */
  lemma {:induction false} LastEntryWins(entries: seq<ServerEntry>, name: string)
    ensures Loaded(entries).Get(name)
            == if LastNamed(entries, name) < 0 then None else Some(FromEntry(entries[LastNamed(entries, name)]))
  {
    if entries != [] {
      LastEntryWins(entries[..|entries| - 1], name);
    }
  }

  /** `str(e)` of an exception, wrapped as the error dictionary the client returns. */
  function ErrorDict(message: string): (r: Value)
    ensures r.Obj? && r.fields.keys == ["error"] && "error" in r.fields.values && r.fields.values["error"] == Str(message)
    ensures !Consolidation.Succeeded(r)
  {
    Obj(Empty<Value>().Put("error", Str(message)))
  }

  /** The request written for `tools/call`. */
  function ToolsCall(tool: string, arguments: OMap<Value>): Value {
    var params := Empty<Value>().Put("name", Str(tool)).Put("arguments", Obj(arguments));
    Obj(Empty<Value>().Put("method", Str("tools/call")).Put("params", Obj(params)))
  }

  /** The request written for `tools/list`. */
  function ToolsList(): Value {
    Obj(Empty<Value>().Put("method", Str("tools/list")).Put("params", Obj(Empty())))
  }

  /** The dictionary returned once a request was written: the decoded line, or an error dictionary. */
  function ResponseOf(reply: Reply): (r: Value)
    ensures reply.Line? ==> r == reply.response
    ensures reply.NoLine? ==> r == ErrorDict("No response from server")
    ensures reply.Raised? ==> r == ErrorDict(reply.message)
  {
    match reply
    case NoLine => ErrorDict("No response from server")
    case Line(v) => v
    case Raised(m) => ErrorDict(m)
  }

  /** Whether `start_server` reports success for a configured server. */
  predicate StartOk(cfg: ServerConfig, spawn: SpawnOutcome) {
    cfg.enabled && cfg.serverType == "amass" && spawn.Spawned? && spawn.process.returnCode.None?
  }

  /** The configuration after `start_server`: the spawned process is recorded, whether or not it survived the grace period. */
  function AfterStart(cfg: ServerConfig, spawn: SpawnOutcome): (r: ServerConfig)
    ensures r.name == cfg.name && r.enabled == cfg.enabled && r.serverType == cfg.serverType
  {
    if cfg.enabled && cfg.serverType == "amass" && spawn.Spawned? then cfg.(process := Some(spawn.process))
    else cfg
  }

  /** The configuration after `stop_server`: the process stays attached, now carrying its exit code. */
  function AfterStop(cfg: ServerConfig, stop: StopOutcome): (r: ServerConfig)
    ensures r.name == cfg.name && r.enabled == cfg.enabled && r.serverType == cfg.serverType
    ensures r.process.Some? <==> cfg.process.Some?
  {
    if cfg.process.Some? && stop.Exited? then
      cfg.(process := Some(cfg.process.value.(returnCode := Some(stop.code))))
    else cfg
  }

  /** The status string `get_server_status` reports for one server. */
  function StatusOf(cfg: ServerConfig): string {
    if !cfg.enabled then "disabled"
    else if cfg.process.None? then "stopped"
    else if cfg.process.value.returnCode.None? then "running"
    else "failed"
  }

  /** Every server has exactly one of the four statuses, and a disabled one is "disabled" whatever its process. */
  lemma StatusCases(cfg: ServerConfig)
    ensures StatusOf(cfg) in ["disabled", "stopped", "running", "failed"]
    ensures !cfg.enabled ==> StatusOf(cfg) == "disabled"
    ensures StatusOf(cfg) == "running" <==> cfg.enabled && cfg.process.Some? && cfg.process.value.returnCode.None?
  {
  }

  /**
   * A successful start leaves the server "running"; a failed first start
   * never does. (A failed restart keeps whatever process ran before.)
   */
  lemma StartStatus(cfg: ServerConfig, spawn: SpawnOutcome)
    ensures StartOk(cfg, spawn) ==> StatusOf(AfterStart(cfg, spawn)) == "running"
    ensures cfg.process.None? && !StartOk(cfg, spawn) ==> StatusOf(AfterStart(cfg, spawn)) != "running"
  {
  }

  /** A stop that ends the process leaves an enabled server reported as "failed", not "stopped": the process is never detached. */
  lemma StopStatus(cfg: ServerConfig, code: int)
    requires cfg.enabled && cfg.process.Some?
    ensures StatusOf(AfterStop(cfg, Exited(code))) == "failed"
  {
  }

  /** The tool each entry point calls. */
  function ToolName(kind: Kind): string {
    match kind
    case Passive => "passive_subdomain_enum"
    case Active(_) => "active_subdomain_enum"
    case Combined(_, _) => "combined_subdomain_enum"
  }

  /** The `method` string the consolidated answer carries. */
  function KindName(kind: Kind): string {
    match kind
    case Passive => "passive"
    case Active(_) => "active"
    case Combined(_, _) => "combined"
  }

  /** `d or {}` for an optional dictionary. */
  function OrEmpty(d: Option<OMap<Value>>): OMap<Value> {
    if d.Some? then d.value else Empty()
  }

  /** The arguments each entry point sends; for active, `{"domain": domain, **config}`. */
  function Arguments(domain: string, kind: Kind): (r: OMap<Value>)
    requires kind.Active? ==> kind.config.Valid()
    ensures r.Valid() && |r.keys| >= 1 && r.keys[0] == "domain"
    ensures kind.Passive? ==> r.keys == ["domain"] && r.values == map["domain" := Str(domain)]
  {
    match kind
    case Passive => DomainArgument(domain)
    case Active(config) => ActiveArguments(domain, config)
    case Combined(p, a) => CombinedArguments(domain, p, a)
  }

  /** `{"domain": domain}`. */
  function DomainArgument(domain: string): (r: OMap<Value>)
    ensures r.Valid() && r.keys == ["domain"] && r.values == map["domain" := Str(domain)]
  {
    Empty<Value>().Put("domain", Str(domain))
  }

  /** `{"domain": domain, **config}`: the configuration's entries follow the domain and may replace it. */
  function ActiveArguments(domain: string, config: OMap<Value>): (r: OMap<Value>)
    requires config.Valid()
    ensures r.Valid() && |r.keys| >= 1 && r.keys[0] == "domain"
    ensures forall k :: k in r.values <==> k == "domain" || k in config.values
    ensures r.values["domain"] == (if "domain" in config.values then config.values["domain"] else Str(domain))
    ensures forall k :: k in config.values ==> r.values[k] == config.values[k]
  {
    DomainArgument(domain).Update(config)
  }

  /** `{"domain": domain, "passive_config": p or {}, "active_config": a or {}}`. */
  function CombinedArguments(domain: string, p: Option<OMap<Value>>, a: Option<OMap<Value>>): (r: OMap<Value>)
    ensures r.Valid() && r.keys == ["domain", "passive_config", "active_config"]
    ensures r.values == map["domain" := Str(domain), "passive_config" := Obj(OrEmpty(p)), "active_config" := Obj(OrEmpty(a))]
  {
    OMap(["domain", "passive_config", "active_config"],
      map["domain" := Str(domain), "passive_config" := Obj(OrEmpty(p)), "active_config" := Obj(OrEmpty(a))])
  }

  /** The names of the enabled servers among `keys`, in order. */
  function EnabledNames(keys: seq<string>, servers: map<string, ServerConfig>): (r: seq<string>)
    requires forall i :: 0 <= i < |keys| ==> keys[i] in servers
    ensures forall n :: n in r <==> n in keys && servers[n].enabled
    ensures |r| <= |keys|
  {
    if keys == [] then []
    else
      var last := keys[|keys| - 1];
      var init := EnabledNames(keys[..|keys| - 1], servers);
      assert keys == keys[..|keys| - 1] + [last];
      if servers[last].enabled then init + [last] else init
  }

  /** One more name after `keys` is selected after the others, exactly when its server is enabled. */
  lemma EnabledNamesSnoc(keys: seq<string>, k: string, servers: map<string, ServerConfig>)
    requires forall i :: 0 <= i < |keys| ==> keys[i] in servers
    requires k in servers
    ensures EnabledNames(keys + [k], servers) == EnabledNames(keys, servers) + if servers[k].enabled then [k] else []
  {
    assert (keys + [k])[..|keys|] == keys;
  }

  /** The selection keeps table order: selecting from one list after another selects from each in turn. */
  lemma {:induction false} EnabledNamesAppend(a: seq<string>, b: seq<string>, servers: map<string, ServerConfig>)
    requires forall i :: 0 <= i < |a| ==> a[i] in servers
    requires forall i :: 0 <= i < |b| ==> b[i] in servers
    ensures EnabledNames(a + b, servers) == EnabledNames(a, servers) + EnabledNames(b, servers)
    decreases |b|
  {
    if b == [] {
      assert a + b == a;
    } else {
      var n := |b| - 1;
      var init := b[..n];
      var picked := if servers[b[n]].enabled then [b[n]] else [];
      assert b == init + [b[n]];
      assert a + b == (a + init) + [b[n]];
      EnabledNamesAppend(a, init, servers);
      EnabledNamesSnoc(a + init, b[n], servers);
      EnabledNamesSnoc(init, b[n], servers);
    }
  }

  /** The key order of a dictionary assigned under `names` in turn: each name where it was first assigned. */
  function AssignedKeys(names: seq<string>): (r: seq<string>)
    ensures forall n :: n in r <==> n in names
  {
    if names == [] then []
    else
      var init := AssignedKeys(names[..|names| - 1]);
      var last := names[|names| - 1];
      assert names == names[..|names| - 1] + [last];
      if last in init then init else init + [last]
  }

  /** Names without repeats are the keys in exactly the order they were assigned. */
  lemma {:induction false} AssignedKeysDistinct(names: seq<string>)
    requires forall i, j :: 0 <= i < j < |names| ==> names[i] != names[j]
    ensures AssignedKeys(names) == names
  {
    if names != [] {
      var n := |names| - 1;
      DistinctSnoc(names, names[..n]);
      AssignedKeysDistinct(names[..n]);
      assert names == names[..n] + [names[n]];
    }
  }

  /** A list without repeats: its last element is not among the others, which have no repeats either. */
  lemma DistinctSnoc(s: seq<string>, init: seq<string>)
    requires s != [] && init == s[..|s| - 1]
    requires forall i, j :: 0 <= i < j < |s| ==> s[i] != s[j]
    ensures s[|s| - 1] !in init
    ensures forall i, j :: 0 <= i < j < |init| ==> init[i] != init[j]
  {
    var n := |s| - 1;
    forall i | 0 <= i < n ensures init[i] != s[n] {
      assert init[i] == s[i];
    }
  }

  /** An order-preserving selection from a list without repeats has no repeats either. */
  lemma {:induction false} EnabledNamesDistinct(keys: seq<string>, servers: map<string, ServerConfig>)
    requires forall i :: 0 <= i < |keys| ==> keys[i] in servers
    requires forall i, j :: 0 <= i < j < |keys| ==> keys[i] != keys[j]
    ensures forall i, j :: 0 <= i < j < |EnabledNames(keys, servers)| ==>
      EnabledNames(keys, servers)[i] != EnabledNames(keys, servers)[j]
  {
    if keys != [] {
      var n := |keys| - 1;
      var init := EnabledNames(keys[..n], servers);
      EnabledNamesDistinct(keys[..n], servers);
      assert keys[n] !in keys[..n];
      assert keys[n] !in init;
    }
  }

  /** One turn of `start_all_servers` over the table, with `done` the servers already visited. */
  lemma StartStep(
    before: map<string, ServerConfig>, prev: map<string, ServerConfig>, done: seq<string>, name: string,
    spawn: string -> SpawnOutcome)
    requires name in before && name !in done
    requires forall k :: k in before ==> (k in prev &&
      prev[k] == if k in done then AfterStart(before[k], spawn(k)) else before[k])
    ensures var next := prev[name := AfterStart(before[name], spawn(name))];
      forall k :: k in before ==> (k in next &&
        next[k] == if k in done + [name] then AfterStart(before[k], spawn(k)) else before[k])
  {
  }

  /** One more server stopped by `stop_all_servers`. */
  lemma StopStep(
    before: map<string, ServerConfig>, prev: map<string, ServerConfig>, done: seq<string>, name: string,
    stop: string -> StopOutcome)
    requires name !in done
    requires forall k :: k in before ==> (k in prev &&
      prev[k] == if k in done then AfterStop(before[k], stop(k)) else before[k])
    ensures name in before ==> var next := prev[name := AfterStop(before[name], stop(name))];
      forall k :: k in before ==> (k in next &&
        next[k] == if k in done + [name] then AfterStop(before[k], stop(k)) else before[k])
  {
  }

  /** One entry added to the outcome map of `start_all_servers`. */
  lemma OutcomeStep(
    before: map<string, ServerConfig>, r: OMap<bool>, done: seq<string>, name: string, spawn: string -> SpawnOutcome)
    requires name in before && name !in done && r.Valid() && r.keys == done
    requires forall k :: k in done ==> k in before && k in r.values && r.values[k] == StartOk(before[k], spawn(k))
    ensures var next := r.Put(name, StartOk(before[name], spawn(name)));
      && next.keys == done + [name]
      && forall k :: k in done + [name] ==> k in before && k in next.values && next.values[k] == StartOk(before[k], spawn(k))
  {
  }

  class Client {
    /** `self.servers`, in insertion order. */
    var servers: OMap<ServerConfig>

    /** A well-formed table: every server is stored under its own name. */
    ghost predicate Valid()
      reads this
    {
      servers.Valid() && forall k :: k in servers.values ==> servers.values[k].name == k
    }

    /**
     * `MCPClient.__init__` and `load_config`: with no configuration file
     * (`None`) the default server alone; otherwise the entries stored under
     * their names one by one, so a later duplicate replaces an earlier one.
     */
    constructor(entries: Option<seq<ServerEntry>>)
      ensures Valid()
      ensures entries.None? ==> servers == Empty<ServerConfig>().Put(DefaultServerName, DefaultServer())
      ensures entries.Some? ==> servers == Loaded(entries.value)
    {
      servers := Empty();
      new;
      if entries.None? {
        servers := servers.Put(DefaultServerName, DefaultServer());
      } else {
        var es := entries.value;
        var i := 0;
        while i < |es|
          invariant 0 <= i <= |es|
          invariant servers == Loaded(es[..i])
        {
          assert es[..i + 1][..i] == es[..i];
          servers := servers.Put(es[i].name, FromEntry(es[i]));
          i := i + 1;
        }
        assert es[..i] == es;
      }
    }

    /**
     * `start_server`: false for an unknown or disabled server and for any type
     * other than "amass"; otherwise the spawned process is recorded and the
     * answer is whether it was still running after the grace period.
     */
    method StartServer(name: string, spawn: SpawnOutcome) returns (ok: bool)
      requires Valid()
      modifies this
      ensures Valid()
      ensures name !in old(servers.values) ==> !ok && servers == old(servers)
      ensures name in old(servers.values) ==>
        && ok == StartOk(old(servers.values[name]), spawn)
        && servers == old(servers).Put(name, AfterStart(old(servers.values[name]), spawn))
    {
      if name !in servers.values {
        return false;
      }
      var cfg := servers.values[name];
      if !cfg.enabled {
        assert servers.values[name := cfg] == servers.values;
        return false;
      }
      if cfg.serverType != "amass" {
        assert servers.values[name := cfg] == servers.values;
        return false;
      }
      match spawn
      case SpawnRaised =>
        assert servers.values[name := cfg] == servers.values;
        ok := false;
      case Spawned(p) =>
        servers := servers.Put(name, cfg.(process := Some(p)));
        ok := p.returnCode.None?;
    }

    /** One turn of `start_all_servers`, for the `i`-th configured server: start it and record the outcome. */
    method StartNext(keys: seq<string>, i: nat, ghost before: map<string, ServerConfig>, r: OMap<bool>,
                     spawn: string -> SpawnOutcome)
      returns (r': OMap<bool>)
      requires Valid() && servers.keys == keys && i < |keys|
      requires r.Valid() && r.keys == keys[..i]
      requires forall k :: k in before ==> (k in servers.values &&
        servers.values[k] == if k in keys[..i] then AfterStart(before[k], spawn(k)) else before[k])
      requires forall k :: k in keys[..i] ==> k in before && k in r.values && r.values[k] == StartOk(before[k], spawn(k))
      requires forall k :: k in servers.values ==> k in before
      modifies this
      ensures Valid() && servers.keys == keys
      ensures r'.Valid() && r'.keys == keys[..i + 1]
      ensures forall k :: k in before ==> (k in servers.values &&
        servers.values[k] == if k in keys[..i + 1] then AfterStart(before[k], spawn(k)) else before[k])
      ensures forall k :: k in keys[..i + 1] ==> k in before && k in r'.values && r'.values[k] == StartOk(before[k], spawn(k))
    {
      var name := keys[i];
      assert keys[..i + 1] == keys[..i] + [name];
      assert name !in keys[..i];
      ghost var prev := servers.values;
      assert prev[name] == before[name];
      var ok := StartIfEnabled(name, spawn(name));
      StartStep(before, prev, keys[..i], name, spawn);
      OutcomeStep(before, r, keys[..i], name, spawn);
      r' := r.Put(name, ok);
    }

    /** One turn of `start_all_servers`: `start_server` for an enabled server, false for a disabled one. */
    method StartIfEnabled(name: string, spawn: SpawnOutcome) returns (ok: bool)
      requires Valid() && name in servers.values
      modifies this
      ensures Valid() && servers.keys == old(servers.keys)
      ensures servers.values == old(servers.values)[name := AfterStart(old(servers.values[name]), spawn)]
      ensures ok == StartOk(old(servers.values[name]), spawn)
    {
      if servers.values[name].enabled {
        ok := StartServer(name, spawn);
      } else {
        ok := false;
        assert servers.values[name := AfterStart(servers.values[name], spawn)] == servers.values;
      }
    }

    /**
     * `stop_server`: nothing for an unknown server or one without a process;
     * otherwise the process ends with an exit code and stays attached, or the
     * exception is swallowed and nothing changes.
     */
    method StopServer(name: string, stop: StopOutcome)
      requires Valid()
      modifies this
      ensures Valid()
      ensures name !in old(servers.values) ==> servers == old(servers)
      ensures name in old(servers.values) ==>
        servers == old(servers).Put(name, AfterStop(old(servers.values[name]), stop))
    {
      if name !in servers.values {
        return;
      }
      var cfg := servers.values[name];
      if cfg.process.Some? && stop.Exited? {
        servers := servers.Put(name, cfg.(process := Some(cfg.process.value.(returnCode := Some(stop.code)))));
      } else {
        assert servers.values[name := cfg] == servers.values;
      }
    }

    /**
     * `start_all_servers`: one entry per configured server, in table order;
     * disabled servers get false without a start attempt.
     */
    method StartAllServers(spawn: string -> SpawnOutcome) returns (r: OMap<bool>)
      requires Valid()
      modifies this
      ensures Valid()
      ensures servers.keys == old(servers.keys) && r.Valid() && r.keys == servers.keys
      ensures forall k :: k in old(servers.values) ==>
        && k in servers.values && servers.values[k] == AfterStart(old(servers.values[k]), spawn(k))
        && k in r.values && r.values[k] == StartOk(old(servers.values[k]), spawn(k))
    {
      var keys := servers.keys;
      ghost var before := servers.values;
      r := Empty();
      var i := 0;
      while i < |keys|
        invariant 0 <= i <= |keys|
        invariant Valid() && servers.keys == keys
        invariant r.Valid() && r.keys == keys[..i]
        invariant forall k :: k in before ==> (k in servers.values &&
          servers.values[k] == if k in keys[..i] then AfterStart(before[k], spawn(k)) else before[k])
        invariant forall k :: k in keys[..i] ==> k in before && k in r.values && r.values[k] == StartOk(before[k], spawn(k))
      {
        r := StartNext(keys, i, before, r, spawn);
        i := i + 1;
      }
      assert keys[..i] == keys;
    }

    /** `stop_all_servers`: `stop_server` on each configured server in turn. */
    method StopAllServers(stop: string -> StopOutcome)
      requires Valid()
      modifies this
      ensures Valid() && servers.keys == old(servers.keys)
      ensures forall k :: k in old(servers.values) ==>
        k in servers.values && servers.values[k] == AfterStop(old(servers.values[k]), stop(k))
    {
      var keys := servers.keys;
      ghost var before := servers.values;
      var i := 0;
      while i < |keys|
        invariant 0 <= i <= |keys|
        invariant Valid() && servers.keys == keys
        invariant forall k :: k in before ==> (k in servers.values &&
          servers.values[k] == if k in keys[..i] then AfterStop(before[k], stop(k)) else before[k])
      {
        var name := keys[i];
        assert keys[..i + 1] == keys[..i] + [name];
        assert name !in keys[..i];
        ghost var prev := servers.values;
        StopServer(name, stop(name));
        StopStep(before, prev, keys[..i], name, stop);
        i := i + 1;
      }
      assert keys[..i] == keys;
    }

    /**
     * `call_tool`: an unknown name, a disabled server and a server without a
     * process or stdin each give an error dictionary and write nothing;
     * otherwise the `tools/call` request is written and the reply returned.
     */
    function CallTool(name: string, tool: string, arguments: OMap<Value>, reply: Reply): (r: Exchange)
      reads this
      ensures name !in servers.values ==> r == Exchange(None, ErrorDict("Server " + name + " not found"))
      ensures name in servers.values && !servers.values[name].enabled ==>
        r == Exchange(None, ErrorDict("Server " + name + " is disabled"))
      ensures r.request.Some? <==>
        name in servers.values && servers.values[name].enabled
        && servers.values[name].process.Some? && servers.values[name].process.value.hasStdin
      ensures r.request.Some? ==> r.request.value == ToolsCall(tool, arguments) && r.response == ResponseOf(reply)
      ensures r.request.None? ==> !Consolidation.Succeeded(r.response)
      ensures name in servers.values && servers.values[name].enabled && r.request.None? ==>
        r.response == ErrorDict("Server not running or not accessible")
    {
      if name !in servers.values then Exchange(None, ErrorDict("Server " + name + " not found"))
      else
        var server := servers.values[name];
        if !server.enabled then Exchange(None, ErrorDict("Server " + name + " is disabled"))
        else if server.process.Some? && server.process.value.hasStdin then
          Exchange(Some(ToolsCall(tool, arguments)), ResponseOf(reply))
        else Exchange(None, ErrorDict("Server not running or not accessible"))
    }

    /**
     * `list_available_tools`: "Server not running" for an unknown server or one
     * without a process (enabled or not); a process without stdin fails on the
     * write; otherwise the `tools/list` request is written and the reply returned.
     */
    function ListAvailableTools(name: string, reply: Reply): (r: Exchange)
      reads this
      ensures (name !in servers.values || servers.values[name].process.None?) ==>
        r == Exchange(None, ErrorDict("Server not running"))
      ensures r.request.Some? <==>
        name in servers.values && servers.values[name].process.Some? && servers.values[name].process.value.hasStdin
      ensures r.request.Some? ==> r.request.value == ToolsList() && r.response == ResponseOf(reply)
      ensures r.request.None? ==> !Consolidation.Succeeded(r.response)
    {
      match servers.Get(name)
      case None => Exchange(None, ErrorDict("Server not running"))
      case Some(server) =>
        if server.process.None? then Exchange(None, ErrorDict("Server not running"))
        else if !server.process.value.hasStdin then
          Exchange(None, ErrorDict("'NoneType' object has no attribute 'write'"))
        else Exchange(Some(ToolsList()), ResponseOf(reply))
    }

    /** The servers an enumeration calls: the given list, or else every enabled server in table order. */
    function EnumerationTargets(names: Option<seq<string>>): (r: seq<string>)
      requires Valid()
      reads this
      ensures names.Some? ==> r == names.value
      ensures names.None? ==>
        && r == EnabledNames(servers.keys, servers.values)
        && (forall n :: n in r <==> n in servers.values && servers.values[n].enabled)
        && (forall i, j :: 0 <= i < j < |r| ==> r[i] != r[j])
    {
      if names.Some? then names.value
      else
        EnabledNamesDistinct(servers.keys, servers.values);
        EnabledNames(servers.keys, servers.values)
    }

    /** The `results` dictionary after calling the tool on each of `targets` in turn; a repeated name keeps its first place and its last response. */
    function Recorded(targets: seq<string>, tool: string, arguments: OMap<Value>, replies: string -> Reply): (r: OMap<Value>)
      reads this
      ensures r.Valid()
      ensures forall n :: n in r.values <==> n in targets
      ensures forall n :: n in r.values ==> r.values[n] == CallTool(n, tool, arguments, replies(n)).response
      ensures r.keys == AssignedKeys(targets)
    {
      if targets == [] then Empty()
      else
        var last := targets[|targets| - 1];
        assert targets == targets[..|targets| - 1] + [last];
        Recorded(targets[..|targets| - 1], tool, arguments, replies)
          .Put(last, CallTool(last, tool, arguments, replies(last)).response)
    }

    /**
     * `enumerate_subdomains_passive`, `_active` and `_combined`: the tool is
     * called on each target in turn with the entry point's arguments, and the
     * responses are consolidated.
     */
    method Enumerate(domain: string, kind: Kind, names: Option<seq<string>>, replies: string -> Reply)
      returns (r: Result<Consolidation.Aggregate, string>)
      requires Valid() && (kind.Active? ==> kind.config.Valid())
      ensures Consolidation.Consolidates(
        Recorded(EnumerationTargets(names), ToolName(kind), Arguments(domain, kind), replies),
        domain, KindName(kind), r)
    {
      var targets := EnumerationTargets(names);
      var arguments := Arguments(domain, kind);
      var results := Record(targets, ToolName(kind), arguments, replies);
      r := Consolidation.ConsolidateResults(results, domain, KindName(kind));
    }

    /** The loop of the entry points: call the tool on each target in turn and record its response under its name. */
    method Record(targets: seq<string>, tool: string, arguments: OMap<Value>, replies: string -> Reply)
      returns (results: OMap<Value>)
      ensures results == Recorded(targets, tool, arguments, replies)
    {
      results := Empty<Value>();
      var i := 0;
      while i < |targets|
        invariant 0 <= i <= |targets|
        invariant results == Recorded(targets[..i], tool, arguments, replies)
      {
        RecordedStep(targets, i, tool, arguments, replies);
        var exchange := CallTool(targets[i], tool, arguments, replies(targets[i]));
        results := results.Put(targets[i], exchange.response);
        i := i + 1;
      }
      assert targets[..i] == targets;
    }

    /** One turn of the entry points' loop. */
    lemma RecordedStep(targets: seq<string>, i: nat, tool: string, arguments: OMap<Value>, replies: string -> Reply)
      requires i < |targets|
      ensures Recorded(targets[..i + 1], tool, arguments, replies)
        == Recorded(targets[..i], tool, arguments, replies)
             .Put(targets[i], CallTool(targets[i], tool, arguments, replies(targets[i])).response)
    {
      assert targets[..i + 1][..i] == targets[..i];
    }

    /** `get_server_status`: one status per configured server, in table order. */
    method GetServerStatus() returns (r: OMap<string>)
      requires Valid()
      ensures r.Valid() && r.keys == servers.keys
      ensures forall k :: k in servers.values ==> k in r.values && r.values[k] == StatusOf(servers.values[k])
    {
      r := Empty();
      var i := 0;
      while i < |servers.keys|
        invariant 0 <= i <= |servers.keys|
        invariant r.Valid() && r.keys == servers.keys[..i]
        invariant forall k :: k in servers.keys[..i] ==> k in r.values && r.values[k] == StatusOf(servers.values[k])
      {
        var name := servers.keys[i];
        assert servers.keys[..i + 1] == servers.keys[..i] + [name];
        assert name !in servers.keys[..i];
        r := r.Put(name, StatusOf(servers.values[name]));
        i := i + 1;
      }
      assert servers.keys[..i] == servers.keys;
    }
  }

  /**
   * A target that is unknown, disabled, or has no running process with a
   * stdin pipe always lands among the failed servers of the consolidated answer.
   */
  lemma UnreachableTargetFails(
    c: Client, targets: seq<string>, tool: string, arguments: OMap<Value>, replies: string -> Reply, n: string)
    requires n in targets
    requires c.CallTool(n, tool, arguments, replies(n)).request.None?
    ensures var results := c.Recorded(targets, tool, arguments, replies);
      n in Consolidation.FailedIn(results.keys, results.values)
  {
    var results := c.Recorded(targets, tool, arguments, replies);
    Consolidation.Partition(results.keys, results.values);
  }

}
