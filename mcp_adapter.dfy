/**
 * The adapter layer: an Amass client object whose status moves between
 * stopped, running and error as it is connected and disconnected, the mapping
 * of one JSON-RPC response line to an `MCPResponse`, and a manager that keeps
 * one configuration and one client per registered server name.
 *
 * Starting, polling and terminating the server process are effects; their
 * outcomes are inputs (`PopenOutcome`, `DisconnectOutcome`, `Reply`).
 */
module McpAdapter {
  import opened Common
  import opened OrderedMaps
  import opened Json
  import Text

  /** `MCPServerStatus`. */
  datatype Status = Stopped | Running | Error | Unknown

  /** `MCPServerConfig` of the adapter layer. */
  datatype ServerConfig = ServerConfig(
    name: string,
    command: seq<string>,
    workingDirectory: Option<string>,
    environment: Option<OMap<string>>,
    timeout: int,
    autoRestart: bool)

  /** `MCPResponse`; a Python `None` in `data` or `error` is `Null`. */
  datatype Response = Response(success: bool, data: Value, error: Value, serverName: Option<string>)

  /** What `subprocess.Popen` did: raised, or started a process that was or was not still alive after the start-up sleep. */
  datatype PopenOutcome = PopenRaised | Popened(alive: bool)

  /** What `disconnect` met: it got through terminating (or killing) the process, or an exception escaped. */
  datatype DisconnectOutcome = Disconnected | DisconnectRaised

  /** A request written to the server and what the call returned. */
  datatype Call<T> = Call(request: Option<Value>, result: T)

  /** The JSON-RPC request of a call; the id is always 1. */
  function Request(rpcMethod: string, params: Option<Value>): (r: Value)
    ensures r.Obj? && "id" in r.fields.values && r.fields.values["id"] == Num(1)
    ensures "method" in r.fields.values && r.fields.values["method"] == Str(rpcMethod)
  {
    var base := Empty<Value>().Put("jsonrpc", Str("2.0")).Put("id", Num(1)).Put("method", Str(rpcMethod));
    if params.Some? then Obj(base.Put("params", params.value)) else Obj(base)
  }

  /** `{"name": tool, "arguments": arguments}`. */
  function CallParams(tool: string, arguments: OMap<Value>): Value {
    Obj(Empty<Value>().Put("name", Str(tool)).Put("arguments", Obj(arguments)))
  }

  /** The `error` of a response whose Python handling raised, carrying the exception's message. */
  function Failure(message: string, name: string): Response {
    Response(false, Null, Str(message), Some(name))
  }

  /**
   * A decoded response line as `call_tool` maps it: a dict with "error" fails
   * with the error's "message" (default "Unknown error"); any other dict
   * succeeds with its "result" (or `None`); every other value makes the
   * membership test, the subscript or the `.get` raise, and the message of
   * that exception becomes the error.
   */
  function MapResponse(v: Value, name: string): (r: Response)
    ensures r.serverName == Some(name)
    ensures r.success <==> v.Obj? && "error" !in v.fields.values
    ensures r.success ==> r.data == GetOr(v.fields, "result", Null) && r.error == Null
    ensures !r.success ==> r.data == Null
    ensures v.Obj? && "error" in v.fields.values && v.fields.values["error"].Obj? ==>
      r.error == GetOr(v.fields.values["error"].fields, "message", Str("Unknown error"))
    ensures v.Obj? && "error" in v.fields.values && !v.fields.values["error"].Obj? ==>
      r.error == Str(NoGetMessage(v.fields.values["error"]))
    ensures v.Arr? ==>
      r.error == Str(if Str("error") in v.items then "list indices must be integers or slices, not str" else NoGetMessage(v))
    ensures v.Str? ==>
      r.error == Str(if Text.Contains(v.s, "error") then "string indices must be integers, not 'str'" else NoGetMessage(v))
    ensures !v.Obj? && !v.Arr? && !v.Str? ==> r.error == Str("argument of type '" + TypeName(v) + "' is not iterable")
  {
    match v
    case Obj(fields) =>
      if "error" in fields.values then
        var e := fields.values["error"];
        if e.Obj? then Response(false, Null, GetOr(e.fields, "message", Str("Unknown error")), Some(name))
        else Failure(NoGetMessage(e), name)
      else Response(true, GetOr(fields, "result", Null), Null, Some(name))
    case Arr(items) =>
      if Str("error") in items then Failure("list indices must be integers or slices, not str", name)
      else Failure(NoGetMessage(v), name)
    case Str(s) =>
      if Text.Contains(s, "error") then Failure("string indices must be integers, not 'str'", name)
      else Failure(NoGetMessage(v), name)
    case _ => Failure("argument of type '" + TypeName(v) + "' is not iterable", name)
  }

  /** The response of a call to a running server, from what reading the reply gave. */
  function ReplyResponse(reply: Reply, name: string): (r: Response)
    ensures r.serverName == Some(name)
    ensures reply.NoLine? ==> r == Failure("No response from MCP server", name)
    ensures reply.Raised? ==> r == Failure(reply.message, name)
    ensures reply.Line? ==> r == MapResponse(reply.response, name)
  {
    match reply
    case NoLine => Failure("No response from MCP server", name)
    case Raised(m) => Failure(m, name)
    case Line(v) => MapResponse(v, name)
  }

  /** `response.get("result", {}).get("tools", [])`, or `[]` when a `.get` raises or nothing came back. */
  function ToolsOf(reply: Reply): (r: Value)
    ensures !reply.Line? || !reply.response.Obj? ==> r == Arr([])
    ensures reply.Line? && reply.response.Obj? ==>
      var result := GetOr(reply.response.fields, "result", Obj(Empty()));
      r == if result.Obj? then GetOr(result.fields, "tools", Arr([])) else Arr([])
  {
    if reply.Line? && reply.response.Obj? then
      var result := GetOr(reply.response.fields, "result", Obj(Empty()));
      if result.Obj? then GetOr(result.fields, "tools", Arr([])) else Arr([])
    else Arr([])
  }

  /** Whether `disconnect` returns True: always without a process, otherwise unless ending it raised. */
  predicate Disconnects(hasProcess: bool, outcome: DisconnectOutcome) {
    !hasProcess || outcome.Disconnected?
  }

  /** `AmasseMCPClient`: one server configuration, its status and whether a process was ever spawned. */
  class AmassClient {
    const config: ServerConfig
    var status: Status
    var hasProcess: bool

    /** A fresh client is stopped and has no process. */
    constructor(config: ServerConfig)
      ensures this.config == config && status == Stopped && !hasProcess
    {
      this.config := config;
      status := Stopped;
      hasProcess := false;
    }

    /**
     * `connect`: running and true exactly when the spawned process is still
     * alive after the start-up sleep; error and false otherwise, also when
     * spawning raised.
     */
    method Connect(spawn: PopenOutcome) returns (ok: bool)
      modifies this
      ensures ok <==> spawn == Popened(true)
      ensures status == if ok then Running else Error
      ensures hasProcess == (old(hasProcess) || spawn.Popened?)
    {
      match spawn
      case PopenRaised =>
        status := Error;
        ok := false;
      case Popened(alive) =>
        hasProcess := true;
        if alive {
          status := Running;
          ok := true;
        } else {
          status := Error;
          ok := false;
        }
    }

    /**
     * `disconnect`: stopped and true whether or not a process ever ran; only an
     * exception while ending a spawned process gives false, and then the
     * status is left as it was. Without a process nothing can raise.
     */
    method Disconnect(outcome: DisconnectOutcome) returns (ok: bool)
      modifies this
      ensures ok <==> Disconnects(old(hasProcess), outcome)
      ensures !old(hasProcess) ==> ok && status == Stopped
      ensures status == if ok then Stopped else old(status)
      ensures hasProcess == old(hasProcess)
    {
      if hasProcess && outcome.DisconnectRaised? {
        return false;
      }
      status := Stopped;
      ok := true;
    }

    /**
     * `call_tool`: a client that is not running answers "MCP server is not
     * running" without writing anything; otherwise the request goes out and
     * the reply is mapped. The server name is always the configured one.
     */
    function CallTool(tool: string, arguments: OMap<Value>, reply: Reply): (r: Call<Response>)
      reads this
      ensures r.result.serverName == Some(config.name)
      ensures r.request.Some? <==> status == Running
      ensures status != Running ==> r.result == Failure("MCP server is not running", config.name)
      ensures status == Running ==>
        r.request == Some(Request("tools/call", Some(CallParams(tool, arguments))))
        && r.result == ReplyResponse(reply, config.name)
    {
      if status != Running then Call(None, Failure("MCP server is not running", config.name))
      else Call(Some(Request("tools/call", Some(CallParams(tool, arguments)))), ReplyResponse(reply, config.name))
    }

    /** `list_tools`: `[]` unless running; then the "tools" of the reply's "result". */
    function ListTools(reply: Reply): (r: Call<Value>)
      reads this
      ensures r.request.Some? <==> status == Running
      ensures status != Running ==> r.result == Arr([])
      ensures status == Running ==> r.request == Some(Request("tools/list", None)) && r.result == ToolsOf(reply)
    {
      if status != Running then Call(None, Arr([]))
      else Call(Some(Request("tools/list", None)), ToolsOf(reply))
    }
  }

  /** The status `connect_all` leaves a client in. */
  function ConnectedStatus(spawn: PopenOutcome): Status {
    if spawn == Popened(true) then Running else Error
  }

  /** `MCPManager`: configurations and clients registered under server names. */
  class Manager {
    var configs: OMap<ServerConfig>
    var clients: OMap<AmassClient>
    /** The client objects the manager owns. */
    ghost var Repr: set<AmassClient>

    /**
     * `configs` and `clients` have the same keys in the same order, each client
     * carries the configuration registered under its name, and no client object
     * is shared between two names.
     */
    ghost predicate Valid()
      reads this
    {
      && configs.Valid() && clients.Valid() && configs.keys == clients.keys
      && Repr == clients.values.Values
      && (forall n :: n in clients.values ==>
            n in configs.values && clients.values[n].config == configs.values[n])
      && (forall m, n :: m in clients.values && n in clients.values && m != n ==>
            clients.values[m] != clients.values[n])
    }

    /** An empty manager. */
    constructor()
      ensures Valid() && configs.keys == [] && clients.keys == []
    {
      configs := Empty();
      clients := Empty();
      Repr := {};
    }

    /**
     * `register_server`: last write wins. The configuration is stored under
     * its name and a fresh stopped client replaces any earlier one; every
     * other name keeps its configuration and its client.
     */
    method Register(config: ServerConfig)
      requires Valid()
      modifies this
      ensures Valid()
      ensures configs == old(configs).Put(config.name, config)
      ensures clients.keys == configs.keys
      ensures config.name in clients.values && fresh(clients.values[config.name])
      ensures clients.values[config.name].status == Stopped && clients.values[config.name].config == config
      ensures forall n :: n in old(clients.values) && n != config.name ==>
        n in clients.values && clients.values[n] == old(clients.values[n])
    {
      var client := new AmassClient(config);
      configs := configs.Put(config.name, config);
      clients := clients.Put(config.name, client);
      Repr := clients.values.Values;
    }

    /** `get_server_status`: the client's status, or unknown for an unregistered name. */
    function GetServerStatus(name: string): (r: Status)
      requires Valid()
      reads this, Repr
      ensures name !in clients.values ==> r == Unknown
      ensures name in clients.values ==> r == clients.values[name].status
    {
      if name in clients.values then clients.values[name].status else Unknown
    }

    /** `get_all_statuses`: exactly the registered names, in order, each with its client's status. */
    function GetAllStatuses(): (r: OMap<Status>)
      requires Valid()
      reads this, Repr
      ensures r.Valid() && r.keys == clients.keys
      ensures forall n :: n in r.values ==> n in clients.values && r.values[n] == clients.values[n].status
    {
      Tabulate(clients.keys, map n | n in clients.values :: clients.values[n].status)
    }

    /** `connect_server`: false for an unregistered name; otherwise that client connects and nothing else changes. */
    method ConnectServer(name: string, spawn: PopenOutcome) returns (ok: bool)
      requires Valid()
      modifies Repr
      ensures Valid()
      ensures name !in clients.values ==> !ok
      ensures name in clients.values ==>
        (ok <==> spawn == Popened(true)) && clients.values[name].status == ConnectedStatus(spawn)
      ensures forall n :: n in clients.values && n != name ==>
        clients.values[n].status == old(clients.values[n].status)
    {
      if name !in clients.values {
        return false;
      }
      ok := clients.values[name].Connect(spawn);
    }

    /** `disconnect_server`: false for an unregistered name; otherwise that client disconnects and nothing else changes. */
    method DisconnectServer(name: string, outcome: DisconnectOutcome) returns (ok: bool)
      requires Valid()
      modifies Repr
      ensures Valid()
      ensures name !in clients.values ==> !ok
      ensures name in clients.values ==>
        (ok <==> Disconnects(clients.values[name].hasProcess, outcome))
        && clients.values[name].status == if ok then Stopped else old(clients.values[name].status)
      ensures forall n :: n in clients.values && n != name ==>
        clients.values[n].status == old(clients.values[n].status)
      ensures forall n :: n in clients.values ==> clients.values[n].hasProcess == old(clients.values[n].hasProcess)
    {
      if name !in clients.values {
        return false;
      }
      ok := clients.values[name].Disconnect(outcome);
    }

    /** `connect_all`: one outcome per registered name, in registration order, each client connected once. */
    method ConnectAll(spawn: string -> PopenOutcome) returns (r: OMap<bool>)
      requires Valid()
      modifies Repr
      ensures Valid() && r.Valid() && r.keys == clients.keys
      ensures forall n :: n in clients.values ==>
        && n in r.values && (r.values[n] <==> spawn(n) == Popened(true))
        && clients.values[n].status == ConnectedStatus(spawn(n))
    {
      var names := clients.keys;
      r := Empty();
      var i := 0;
      while i < |names|
        invariant 0 <= i <= |names|
        invariant Valid() && clients.keys == names && r.Valid() && r.keys == names[..i]
        invariant forall n :: n in names[..i] ==>
          && n in clients.values && n in r.values && (r.values[n] <==> spawn(n) == Popened(true))
          && clients.values[n].status == ConnectedStatus(spawn(n))
      {
        r := ConnectNext(i, r, spawn);
        i := i + 1;
      }
      assert names[..i] == names;
    }

    /** One turn of `connect_all`: connect the `i`-th registered client and record the outcome. */
    method ConnectNext(i: nat, r: OMap<bool>, spawn: string -> PopenOutcome) returns (r': OMap<bool>)
      requires Valid() && i < |clients.keys| && r.Valid() && r.keys == clients.keys[..i]
      requires forall n :: n in clients.keys[..i] ==>
        && n in clients.values && n in r.values && (r.values[n] <==> spawn(n) == Popened(true))
        && clients.values[n].status == ConnectedStatus(spawn(n))
      modifies Repr
      ensures Valid() && clients.keys == old(clients.keys) && r'.Valid() && r'.keys == clients.keys[..i + 1]
      ensures forall n :: n in clients.keys[..i + 1] ==>
        && n in clients.values && n in r'.values && (r'.values[n] <==> spawn(n) == Popened(true))
        && clients.values[n].status == ConnectedStatus(spawn(n))
    {
      var names := clients.keys;
      var name := names[i];
      assert names[..i + 1] == names[..i] + [name];
      assert name !in names[..i];
      var ok := ConnectServer(name, spawn(name));
      r' := r.Put(name, ok);
      forall n | n in names[..i + 1]
        ensures && n in clients.values && n in r'.values && (r'.values[n] <==> spawn(n) == Popened(true))
                && clients.values[n].status == ConnectedStatus(spawn(n))
      {
        if n != name {
          assert n in names[..i];
        }
      }
    }

    /** `disconnect_all`: one outcome per registered name, in registration order, each client disconnected once. */
    method DisconnectAll(outcome: string -> DisconnectOutcome) returns (r: OMap<bool>)
      requires Valid()
      modifies Repr
      ensures Valid() && r.Valid() && r.keys == clients.keys
      ensures forall n :: n in clients.values ==>
        && n in r.values && (r.values[n] <==> Disconnects(clients.values[n].hasProcess, outcome(n)))
        && clients.values[n].status == if Disconnects(clients.values[n].hasProcess, outcome(n)) then Stopped else old(clients.values[n].status)
      ensures forall n :: n in clients.values ==> clients.values[n].hasProcess == old(clients.values[n].hasProcess)
    {
      var names := clients.keys;
      ghost var before := map n | n in clients.values :: clients.values[n].status;
      r := Empty();
      var i := 0;
      while i < |names|
        invariant 0 <= i <= |names|
        invariant Valid() && clients.keys == names && r.Valid() && r.keys == names[..i]
        invariant forall n :: n in clients.values ==> n in before
        invariant forall n :: n in names[..i] ==>
          && n in clients.values && n in r.values && (r.values[n] <==> Disconnects(clients.values[n].hasProcess, outcome(n)))
          && clients.values[n].status == if Disconnects(clients.values[n].hasProcess, outcome(n)) then Stopped else before[n]
        invariant forall n :: n in clients.values && n !in names[..i] ==> clients.values[n].status == before[n]
        invariant forall n :: n in clients.values ==> clients.values[n].hasProcess == old(clients.values[n].hasProcess)
      {
        r := DisconnectNext(i, before, r, outcome);
        i := i + 1;
      }
      assert names[..i] == names;
    }

    /** One turn of `disconnect_all`: disconnect the `i`-th registered client and record the outcome. */
    method DisconnectNext(i: nat, ghost before: map<string, Status>, r: OMap<bool>, outcome: string -> DisconnectOutcome)
      returns (r': OMap<bool>)
      requires Valid() && i < |clients.keys| && r.Valid() && r.keys == clients.keys[..i]
      requires forall n :: n in clients.values ==> n in before
      requires forall n :: n in clients.keys[..i] ==>
        && n in clients.values && n in r.values && (r.values[n] <==> Disconnects(clients.values[n].hasProcess, outcome(n)))
        && clients.values[n].status == if Disconnects(clients.values[n].hasProcess, outcome(n)) then Stopped else before[n]
      requires forall n :: n in clients.values && n !in clients.keys[..i] ==> clients.values[n].status == before[n]
      modifies Repr
      ensures Valid() && clients.keys == old(clients.keys) && r'.Valid() && r'.keys == clients.keys[..i + 1]
      ensures forall n :: n in clients.keys[..i + 1] ==>
        && n in clients.values && n in r'.values && (r'.values[n] <==> Disconnects(clients.values[n].hasProcess, outcome(n)))
        && clients.values[n].status == if Disconnects(clients.values[n].hasProcess, outcome(n)) then Stopped else before[n]
      ensures forall n :: n in clients.values && n !in clients.keys[..i + 1] ==> clients.values[n].status == before[n]
      ensures forall n :: n in clients.values ==> clients.values[n].hasProcess == old(clients.values[n].hasProcess)
    {
      var names := clients.keys;
      var name := names[i];
      assert names[..i + 1] == names[..i] + [name];
      assert name !in names[..i];
      var ok := DisconnectServer(name, outcome(name));
      r' := r.Put(name, ok);
      forall n | n in names[..i + 1]
        ensures && n in clients.values && n in r'.values && (r'.values[n] <==> Disconnects(clients.values[n].hasProcess, outcome(n)))
                && clients.values[n].status == if Disconnects(clients.values[n].hasProcess, outcome(n)) then Stopped else before[n]
      {
        if n != name {
          assert n in names[..i];
        }
      }
    }

    /** `call_tool`: "Server <n> not registered", with no server name, for an unregistered name; otherwise that client's answer. */
    function CallTool(name: string, tool: string, arguments: OMap<Value>, reply: Reply): (r: Call<Response>)
      reads this, Repr
      requires Valid()
      ensures name !in clients.values ==>
        r == Call(None, Response(false, Null, Str("Server " + name + " not registered"), None))
      ensures name in clients.values ==> r == clients.values[name].CallTool(tool, arguments, reply)
    {
      if name !in clients.values then Call(None, Response(false, Null, Str("Server " + name + " not registered"), None))
      else clients.values[name].CallTool(tool, arguments, reply)
    }

    /** `list_tools`: `[]` for an unregistered name; otherwise that client's answer. */
    function ListTools(name: string, reply: Reply): (r: Call<Value>)
      reads this, Repr
      requires Valid()
      ensures name !in clients.values ==> r == Call(None, Arr([]))
      ensures name in clients.values ==> r == clients.values[name].ListTools(reply)
    {
      if name !in clients.values then Call(None, Arr([]))
      else clients.values[name].ListTools(reply)
    }
  }

  /**
   * `create_amass_config`: the server module run by the given interpreter,
   * `AMASS_CONFIG` in the environment exactly when a non-empty configuration
   * file is given, a 30-second timeout and automatic restart. The Amass binary
   * path parameter is accepted and unused.
   */
  function CreateAmassConfig(
    name: string, pythonExecutable: string, amassBinaryPath: string,
    configFile: Option<string>, workingDirectory: Option<string>): (r: ServerConfig)
    ensures r.name == name && r.workingDirectory == workingDirectory
    ensures r.command == [pythonExecutable, "-m", "mcp.amass_mcp_server"]
    ensures r.environment.Some? && r.environment.value.Valid()
    ensures ("AMASS_CONFIG" in r.environment.value.values) <==> configFile.Some? && configFile.value != ""
    ensures "AMASS_CONFIG" in r.environment.value.values ==> r.environment.value.values["AMASS_CONFIG"] == configFile.value
    ensures r.environment.value.keys == if configFile.Some? && configFile.value != "" then ["AMASS_CONFIG"] else []
    ensures r.timeout == 30 && r.autoRestart
  {
    var environment := if configFile.Some? && configFile.value != "" then Empty<string>().Put("AMASS_CONFIG", configFile.value)
                       else Empty();
    ServerConfig(name, [pythonExecutable, "-m", "mcp.amass_mcp_server"], workingDirectory, Some(environment), 30, true)
  }
}
