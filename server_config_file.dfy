/**
 * `load_mcp_server_config` of src/config.py: find the entry for one server in
 * the parsed `mcp_servers.yaml` document and validate it. The document is an
 * input: `None` when the file does not exist, otherwise what the YAML loader
 * returned.
 */
module ServerConfigFile {
  import opened Common
  import opened OrderedMaps
  import opened Json

  /** `MCPServerConfig` of src/tools/base_mcp.py; fields keep whatever values the document held. */
  datatype McpServerConfig = McpServerConfig(command: Value, args: seq<Value>, env: Value, name: string)

  /** `MCPToolError` with its message, or another exception the lookup lets escape. */
  datatype LoadError = ToolError(message: string) | Crash(message: string)

  const DefaultServersFile := "mcp/mcp_servers.yaml"

  function MissingFileMessage(path: string): string {
    "MCP servers config file not found at '" + path + "'. Please create it as per the README."
  }

  function InvalidEntryMessage(name: string): string {
    "Invalid MCP server entry for '" + name + "'. 'command' and list 'args' are required."
  }

  function NotFoundMessage(name: string, path: string): string {
    "MCP server configuration for '" + name + "' not found in " + path + "."
  }

  /** `s.get("name") == name`, for an entry already known to be a dict. */
  predicate Names(s: Value, name: string)
    requires s.Obj?
  {
    GetOr(s.fields, "name", Null) == Str(name)
  }

  /**
   * Validation of the matching entry: falsy `args` becomes `[]`, falsy `env`
   * becomes `None`, and a falsy `command` or non-list `args` is rejected.
   */
  function Validate(s: Value, name: string): (r: Result<McpServerConfig, LoadError>)
    requires s.Obj?
    ensures r.Err? <==> !Truthy(GetOr(s.fields, "command", Null))
                        || (Truthy(GetOr(s.fields, "args", Null)) && !GetOr(s.fields, "args", Null).Arr?)
    ensures r.Err? ==> r.error == ToolError(InvalidEntryMessage(name))
    ensures r.Ok? ==> r.value.name == name && r.value.command == GetOr(s.fields, "command", Null)
    ensures r.Ok? ==> Truthy(r.value.env) || r.value.env == Null
    ensures r.Ok? ==> r.value.args == (if Truthy(GetOr(s.fields, "args", Null)) then GetOr(s.fields, "args", Null).items else [])
    ensures r.Ok? ==> r.value.env == (if Truthy(GetOr(s.fields, "env", Null)) then GetOr(s.fields, "env", Null) else Null)
  {
    var command := GetOr(s.fields, "command", Null);
    var rawArgs := GetOr(s.fields, "args", Null);
    var args := if Truthy(rawArgs) then rawArgs else Arr([]);
    var rawEnv := GetOr(s.fields, "env", Null);
    var env := if Truthy(rawEnv) then rawEnv else Null;
    if !Truthy(command) || !args.Arr? then Err(ToolError(InvalidEntryMessage(name)))
    else Ok(McpServerConfig(command, args.items, env, name))
  }

  /** An entry that fails validation is never reported as missing. */
  lemma MessagesDiffer(name: string, path: string)
    ensures InvalidEntryMessage(name) != NotFoundMessage(name, path)
  {
    assert InvalidEntryMessage(name)[..14] == "Invalid MCP se";
    assert NotFoundMessage(name, path)[..14] == "MCP server con";
  }

  /** The `for s in servers` loop: the first entry named `name` decides; a non-dict met first raises. */
  function Search(items: seq<Value>, name: string, path: string): (r: Result<McpServerConfig, LoadError>)
    ensures r.Ok? ==> r.value.name == name
    ensures r == Err(ToolError(NotFoundMessage(name, path))) <==>
      forall i :: 0 <= i < |items| ==> items[i].Obj? && !Names(items[i], name)
    ensures r.Ok? ==> Truthy(r.value.command)
  {
    if items == [] then Err(ToolError(NotFoundMessage(name, path)))
    else if !items[0].Obj? then Err(Crash(NoGetMessage(items[0])))
    else if Names(items[0], name) then
      MessagesDiffer(name, path);
      Validate(items[0], name)
    else
      var rest := Search(items[1..], name, path);
      assert forall i :: 1 <= i < |items| ==> items[i] == items[1..][i - 1];
      rest
  }

  /** `load_mcp_server_config(name, path)` over the document `file`. */
  function LoadMcpServerConfig(name: string, path: string, file: Option<Value>): (r: Result<McpServerConfig, LoadError>)
    ensures file.None? ==> r == Err(ToolError(MissingFileMessage(path)))
    ensures r.Ok? ==> r.value.name == name && Truthy(r.value.command)
    ensures file.Some? && Truthy(file.value) && !file.value.Obj? ==> r.Err? && r.error.Crash?
    ensures file.Some? && file.value.Obj? && Iterate(GetOr(file.value.fields, "servers", Arr([]))).Some? ==>
      r == Search(Iterate(GetOr(file.value.fields, "servers", Arr([]))).value, name, path)
  {
    match file
    case None => Err(ToolError(MissingFileMessage(path)))
    case Some(doc) =>
      var data := if Truthy(doc) then doc else Obj(Empty());
      if !data.Obj? then Err(Crash(NoGetMessage(data)))
      else
        var servers := GetOr(data.fields, "servers", Arr([]));
        match Iterate(servers)
        case None => Err(Crash(NotIterableMessage(servers)))
        case Some(items) => Search(items, name, path)
  }

  /** Where the search stops: at a non-dict entry or at the entry named `name`. */
  predicate Stops(s: Value, name: string) {
    !s.Obj? || Names(s, name)
  }

  /**
   * The first entry that stops the search decides its outcome: the first entry
   * named `name` is validated (and a failure there is not retried on later
   * entries); a non-dict met before it raises.
   */
  lemma {:induction false} FirstMatchWins(items: seq<Value>, k: nat, name: string, path: string)
    requires k < |items| && Stops(items[k], name)
    requires forall i :: 0 <= i < k ==> !Stops(items[i], name)
    ensures Search(items, name, path) ==
      if !items[k].Obj? then Err(Crash(NoGetMessage(items[k]))) else Validate(items[k], name)
    decreases k
  {
    if k > 0 {
      assert forall i :: 0 <= i < k - 1 ==> items[1..][i] == items[i + 1];
      FirstMatchWins(items[1..], k - 1, name, path);
    }
  }

  /** The first stopping entry at or after `i`, given that entry `j` stops. */
  function FirstStop(items: seq<Value>, name: string, i: nat, j: nat): (k: nat)
    requires i <= j < |items| && Stops(items[j], name)
    ensures i <= k <= j && Stops(items[k], name)
    ensures forall m :: i <= m < k ==> !Stops(items[m], name)
    decreases j - i
  {
    if Stops(items[i], name) then i else FirstStop(items, name, i + 1, j)
  }

  /** Once the search stops inside `items`, appending entries (a later duplicate, say) changes nothing. */
  lemma {:induction false} LaterEntriesIgnored(items: seq<Value>, extra: seq<Value>, name: string, path: string)
    requires Search(items, name, path) != Err(ToolError(NotFoundMessage(name, path)))
    ensures Search(items + extra, name, path) == Search(items, name, path)
  {
    var j :| 0 <= j < |items| && Stops(items[j], name);
    var k := FirstStop(items, name, 0, j);
    var all := items + extra;
    assert forall i :: 0 <= i <= k ==> all[i] == items[i];
    FirstMatchWins(items, k, name, path);
    FirstMatchWins(all, k, name, path);
  }

  /** An empty document, and a document without `"servers"`, both report the server as not found. */
  lemma EmptyDocumentNotFound(name: string, path: string, doc: Value)
    requires !Truthy(doc) || (doc.Obj? && "servers" !in doc.fields.values)
    ensures LoadMcpServerConfig(name, path, Some(doc)) == Err(ToolError(NotFoundMessage(name, path)))
  {
  }
}
