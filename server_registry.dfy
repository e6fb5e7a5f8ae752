/**
 * `MCPConfigManager` of mcp/config.py: a table of MCP server configurations
 * keyed by server name, seeded with the Amass stdio server, and the stdio
 * launch parameters derived from an entry.
 */
module ServerRegistry {
  import opened Common
  import opened OrderedMaps

  /** `MCPServerConfig` of mcp/config.py. */
  datatype ServerConfig = ServerConfig(
    name: string,
    serverType: string,
    command: string,
    args: seq<string>,
    env: Option<OMap<string>>,
    description: string,
    enabled: bool)

  /** `StdioServerParameters`: what the SDK needs to launch a stdio server. */
  datatype StdioParameters = StdioParameters(command: string, args: seq<string>, env: OMap<string>)

  /** The launch parameters of a configuration: its command and arguments, and `env or {}`. */
  function Parameters(c: ServerConfig): (p: StdioParameters)
    ensures p.command == c.command && p.args == c.args
    ensures c.env.Some? ==> p.env == c.env.value
    ensures c.env.None? ==> p.env.keys == [] && p.env.values == map[]
  {
    StdioParameters(c.command, c.args, if c.env.Some? then c.env.value else Empty())
  }

  const AmassServerName := "amass-mcp"

  /**
   * The configuration registered at construction; `environ` is the process
   * environment copied into it, and the script path is joined with `/`.
   */
  function DefaultConfig(environ: OMap<string>): (c: ServerConfig)
    ensures c.name == AmassServerName && c.serverType == "stdio" && c.command == "python" && c.enabled
    ensures c.args == ["mcp/servers/amass_mcp_server.py"] && c.env == Some(environ)
  {
    ServerConfig(AmassServerName, "stdio", "python", ["mcp/servers/amass_mcp_server.py"],
      Some(environ), "Amass subdomain enumeration MCP server", true)
  }

  /** The configurations under `keys`, in that order, keeping the enabled ones. */
  function EnabledIn(keys: seq<string>, values: map<string, ServerConfig>): (r: seq<ServerConfig>)
    requires forall i :: 0 <= i < |keys| ==> keys[i] in values
    ensures |r| <= |keys|
  {
    if keys == [] then []
    else
      var n := |keys| - 1;
      var init := EnabledIn(keys[..n], values);
      var c := values[keys[n]];
      init + if c.enabled then [c] else []
  }

  /** Exactly the enabled configurations stored under one of `keys` are kept. */
  lemma {:induction false} EnabledInMembership(keys: seq<string>, values: map<string, ServerConfig>, c: ServerConfig)
    requires forall i :: 0 <= i < |keys| ==> keys[i] in values
    ensures c in EnabledIn(keys, values) <==> exists i :: 0 <= i < |keys| && values[keys[i]] == c && c.enabled
    decreases |keys|
  {
    if keys != [] {
      var n := |keys| - 1;
      EnabledInMembership(keys[..n], values, c);
      assert forall i :: 0 <= i < n ==> keys[..n][i] == keys[i];
      if exists i :: 0 <= i < |keys| && values[keys[i]] == c && c.enabled {
        var i :| 0 <= i < |keys| && values[keys[i]] == c && c.enabled;
        if i < n {
          assert keys[..n][i] == keys[i];
        }
      }
    }
  }

  /** Filtering commutes with concatenation, so the enabled entries keep their relative order. */
  lemma {:induction false} EnabledInAppend(a: seq<string>, b: seq<string>, values: map<string, ServerConfig>)
    requires forall i :: 0 <= i < |a| ==> a[i] in values
    requires forall i :: 0 <= i < |b| ==> b[i] in values
    ensures EnabledIn(a + b, values) == EnabledIn(a, values) + EnabledIn(b, values)
    decreases |b|
  {
    if b == [] {
      assert a + b == a;
    } else {
      var n := |b| - 1;
      var ab := a + b;
      assert ab[..|ab| - 1] == a + b[..n];
      assert ab[|ab| - 1] == b[n];
      EnabledInAppend(a, b[..n], values);
      assert b[..n] == b[..|b| - 1];
      var c := values[b[n]];
      calc {
        EnabledIn(ab, values);
        EnabledIn(a + b[..n], values) + (if c.enabled then [c] else []);
        EnabledIn(a, values) + EnabledIn(b[..n], values) + (if c.enabled then [c] else []);
        EnabledIn(a, values) + EnabledIn(b, values);
      }
    }
  }

  /** `MCPConfigManager`. */
  class ConfigManager {
    var servers: OMap<ServerConfig>

    /** Every configuration is stored under its own name. */
    ghost predicate Valid()
      reads this
    {
      servers.Valid() && forall n :: n in servers.values ==> servers.values[n].name == n
    }

    /** `__init__`: an empty table, then the Amass default configuration. */
    constructor(environ: OMap<string>)
      ensures Valid()
      ensures servers.keys == [AmassServerName]
      ensures servers.values[AmassServerName] == DefaultConfig(environ)
    {
      servers := Empty();
      new;
      AddServerConfig(DefaultConfig(environ));
    }

    /** `add_server_config`: stores `config` under its name, replacing any earlier entry in place. */
    method AddServerConfig(config: ServerConfig)
      requires Valid()
      modifies this
      ensures Valid()
      ensures GetServerConfig(config.name) == Some(config)
      ensures forall n :: n != config.name ==> GetServerConfig(n) == old(GetServerConfig(n))
      ensures servers.keys == if config.name in old(servers.values) then old(servers.keys) else old(servers.keys) + [config.name]
    {
      servers := servers.Put(config.name, config);
    }

    /** `get_server_config`: `None` for an unregistered name. */
    function GetServerConfig(name: string): (r: Option<ServerConfig>)
      reads this
      ensures r.None? <==> name !in servers.values
      ensures r.Some? ==> r.value == servers.values[name]
    {
      servers.Get(name)
    }

    /** `get_enabled_servers`. */
    function GetEnabledServers(): (r: seq<ServerConfig>)
      requires Valid()
      reads this
      ensures forall c :: c in r <==> c.name in servers.values && servers.values[c.name] == c && c.enabled
    {
      assert forall c :: c in EnabledIn(servers.keys, servers.values) <==> c.name in servers.values && servers.values[c.name] == c && c.enabled
      by {
        forall c ensures c in EnabledIn(servers.keys, servers.values) <==> c.name in servers.values && servers.values[c.name] == c && c.enabled {
          EnabledInMembership(servers.keys, servers.values, c);
          if c.name in servers.values && servers.values[c.name] == c && c.enabled {
            var i :| 0 <= i < |servers.keys| && servers.keys[i] == c.name;
          }
        }
      }
      EnabledIn(servers.keys, servers.values)
    }

    /**
     * `create_stdio_parameters`: `None` for an unknown name or a non-stdio
     * server (enabled or not); otherwise the command and arguments of the
     * entry, with a missing environment replaced by an empty one.
     */
    function CreateStdioParameters(name: string): (r: Option<StdioParameters>)
      requires Valid()
      reads this
      ensures r.None? <==> name !in servers.values || servers.values[name].serverType != "stdio"
      ensures r.Some? ==> r.value == Parameters(servers.values[name])
    {
      match GetServerConfig(name)
      case None => None
      case Some(c) =>
        if c.serverType != "stdio" then None
        else Some(Parameters(c))
    }

    /** `list_servers`: each server name, in table order, mapped to its description. */
    function ListServers(): (r: OMap<string>)
      requires Valid()
      reads this
      ensures r.Valid() && r.keys == servers.keys
      ensures forall n :: n in r.values ==> n in servers.values && r.values[n] == servers.values[n].description
    {
      Tabulate(servers.keys, map n | n in servers.values :: servers.values[n].description)
    }
  }

  /** Registering two configurations under one name keeps the later one, at the earlier position. */
  lemma LastWriteWins(m: OMap<ServerConfig>, a: ServerConfig, b: ServerConfig)
    requires m.Valid() && a.name == b.name
    ensures m.Put(a.name, a).Put(b.name, b) == m.Put(b.name, b)
  {
    assert m.values[a.name := a][b.name := b] == m.values[b.name := b];
  }
}
