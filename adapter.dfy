/**
 * mcp/adapter.py: `MCPManager` picks the stdio servers to launch from an
 * `MCPConfigManager` table, and `ReconnaissanceMCPTools` keeps the tools of
 * the Amass server. The SDK adapter itself is not modelled: what it would be
 * built from is returned instead, and the tools it lists are an input.
 */
module ServerSelection {
  import opened Common
  import opened OrderedMaps
  import Text
  import opened ServerRegistry

  /** The configurations an explicit `server_names` list picks: the registered, enabled ones, in the order named. */
  function NamedEnabled(names: seq<string>, servers: OMap<ServerConfig>): (r: seq<ServerConfig>)
    ensures |r| <= |names|
  {
    if names == [] then []
    else
      var n := |names| - 1;
      var init := NamedEnabled(names[..n], servers);
      var picked := if names[n] in servers.values && servers.values[names[n]].enabled then [servers.values[names[n]]] else [];
      init + picked
  }

  /** A configuration is picked exactly when it is enabled and registered under one of the names. */
  lemma {:induction false} NamedEnabledMembership(names: seq<string>, servers: OMap<ServerConfig>, c: ServerConfig)
    ensures c in NamedEnabled(names, servers) <==>
      c.enabled && exists i :: 0 <= i < |names| && names[i] in servers.values && servers.values[names[i]] == c
    decreases |names|
  {
    if names != [] {
      var n := |names| - 1;
      NamedEnabledMembership(names[..n], servers, c);
      assert forall i :: 0 <= i < n ==> names[..n][i] == names[i];
      if exists i :: 0 <= i < |names| && names[i] in servers.values && servers.values[names[i]] == c {
        var i :| 0 <= i < |names| && names[i] in servers.values && servers.values[names[i]] == c;
        if i < n {
          assert names[..n][i] == names[i];
        }
      }
    }
  }

  /** Naming servers one list after another picks the concatenation of what each list picks. */
  lemma {:induction false} NamedEnabledAppend(a: seq<string>, b: seq<string>, servers: OMap<ServerConfig>)
    ensures NamedEnabled(a + b, servers) == NamedEnabled(a, servers) + NamedEnabled(b, servers)
    decreases |b|
  {
    if b == [] {
      assert a + b == a;
    } else {
      var n := |b| - 1;
      var ab := a + b;
      assert ab[..|ab| - 1] == a + b[..n];
      assert ab[|ab| - 1] == b[n];
      NamedEnabledAppend(a, b[..n], servers);
      assert b[..n] == b[..|b| - 1];
      var last := if b[n] in servers.values && servers.values[b[n]].enabled then [servers.values[b[n]]] else [];
      calc {
        NamedEnabled(ab, servers);
        NamedEnabled(a + b[..n], servers) + last;
        NamedEnabled(a, servers) + NamedEnabled(b[..n], servers) + last;
        NamedEnabled(a, servers) + NamedEnabled(b, servers);
      }
    }
  }

  /** The candidate configurations: all enabled ones for `None`, otherwise those named. */
  function Candidates(names: Option<seq<string>>, servers: OMap<ServerConfig>): (r: seq<ServerConfig>)
    requires forall i :: 0 <= i < |servers.keys| ==> servers.keys[i] in servers.values
  {
    match names
    case None => EnabledIn(servers.keys, servers.values)
    case Some(ns) => NamedEnabled(ns, servers)
  }

  predicate IsStdio(c: ServerConfig) {
    c.serverType == "stdio"
  }

  /** The launch parameters of the stdio candidates, one each, in candidate order. */
  function StdioParametersOf(configs: seq<ServerConfig>): (r: seq<StdioParameters>)
    ensures |r| <= |configs|
  {
    if configs == [] then []
    else
      var n := |configs| - 1;
      assert configs == configs[..n] + [configs[n]];
      StdioParametersOf(configs[..n]) + if IsStdio(configs[n]) then [Parameters(configs[n])] else []
  }

  /** The parameters are those of the stdio configurations, position by position. */
  lemma {:induction false} StdioParametersOfFilter(configs: seq<ServerConfig>)
    ensures |StdioParametersOf(configs)| == |Filter(configs, IsStdio)|
    ensures forall i :: 0 <= i < |StdioParametersOf(configs)| ==>
      StdioParametersOf(configs)[i] == Parameters(Filter(configs, IsStdio)[i])
    decreases |configs|
  {
    if configs != [] {
      var n := |configs| - 1;
      assert configs == configs[..n] + [configs[n]];
      StdioParametersOfFilter(configs[..n]);
    }
  }

  /** One turn of the loop over explicit names. */
  lemma NamedEnabledStep(ns: seq<string>, i: nat, servers: OMap<ServerConfig>)
    requires i < |ns|
    ensures NamedEnabled(ns[..i + 1], servers) ==
      NamedEnabled(ns[..i], servers) + if ns[i] in servers.values && servers.values[ns[i]].enabled then [servers.values[ns[i]]] else []
  {
    assert ns[..i + 1][..i] == ns[..i];
  }

  /** One turn of the loop over candidates. */
  lemma StdioParametersStep(configs: seq<ServerConfig>, j: nat)
    requires j < |configs|
    ensures StdioParametersOf(configs[..j + 1]) ==
      StdioParametersOf(configs[..j]) + if IsStdio(configs[j]) then [Parameters(configs[j])] else []
  {
    assert configs[..j + 1][..j] == configs[..j];
  }

  /** What `MCPServerAdapter` is built from: one parameter set on its own, or the whole list. */
  datatype AdapterSource = Single(params: StdioParameters) | Many(all: seq<StdioParameters>)

  const NoParametersMessage := "No valid server parameters found"

  /** The branching of `create_managed_adapter` once the parameters are known. */
  function AdapterFor(params: seq<StdioParameters>): (r: Result<AdapterSource, string>)
    ensures r.Err? <==> params == []
    ensures r.Err? ==> r.error == NoParametersMessage
    ensures r.Ok? && r.value.Single? <==> |params| == 1
    ensures r.Ok? ==> (if r.value.Single? then [r.value.params] else r.value.all) == params
  {
    if params == [] then Err(NoParametersMessage)
    else if |params| == 1 then Ok(Single(params[0]))
    else Ok(Many(params))
  }

  /** `MCPManager`; the adapters table and tool cache it declares are never filled and are left out. */
  class Manager {
    const configManager: ConfigManager

    /** `MCPManager(config_manager)`: the given table, or a fresh one seeded from `environ`. */
    constructor(given: Option<ConfigManager>, environ: OMap<string>)
      requires given.Some? ==> given.value.Valid()
      ensures configManager.Valid()
      ensures given.Some? ==> configManager == given.value
      ensures given.None? ==> fresh(configManager) && configManager.servers.keys == [AmassServerName]
      ensures given.None? ==> AmassServerName in configManager.servers.values
                              && configManager.servers.values[AmassServerName] == DefaultConfig(environ)
    {
      if given.Some? {
        configManager := given.value;
      } else {
        configManager := new ConfigManager(environ);
      }
    }

    /** The first half of `get_server_parameters`: the candidate configurations. */
    method CandidateConfigs(names: Option<seq<string>>) returns (configs: seq<ServerConfig>)
      requires configManager.Valid()
      ensures configs == Candidates(names, configManager.servers)
    {
      if names.None? {
        configs := configManager.GetEnabledServers();
      } else {
        var ns := names.value;
        configs := [];
        var i := 0;
        while i < |ns|
          invariant 0 <= i <= |ns|
          invariant configs == NamedEnabled(ns[..i], configManager.servers)
        {
          NamedEnabledStep(ns, i, configManager.servers);
          var config := configManager.GetServerConfig(ns[i]);
          if config.Some? && config.value.enabled {
            configs := configs + [config.value];
          }
          i := i + 1;
        }
        assert ns[..i] == ns;
      }
    }

    /** `get_server_parameters`: the stdio parameters of the candidate configurations. */
    method GetServerParameters(names: Option<seq<string>>) returns (params: seq<StdioParameters>)
      requires configManager.Valid()
      ensures params == StdioParametersOf(Candidates(names, configManager.servers))
    {
      var configs := CandidateConfigs(names);
      params := [];
      var j := 0;
      while j < |configs|
        invariant 0 <= j <= |configs|
        invariant params == StdioParametersOf(configs[..j])
      {
        StdioParametersStep(configs, j);
        var config := configs[j];
        if config.serverType == "stdio" {
          CandidateRegistered(configManager, names, config);
          var p := configManager.CreateStdioParameters(config.name);
          params := params + [p.value];
        }
        j := j + 1;
      }
      assert configs[..j] == configs;
    }

    /** `create_managed_adapter`: what the adapter is built from, or the `ValueError` message. */
    method CreateManagedAdapter(names: Option<seq<string>>) returns (r: Result<AdapterSource, string>)
      requires configManager.Valid()
      ensures r == AdapterFor(StdioParametersOf(Candidates(names, configManager.servers)))
    {
      var params := GetServerParameters(names);
      r := AdapterFor(params);
    }

    /** `list_available_servers`: the table's names and descriptions. */
    function ListAvailableServers(): (r: OMap<string>)
      requires configManager.Valid()
      reads configManager
      ensures r.Valid() && r.keys == configManager.servers.keys
      ensures forall n :: n in r.values ==> r.values[n] == configManager.servers.values[n].description
    {
      configManager.ListServers()
    }

    /** `add_server_config`: registers `config` in the table. */
    method AddServerConfig(config: ServerConfig)
      requires configManager.Valid()
      modifies configManager
      ensures configManager.Valid()
      ensures configManager.GetServerConfig(config.name) == Some(config)
      ensures forall n :: n != config.name ==> configManager.GetServerConfig(n) == old(configManager.GetServerConfig(n))
      ensures configManager.servers.keys ==
        if config.name in old(configManager.servers.values) then old(configManager.servers.keys)
        else old(configManager.servers.keys) + [config.name]
    {
      configManager.AddServerConfig(config);
    }
  }

  /** A tool the adapter lists; only its name is used here. */
  datatype Tool = Tool(name: string)

  predicate IsAmassTool(t: Tool) {
    Text.Contains(Text.Lower(t.name), "amass")
  }

  /** What `create_managed_adapter(["amass-mcp"])` gives over the table `servers`. */
  function AmassSource(servers: OMap<ServerConfig>): Result<AdapterSource, string>
    requires forall i :: 0 <= i < |servers.keys| ==> servers.keys[i] in servers.values
  {
    AdapterFor(StdioParametersOf(Candidates(Some([AmassServerName]), servers)))
  }

  /** `ReconnaissanceMCPTools`. */
  class ReconTools {
    const manager: Manager
    var adapter: Option<AdapterSource>
    var tools: seq<Tool>

    constructor(manager: Manager)
      ensures this.manager == manager && adapter.None? && tools == []
    {
      this.manager := manager;
      adapter := None;
      tools := [];
    }

    /**
     * `__enter__`: builds the adapter for the Amass server alone, then enters
     * it; `entered` is what entering the adapter gave (its tools, or the
     * message of the exception it raised). Either exception propagates.
     */
    method Enter(entered: Result<seq<Tool>, string>) returns (r: Result<seq<Tool>, string>)
      requires manager.configManager.Valid()
      modifies this
      ensures AmassSource(manager.configManager.servers).Err? ==>
        r == Err(AmassSource(manager.configManager.servers).error) && adapter == old(adapter) && tools == old(tools)
      ensures AmassSource(manager.configManager.servers).Ok? ==>
        adapter == Some(AmassSource(manager.configManager.servers).value) && r == entered
        && tools == (if entered.Ok? then entered.value else old(tools))
    {
      var built := manager.CreateManagedAdapter(Some([AmassServerName]));
      if built.Err? {
        r := Err(built.error);
        return;
      }
      adapter := Some(built.value);
      if entered.Err? {
        r := Err(entered.error);
        return;
      }
      tools := entered.value;
      r := Ok(tools);
    }

    /** `get_amass_tools`: the tools whose lower-cased name mentions Amass, in listing order. */
    function GetAmassTools(): (r: seq<Tool>)
      reads this
      ensures |r| <= |tools|
      ensures tools == [] ==> r == []
    {
      Filter(tools, IsAmassTool)
    }
  }

  /** A tool is returned by `get_amass_tools` exactly when it is listed and its name contains "amass" in any case. */
  lemma AmassToolsExactly(rt: ReconTools, t: Tool)
    ensures t in rt.GetAmassTools() <==> t in rt.tools && Text.Contains(Text.Lower(t.name), "amass")
  {
    FilterMembership(rt.tools, IsAmassTool, t);
  }

  /** The stdio parameters produced are exactly those of the stdio candidates. */
  lemma {:induction false} StdioParametersMembership(configs: seq<ServerConfig>, p: StdioParameters)
    ensures p in StdioParametersOf(configs) <==> exists c :: c in configs && IsStdio(c) && p == Parameters(c)
  {
    var r := StdioParametersOf(configs);
    var f := Filter(configs, IsStdio);
    StdioParametersOfFilter(configs);
    if p in r {
      var i :| 0 <= i < |r| && r[i] == p;
      assert f[i] in f;
      FilterMembership(configs, IsStdio, f[i]);
    }
    if c :| c in configs && IsStdio(c) && p == Parameters(c) {
      FilterMembership(configs, IsStdio, c);
      var i :| 0 <= i < |f| && f[i] == c;
      assert r[i] == p;
    }
  }

  /** Every candidate is the configuration registered under its own name, so looking it up again finds it. */
  lemma CandidateRegistered(cm: ConfigManager, names: Option<seq<string>>, c: ServerConfig)
    requires cm.Valid() && c in Candidates(names, cm.servers)
    ensures c.name in cm.servers.values && cm.servers.values[c.name] == c
  {
    if names.None? {
      assert c in cm.GetEnabledServers();
    } else {
      NamedEnabledMembership(names.value, cm.servers, c);
    }
  }

  /** With no names given, the candidates are exactly the enabled configurations of the table. */
  lemma AllEnabledCandidates(cm: ConfigManager, c: ServerConfig)
    requires cm.Valid()
    ensures c in Candidates(None, cm.servers) <==> c.name in cm.servers.values && cm.servers.values[c.name] == c && c.enabled
  {
    assert Candidates(None, cm.servers) == cm.GetEnabledServers();
  }
}
