# Amass MCP reconnaissance bookkeeping, in Dafny

This project models the bookkeeping core of a reconnaissance toolkit. The toolkit drives the
Amass subdomain enumerator through Model Context Protocol (MCP) tool servers. The model covers:

- **Client side** (`src/mcp_client.py`, `src/mcp_adapter.py`). It loads the server table,
  starts and stops server processes, and tracks each server's state. It sends
  `tools/call` requests, without an id from the client and always with id 1 from the
  adapter (`tools/list` too). It runs the passive, active and combined
  enumerations on the selected servers. It then consolidates their results into one report:
  the union of the subdomains, sorted, with the servers that succeeded and failed.
- **Configuration** (`src/config.py`, `mcp/config.py`). It looks up a server's launch
  parameters in the loaded server file and keeps a registry of server configurations.
- **Tool selection** (`mcp/adapter.py`, `src/tools/amass_mcp.py`). It picks the Amass
  tools among those a server offers, and the passive or active one by name.
- **Servers** (`mcp/servers/amass_mcp_server.py`, `mcp/amass_mcp_server.py`). They build
  the Amass command lines from the tool arguments and turn the process outcome into the
  tool's JSON reply.
- **The agent's tool** (`src/subdomain_agent.py`). It parses the tool arguments and builds
  the passive and active configurations. It formats the consolidated result as the text
  report, with a numbered sorted listing and the subdomains that look interesting. It also
  builds the enumeration task's parameters.

Python values are modelled explicitly:

- decoded JSON is a `Json.Value`;
- a dict is an insertion-ordered `OrderedMaps.OMap`;
- truthiness, `dict.get`, `str.strip`, `str.split`, `str.join`, `str.lower` and the
  code-point order of `sorted` are written out in `Json` and `Text`.

Objects whose fields the source updates in place are classes with `modifies` clauses:

- the MCP client;
- the server registry;
- the adapter's server clients and their manager;
- the tool adapter.

Each operation is proved against a specification function, and the properties the code
promises are lemmas about those functions.

Processes, pipes, clocks and the SDK are not executed. What they return is a parameter of
the operation that uses it.

## Model

| member | source | states |
|---|---|---|
| ServerConfigFile.Validate | src/config.py:27-34 | a matching entry is rejected, with the invalid-entry message, exactly when its `command` is falsy or its `args` is truthy but not a list; an accepted entry keeps the requested name and the entry's command; its `args` are the entry's list when `args` is truthy and `[]` otherwise, and its `env` is the entry's `env` when truthy and `None` otherwise |
| ServerConfigFile.MessagesDiffer | src/config.py:31-35 | the invalid-entry message and the not-found message are never equal, so a bad entry is never reported as missing |
| ServerConfigFile.Search | src/config.py:25-35 | the lookup reports "not found" exactly when every entry is a dict not named `name`; a returned configuration carries the requested name and a truthy command |
| ServerConfigFile.LoadMcpServerConfig | src/config.py:13-35 | a missing file gives the not-found-at-path error; a truthy document that is not a dict raises; for a dict document the result is `Search` over its iterated `servers` entries; any configuration returned carries the requested name and a truthy command |
| ServerConfigFile.FirstMatchWins | src/config.py:25-34 | the first entry that is not a dict or is named `name` decides the outcome: a crash for a non-dict, otherwise that entry's validation, with no retry on later duplicates |
| ServerConfigFile.FirstStop | src/config.py:25-26 | locates the first entry at or after a position that ends the loop |
| ServerConfigFile.LaterEntriesIgnored | src/config.py:25-35 | once the loop stops inside a list, appending more entries leaves the result unchanged |
| ServerConfigFile.EmptyDocumentNotFound | src/config.py:19-35 | an empty YAML document, or one without `servers`, reports the server as not found in that path |
| ServerRegistry.Parameters | mcp/config.py:62-66 | the stdio parameters copy the command and arguments, and use the configured environment, or an empty one when there is none |
| ServerRegistry.DefaultConfig | mcp/config.py:31-42 | the default entry is the enabled stdio server `amass-mcp`, which runs `python mcp/servers/amass_mcp_server.py` with the process environment |
| ServerRegistry.EnabledIn | mcp/config.py:52-54 | never keeps more configurations than there are keys |
| ServerRegistry.EnabledInMembership | mcp/config.py:52-54 | a configuration is kept exactly when it is enabled and stored under one of the keys |
| ServerRegistry.EnabledInAppend | mcp/config.py:52-54 | filtering distributes over concatenation, so enabled servers keep their table order |
| ServerRegistry.ConfigManager.constructor | mcp/config.py:27-42 | a new manager holds exactly one entry, the Amass default, under `amass-mcp` |
| ServerRegistry.ConfigManager.AddServerConfig | mcp/config.py:44-46 | afterwards the name maps to the new configuration and every other name is unchanged; a new name is appended to the order, and a known name keeps its place |
| ServerRegistry.ConfigManager.GetServerConfig | mcp/config.py:48-50 | `None` exactly for an unregistered name, otherwise the stored configuration |
| ServerRegistry.ConfigManager.GetEnabledServers | mcp/config.py:52-54 | the result holds exactly the stored configurations that are enabled |
| ServerRegistry.ConfigManager.CreateStdioParameters | mcp/config.py:56-66 | `None` exactly when the name is unknown or its server type is not `stdio`, otherwise the parameters of that entry |
| ServerRegistry.ConfigManager.ListServers | mcp/config.py:68-73 | the listing has the table's names in table order, each mapped to its description |
| ServerRegistry.LastWriteWins | mcp/config.py:44-46 | registering two configurations under one name leaves the later one, at the earlier position |
| ServerSelection.NamedEnabled | mcp/adapter.py:30-37 | never picks more configurations than names were given |
| ServerSelection.NamedEnabledMembership | mcp/adapter.py:30-37 | a configuration is picked exactly when it is enabled and registered under one of the names given |
| ServerSelection.NamedEnabledAppend | mcp/adapter.py:32-35 | naming one list after another picks what each list picks, in order |
| ServerSelection.IsStdio | mcp/adapter.py:42 | holds exactly for the `stdio` server type |
| ServerSelection.StdioParametersOf | mcp/adapter.py:39-47 | gives at most one parameter set per candidate |
| ServerSelection.StdioParametersOfFilter | mcp/adapter.py:39-47 | the parameters are those of the stdio candidates, position by position, one for each |
| ServerSelection.NamedEnabledStep | mcp/adapter.py:32-35 | one turn of the loop over the names adds the named configuration exactly when it is registered and enabled |
| ServerSelection.StdioParametersStep | mcp/adapter.py:41-45 | one turn of the loop over the candidates adds parameters exactly for a stdio configuration |
| ServerSelection.AdapterFor | mcp/adapter.py:53-61 | no parameters raise "No valid server parameters found"; exactly one set is passed on its own, and more are passed as the whole list, unchanged |
| ServerSelection.Manager.constructor | mcp/adapter.py:19-22 | the manager keeps the table it is given, or makes a fresh one whose only key is `amass-mcp`, holding `DefaultConfig(environ)` |
| ServerSelection.Manager.CandidateConfigs | mcp/adapter.py:24-37 | without names, the candidates are the enabled servers; with names, the registered and enabled ones, in the order named |
| ServerSelection.Manager.GetServerParameters | mcp/adapter.py:24-47 | returns the stdio parameters of exactly the candidate configurations, in candidate order |
| ServerSelection.Manager.CreateManagedAdapter | mcp/adapter.py:49-61 | the result is the adapter choice made from the parameters of the candidates |
| ServerSelection.Manager.ListAvailableServers | mcp/adapter.py:63-65 | returns the table's names in order, each with its description |
| ServerSelection.Manager.AddServerConfig | mcp/adapter.py:67-69 | the configuration is registered under its name and every other name is unchanged; a new name goes last and a known name keeps its place, which is the order `list_available_servers` shows |
| ServerSelection.ReconTools.constructor | mcp/adapter.py:75-78 | starts with no adapter and no tools |
| ServerSelection.ReconTools.Enter | mcp/adapter.py:80-91 | if the adapter cannot be built, its error propagates and nothing changes; otherwise the adapter is kept, and the entry result is returned, with its tools stored when it succeeds |
| ServerSelection.ReconTools.GetAmassTools | mcp/adapter.py:102-109 | never more than the listed tools, and none when no tools are listed |
| ServerSelection.AmassToolsExactly | mcp/adapter.py:102-109 | a tool is returned exactly when it is listed and its lower-cased name contains `amass` |
| ServerSelection.StdioParametersMembership | mcp/adapter.py:39-47 | a parameter set is produced exactly when it belongs to some stdio candidate |
| ServerSelection.CandidateRegistered | mcp/adapter.py:41-45 | every candidate is the configuration registered under its own name, so `create_stdio_parameters` finds it again |
| ServerSelection.AllEnabledCandidates | mcp/adapter.py:26-28 | without names, a configuration is a candidate exactly when it is stored under its name and enabled |
| AmassTool.Selectable | src/tools/amass_mcp.py:36-41 | a tool is a candidate only when the type is `passive` or `active` and the tool's lower-cased name contains it |
| AmassTool.NamelessNeverSelectable | src/tools/amass_mcp.py:37 | a tool without a name (`or ""`) is never a candidate |
| AmassTool.FirstSelectable | src/tools/amass_mcp.py:36-46 | position `i` holds the first candidate in list order |
| AmassTool.CandidatesOf | src/tools/amass_mcp.py:35-41 | never more candidates than listed tools |
| AmassTool.CandidatesContain | src/tools/amass_mcp.py:43-45 | every candidate's lower-cased name contains the type, so the "prefer exact matches" loop stops at the first candidate |
| AmassTool.CandidatesFirst | src/tools/amass_mcp.py:35-46 | there are no candidates exactly when no tool is selectable; otherwise the first candidate is the name of the first selectable tool |
| AmassTool.CandidatesNone | src/tools/amass_mcp.py:35-41 | the candidate list is empty exactly when no listed tool is selectable |
| AmassTool.NoneSelectableSnoc | src/tools/amass_mcp.py:36-41 | a list has no selectable tool exactly when neither its first part nor its last tool has one |
| AmassTool.CandidatesHead | src/tools/amass_mcp.py:35-41 | a non-empty candidate list starts with the name of the first selectable tool |
| AmassTool.CandidatesStep | src/tools/amass_mcp.py:36-41 | one turn of the first loop appends the tool's name exactly when it is selectable |
| AmassTool.SelectToolName | src/tools/amass_mcp.py:33-46 | after lower-casing and stripping the type, the result is `None` exactly when no tool is selectable, and `None` for any type other than passive or active; otherwise it is the name of the first selectable tool |
| AmassTool.SelectForType | src/tools/amass_mcp.py:35-46 | the result is `None` exactly when no tool is selectable, otherwise the name of the first selectable tool |
| AmassTool.CollectCandidates | src/tools/amass_mcp.py:35-41 | the first loop builds the candidate list, the names of the selectable tools in list order |
| AmassTool.FirstContaining | src/tools/amass_mcp.py:43-46 | returns the first candidate whose lower-cased name contains the type, or `None` when no candidate does |
| AmassTool.Normalize | src/tools/amass_mcp.py:66-69 | a string result is returned unchanged |
| AmassTool.Run | src/tools/amass_mcp.py:48-69 | an empty or non-string domain is rejected before anything else; a configuration error propagates; no selectable tool raises the no-suitable-tool message; otherwise the first selectable tool is called with exactly `{"domain": domain}` and its normalised result is returned |
| ToolServer.Subdomains | mcp/servers/amass_mcp_server.py:151-153 | every reported subdomain is non-empty and has no surrounding whitespace |
| ToolServer.SubdomainsRoundTrip | mcp/servers/amass_mcp_server.py:151-153 | non-empty, trimmed lines printed one per line are read back as exactly the same list |
| ToolServer.FailureResult | mcp/servers/amass_mcp_server.py:144-148 | a failure result has `success` false, the error message, and an empty `subdomains` list, in that key order |
| ToolServer.SuccessResult | mcp/servers/amass_mcp_server.py:155-160 | a success result has `success` true, the subdomains, `count` equal to their number, and the error output, in that key order |
| ToolServer.RunResult | mcp/servers/amass_mcp_server.py:124-175 | a command holding a non-string element fails the log join before anything runs and reports that exception; otherwise `success` holds exactly for a run that exits with status 0, which reports the parsed stdout lines and their count, and a timeout, a non-zero exit or an exception reports an error and no subdomains |
| ToolServer.UnloggableNeverRuns | mcp/servers/amass_mcp_server.py:124-127 | a command with a non-string element fails with the join's exception, whatever running it would have given |
| ToolServer.PassiveCommand | mcp/servers/amass_mcp_server.py:196-202 | the passive argument vector: `amass enum -passive -d <domain>`, then `-config` only for a given config file, then `-w` only for a given wordlist |
| ToolServer.ActiveCommand | mcp/servers/amass_mcp_server.py:229-237 | the active argument vector: `amass enum -active -d <domain>`, then `-config` when given, then `-brute` when brute force is on; `-w` is added only in that case |
| ToolServer.IntelCommand | mcp/servers/amass_mcp_server.py:262-268 | the intel argument vector: `amass intel -d <domain>`, then `-whois` when requested, then `-config` when given |
| ToolServer.CallTool | mcp/servers/amass_mcp_server.py:177-285 | an unknown name answers "Error: Unknown tool"; for a known tool, a falsy domain answers "Error: Domain parameter is required" and runs nothing; otherwise each tool runs exactly its argument vector over `domain`, `config_file` (default ""), `wordlist` (default ""), `brute_force` (default false) and `whois` (default true), with timeout 300 for passive and 600 for active unless given and always 300 for intel, and reports that run; a domain that is not a string never succeeds |
| AmassServer.ResultLines | mcp/amass_mcp_server.py:167-169 | never more lines than the trimmed output has |
| AmassServer.ResultLinesMembership | mcp/amass_mcp_server.py:167-169 | a line is reported exactly when it is a non-blank line of the trimmed output; lines are kept as they are, not trimmed one by one |
| AmassServer.ResultLinesRoundTrip | mcp/amass_mcp_server.py:167-169 | non-blank lines printed one per line are read back unchanged, indentation inside included, provided the first and last have no surrounding whitespace |
| AmassServer.IntelLines | mcp/amass_mcp_server.py:277-283 | the intelligence list is empty exactly when the output is blank |
| AmassServer.IntelLinesJoin | mcp/amass_mcp_server.py:277-283 | joining the intelligence lines with newlines gives back the trimmed output |
| AmassServer.EnumerationOutput | mcp/amass_mcp_server.py:171-177 | the success output has status, domain, method, `brute_force_enabled` only for the active handler, then the count of the subdomains and the subdomains themselves |
| AmassServer.EnumerationResult | mcp/amass_mcp_server.py:155-188 | succeeds exactly for exit code 0, with the output built from the non-blank lines; a non-zero exit raises "Amass execution failed" with the trimmed error output; a timeout raises the "timed out after" message; an exception from starting the process propagates |
| AmassServer.IntelResult | mcp/amass_mcp_server.py:266-296 | succeeds exactly for exit code 0 with a string `output_format`; every failure carries the "Intelligence gathering error: " prefix; a `json` format in any case gives status, domain and the lines, and any other format gives the trimmed text |
| AmassServer.PassiveCommand | mcp/amass_mcp_server.py:147-151 | the passive argument vector: `amass enum -passive -d <domain>`, then `-config` only when a configuration file is given |
| AmassServer.ActiveCommand | mcp/amass_mcp_server.py:202-212 | the active argument vector: `amass enum -active -d <domain>`, then `-brute` when brute force is on, then `-w` whenever a wordlist is given, brute force or not, then `-config` |
| AmassServer.PassiveEnumeration | mcp/amass_mcp_server.py:138-188 | a falsy domain raises before any command is built; otherwise the argument vector is built, and the run is shaped with timeout default 300 |
| AmassServer.ActiveEnumeration | mcp/amass_mcp_server.py:191-250 | a falsy domain raises before any command is built; otherwise the argument vector is built, and the run is shaped with timeout default 600, recording the brute-force flag |
| AmassServer.SubdomainIntelligence | mcp/amass_mcp_server.py:253-296 | a falsy domain raises before any command is built; otherwise the command is exactly `amass intel -d <domain>`, and the output format defaults to `json` |
| AmassServer.ArgumentsOrEmpty | mcp/amass_mcp_server.py:120-121 | missing arguments are treated as an empty dictionary, and given ones are kept |
| AmassServer.Answer | mcp/amass_mcp_server.py:133-135 | a raised exception becomes the single text `Error: <message>`, and a result is sent as it is |
| AmassServer.HandleCallTool | mcp/amass_mcp_server.py:114-135 | never raises: an unknown name or a missing domain becomes one `Error:` text; a command is built exactly for a known tool with a truthy domain, and it is the argument vector of that tool over `brute_force`, `wordlist` and `config`; each handler is reached with its own default timeout and output format |
| AmassServer.Dispatch | mcp/amass_mcp_server.py:123-131 | routes the three tool names to their handlers, with the result and the argument vector each builds, and raises "Unknown tool" for any other |
| AmassServer.DumpedOnlyOnSuccess | mcp/amass_mcp_server.py:167-185 | a dictionary is sent back only for a run that exited with code 0; every other reply is text |
| McpAdapter.Request | src/mcp_adapter.py:152-160 | every JSON-RPC request carries id 1 and the given method name |
| McpAdapter.MapResponse | src/mcp_adapter.py:169-189 | the server name is always the configured one; success holds exactly for a dict without `error`, and its data is the `result` (or `None`); an error dict gives its `message`, defaulting to "Unknown error"; a value that makes the lookup raise gives that exception's message: a non-dict `error` has no `.get`, a list holding "error" rejects a string index, a string containing "error" rejects a string index, any other list or string has no `.get`, and any other scalar is "not iterable" |
| McpAdapter.ReplyResponse | src/mcp_adapter.py:168-197 | no reply line gives "No response from MCP server", a raised exception gives its message, and a line is mapped as a decoded response, always with the configured server name |
| McpAdapter.ToolsOf | src/mcp_adapter.py:215-224 | no line, or a reply that is not a dict, lists no tools; for a dict reply, the `tools` of its `result` when that is a dict (`[]` when `tools` is missing), and `[]` when `result` is not a dict |
| McpAdapter.AmassClient.constructor | src/mcp_adapter.py:51-54 | a fresh client is `STOPPED` and has no process |
| McpAdapter.AmassClient.Connect | src/mcp_adapter.py:80-112 | returns true exactly when the spawned process is still alive after start-up; the status is then `RUNNING`, and `ERROR` otherwise, also when spawning raised |
| McpAdapter.AmassClient.Disconnect | src/mcp_adapter.py:114-134 | returns true and sets `STOPPED` whenever no process was ever spawned; with a process, true exactly when ending it did not raise, and on false the status is left as it was |
| McpAdapter.AmassClient.CallTool | src/mcp_adapter.py:141-197 | a request goes out exactly when the client is `RUNNING`; otherwise the answer is "MCP server is not running"; the server name is always the configured one |
| McpAdapter.AmassClient.ListTools | src/mcp_adapter.py:199-224 | a `tools/list` request goes out exactly when the client is `RUNNING`, and a client that is not running lists no tools |
| McpAdapter.Manager.constructor | src/mcp_adapter.py:230-232 | a new manager has no configurations and no clients |
| McpAdapter.Manager.Register | src/mcp_adapter.py:234-241 | last write wins: the configuration is stored under its name, and a fresh `STOPPED` client carrying it replaces any earlier one; configurations and clients keep the same names, and every other name keeps its client |
| McpAdapter.Manager.GetServerStatus | src/mcp_adapter.py:290-295 | `UNKNOWN` for an unregistered name, otherwise that client's status |
| McpAdapter.Manager.GetAllStatuses | src/mcp_adapter.py:297-302 | has exactly the registered names, in order, each with its client's status |
| McpAdapter.Manager.ConnectServer | src/mcp_adapter.py:243-249 | false for an unregistered name; otherwise that client connects, and no other client's status changes |
| McpAdapter.Manager.DisconnectServer | src/mcp_adapter.py:251-257 | false for an unregistered name; otherwise that client disconnects (true without a process, or when ending it did not raise), no other client's status changes, and no client's process link changes |
| McpAdapter.Manager.ConnectAll | src/mcp_adapter.py:259-264 | the result has exactly the registered names, in order, each with its connect outcome, and each client ends in the status that outcome implies |
| McpAdapter.Manager.ConnectNext | src/mcp_adapter.py:262-263 | one turn of `connect_all` connects the next client and records its outcome, keeping what earlier turns established |
| McpAdapter.Manager.DisconnectAll | src/mcp_adapter.py:266-271 | the result has exactly the registered names, in order, each with its disconnect outcome (true without a process, or when ending it did not raise); each client is `STOPPED` on true and keeps its status otherwise |
| McpAdapter.Manager.DisconnectNext | src/mcp_adapter.py:269-270 | one turn of `disconnect_all` disconnects the next client and records its outcome (true without a process, or when ending it did not raise); clients not yet visited keep their status |
| McpAdapter.Manager.CallTool | src/mcp_adapter.py:273-281 | an unregistered name answers "Server <n> not registered" with no server name and sends nothing; otherwise the answer comes from that client |
| McpAdapter.Manager.ListTools | src/mcp_adapter.py:283-288 | an unregistered name lists no tools; otherwise the list comes from that client |
| McpAdapter.CreateAmassConfig | src/mcp_adapter.py:306-329 | runs the `mcp.amass_mcp_server` module with the given interpreter; the environment's keys are exactly `[AMASS_CONFIG]`, holding the file, when a non-empty configuration file is given, and none otherwise; the timeout is 30 and auto-restart is on |
| McpClient.FromEntry | src/mcp_client.py:20-27 | a loaded entry keeps its name and `enabled` flag and has no process yet |
| McpClient.Loaded | src/mcp_client.py:46-48 | the loaded table is well formed, and every server is stored under its own name |
| McpClient.LastNamed | src/mcp_client.py:46-48 | finds the last entry carrying a name, or reports that none does |
| McpClient.LastEntryWins | src/mcp_client.py:46-48 | after loading, each name maps to the last entry that carries it, and names no entry carries are absent |
| McpClient.ErrorDict | src/mcp_client.py:132-167 | an error dictionary holds only `error` with the message, and never counts as a success |
| McpClient.ResponseOf | src/mcp_client.py:156-167 | a reply line is returned as decoded; no line gives "No response from server"; an exception gives its message |
| McpClient.AfterStart | src/mcp_client.py:81-94 | starting never changes a server's name, `enabled` flag or type |
| McpClient.AfterStop | src/mcp_client.py:117-127 | stopping never changes a server's name, flag or type, and never attaches or detaches a process |
| McpClient.StatusCases | src/mcp_client.py:309-323 | every server has exactly one of disabled, stopped, running or failed; a disabled server is "disabled" whatever its process; "running" means enabled with a live process |
| McpClient.StartStatus | src/mcp_client.py:69-108 | a successful start leaves the server "running", and a failed first start never does |
| McpClient.StopStatus | src/mcp_client.py:110-127 | a process that was stopped stays attached with its exit code, so the server then reports "failed", not "stopped" |
| McpClient.Arguments | src/mcp_client.py:178-229 | every entry point's arguments start with `domain`; the passive entry point sends exactly `{"domain": domain}` |
| McpClient.DomainArgument | src/mcp_client.py:181 | the passive arguments are exactly `{"domain": domain}` |
| McpClient.ActiveArguments | src/mcp_client.py:201 | the active arguments have `domain` first, followed by every configuration key; a configured `domain` replaces the given one |
| McpClient.CombinedArguments | src/mcp_client.py:224-228 | the combined arguments are the domain and the two configurations, `{}` when one is absent, in that order |
| McpClient.EnabledNames | src/mcp_client.py:171-172 | a name is selected exactly when it is configured and enabled |
| McpClient.EnabledNamesDistinct | src/mcp_client.py:171-172 | selecting from a table's names never repeats a name |
| McpClient.EnabledNamesAppend | src/mcp_client.py:171-172 | the comprehension keeps table order: selecting from one list of names after another selects from each in turn |
| McpClient.EnabledNamesSnoc | src/mcp_client.py:171-172 | one more name is selected after all earlier ones, exactly when its server is enabled |
| McpClient.AssignedKeys | src/mcp_client.py:174-183 | the keys of a dictionary assigned name after name are exactly those names |
| McpClient.AssignedKeysDistinct | src/mcp_client.py:174-183 | names without repeats become the keys in exactly the order they were assigned, which is the order of the report's server lists |
| McpClient.DistinctSnoc | src/mcp_client.py:171-172 | in a list without repeats the last name is not among the earlier ones, which have no repeats either |
| McpClient.StartStep | src/mcp_client.py:296-300 | one more server visited by `start_all_servers` updates that server and leaves the others as they were |
| McpClient.StopStep | src/mcp_client.py:306-307 | one more server visited by `stop_all_servers` updates that server and leaves the others as they were |
| McpClient.OutcomeStep | src/mcp_client.py:296-300 | one more outcome recorded by `start_all_servers` keeps the map's order and its earlier entries |
| McpClient.Client.constructor | src/mcp_client.py:32-67 | without a configuration file, the table holds only the default `amass-mcp-default` server; otherwise it holds the entries loaded under their names, a later duplicate replacing an earlier one |
| McpClient.Client.StartServer | src/mcp_client.py:69-108 | false for an unknown name, with nothing changed; otherwise success exactly for an enabled `amass` server whose spawned process is still running, and the spawned process is recorded |
| McpClient.Client.StartNext | src/mcp_client.py:296-300 | one turn of `start_all_servers` starts the next server and records its outcome, keeping what earlier turns established |
| McpClient.Client.StartIfEnabled | src/mcp_client.py:297-300 | an enabled server is started; a disabled one gets false and is not touched |
| McpClient.Client.StopServer | src/mcp_client.py:110-127 | nothing changes for an unknown name; otherwise the server's process, if any, ends with an exit code, or the exception is swallowed |
| McpClient.Client.StartAllServers | src/mcp_client.py:292-302 | the result has one entry per configured server, in table order, false for disabled ones, and every server ends as its own start left it |
| McpClient.Client.StopAllServers | src/mcp_client.py:304-307 | every configured server is stopped once, and the table keeps its names |
| McpClient.Client.CallTool | src/mcp_client.py:129-167 | an unknown name gives the "Server <name> not found" error dictionary, a disabled server "Server <name> is disabled", and an enabled server without a process or stdin "Server not running or not accessible", each writing nothing; otherwise the `tools/call` request is written and the reply returned; nothing that is not written counts as a success |
| McpClient.Client.ListAvailableTools | src/mcp_client.py:268-290 | "Server not running" for an unknown server or one without a process, whether enabled or not; a request is written exactly when there is a process with stdin |
| McpClient.Client.EnumerationTargets | src/mcp_client.py:171-172 | a given list is used as it is; otherwise the comprehension over the table in table order, which selects exactly the enabled servers, each once |
| McpClient.Client.Recorded | src/mcp_client.py:174-185 | the results have exactly the targets as keys, in the order they were first called, each with the response its call gave |
| McpClient.Client.Enumerate | src/mcp_client.py:169-238 | the answer consolidates the responses of calling the entry point's tool, with its arguments, on each target |
| McpClient.Client.Record | src/mcp_client.py:176-185 | the loop records, under each target's name, the response of its call |
| McpClient.Client.RecordedStep | src/mcp_client.py:176-183 | one turn of the loop stores one more target's response |
| McpClient.Client.GetServerStatus | src/mcp_client.py:309-323 | one status per configured server, in table order, each the status of that server |
| McpClient.UnreachableTargetFails | src/mcp_client.py:129-163 | a target that is unknown, disabled or not running always lands among the failed servers |
| Consolidation.Payload | src/mcp_client.py:249-252 | a successful result contributes its `subdomains`, otherwise its `combined_subdomains`, and nothing when it has neither |
| Consolidation.FirstUnhashable | src/mcp_client.py:250-252 | locates the first list or dict among the values, which a Python set cannot hold |
| Consolidation.Added | src/mcp_client.py:250-252 | a list of strings adds exactly its elements to the set |
| Consolidation.VisitStep | src/mcp_client.py:246-254 | one more server extends the successful list, the failed list or the set, exactly as its own result decides |
| Consolidation.SortedList | src/mcp_client.py:260 | `sorted(list(s))` is strictly increasing and holds exactly the set's elements |
| Consolidation.CollectedErrPersists | src/mcp_client.py:250-252 | an exception raised while merging ends the consolidation, and later servers change nothing |
| Consolidation.ConsolidateResults | src/mcp_client.py:240-266 | the answer keeps the domain, method and input results; successful and failed servers are listed in recording order; `success` means at least one success; the subdomains are sorted, without repeats, and exactly those the successful servers reported; the count is their number. A non-iterable or unhashable payload, or values that are not all strings, raise instead |
| Consolidation.Visit | src/mcp_client.py:246-254 | one turn of the loop moves the next server into the successful or the failed list and merges its subdomains, or reports the error the merge raised |
| Consolidation.Summarize | src/mcp_client.py:256-266 | the final dictionary, built from the loop's results, has every property the consolidation promises |
| Consolidation.Partition | src/mcp_client.py:246-254 | every server is in exactly one of the two lists, and it is in the successful list exactly when its own result is a dict with a truthy `success` |
| Consolidation.SomeSucceeded | src/mcp_client.py:259 | the overall `success` holds exactly when some server's result succeeded |
| Consolidation.CollectedIsUnion | src/mcp_client.py:242-252 | the collected set is exactly the union of what the successful servers contributed |
| Consolidation.OrderIndependent | src/mcp_client.py:242-261 | the same results recorded in another order give the same subdomains, count and overall success |
| Consolidation.FoundContributes | src/mcp_client.py:247-250 | a successful result listing names contributes exactly those names |
| Consolidation.FoundStep | src/mcp_client.py:246-250 | visiting a successful server adds its names to the set and its name to the successful list |
| Consolidation.OverlappingCollected | src/mcp_client.py:246-252 | two successful servers reporting `p, q` and `q, r` collect `{p, q, r}`, both in the successful list |
| Consolidation.PairSet | src/mcp_client.py:250 | a two-name list contributes exactly those two names |
| Consolidation.SortedThree | src/mcp_client.py:260 | the only sorted list without repeats of three ordered names is those names in order |
| Consolidation.OverlappingServers | src/mcp_client.py:240-266 | two servers reporting `p, q` and `q, r` consolidate to `p, q, r`, with a count of 3, both servers successful and none failed |
| SubdomainAgent.CommaList | src/subdomain_agent.py:55 | every name kept from a comma-separated list is stripped and non-empty |
| SubdomainAgent.ServerList | src/subdomain_agent.py:53-55 | a blank `servers` argument selects no list (every server); otherwise the list is the stripped, non-empty comma-separated names |
| SubdomainAgent.ServersRoundTrip | src/subdomain_agent.py:55 | names that are stripped, non-empty and free of commas, joined with `,` as a task passes them and split again by the tool, come back unchanged |
| SubdomainAgent.BuildConfig | src/subdomain_agent.py:58-69 | the configuration holds the first key only when it was given and `timeout` only when the timeout is truthy, in that order and with those values |
| SubdomainAgent.BuildPassiveConfig | src/subdomain_agent.py:58-62 | the passive configuration holds `sources` exactly when the sources argument is not blank (the stripped, non-empty names) and `timeout` exactly when the timeout is truthy |
| SubdomainAgent.BuildActiveConfig | src/subdomain_agent.py:65-69 | the active configuration holds `brute: True` exactly when brute force is asked for and `timeout` exactly when the timeout is truthy |
| SubdomainAgent.JoinIterable | src/subdomain_agent.py:115-116 | joining a list gives what joining its items gives; `None`, a boolean or a number cannot be joined and raise |
| SubdomainAgent.ServerNames | src/subdomain_agent.py:115-116 | an empty or falsy server list is shown as `None`, any other is joined with `, ` |
| SubdomainAgent.SubdomainStrings | src/subdomain_agent.py:107-136 | a falsy value lists nothing; otherwise what iterating it visits (list items, string characters, dict keys) is listed when all are strings; a value that cannot be iterated raises Python's `not iterable` error |
| SubdomainAgent.StringSubdomainsListed | src/subdomain_agent.py:121-123 | the string `"ab"` in place of the list is listed as `a` and `b` |
| SubdomainAgent.SortedOf | src/subdomain_agent.py:122 | `sorted(subdomains)` is in code-point order and a permutation of its input |
| SubdomainAgent.Entries | src/subdomain_agent.py:122-123 | one listing line per subdomain |
| SubdomainAgent.Interesting | src/subdomain_agent.py:129-131 | the interesting subdomains are a selection of the input |
| SubdomainAgent.FormatResults | src/subdomain_agent.py:100-143 | a result that is not a dictionary raises on `.get`; a result without a truthy `success` gives the one-line failure message naming the domain (or `unknown`) |
| SubdomainAgent.SortSubdomains | src/subdomain_agent.py:122 | the loop's insertion sort yields the sorted permutation of the subdomains |
| SubdomainAgent.FormatEnumerationResults | src/subdomain_agent.py:100-143 | the report built step by step is exactly the formatted result, including its error cases |
| SubdomainAgent.Report | src/subdomain_agent.py:121-142 | the body appended after the header: the numbered sorted listing or the "none" line, then the interesting subdomains and the recommendations when there are subdomains |
| SubdomainAgent.ListSorted | src/subdomain_agent.py:122-123 | the loop writes one numbered line per sorted subdomain, in order |
| SubdomainAgent.ListInteresting | src/subdomain_agent.py:135-136 | the loop writes one indented, numbered line per interesting subdomain, in order |
| SubdomainAgent.ListingStep | src/subdomain_agent.py:122-123 | one more sorted subdomain appends its numbered line to the listing |
| SubdomainAgent.InterestingLinesStep | src/subdomain_agent.py:135-136 | one more interesting subdomain appends its indented, numbered line |
| SubdomainAgent.EntryHasNoBreak | src/subdomain_agent.py:123 | the entry for a subdomain without a newline holds no newline |
| SubdomainAgent.EntriesHaveNoBreak | src/subdomain_agent.py:122-123 | when no subdomain holds a newline, no entry of the listing does |
| SubdomainAgent.ListingJoin | src/subdomain_agent.py:122-123 | the listing is its entries, each followed by a newline |
| SubdomainAgent.ListingJoined | src/subdomain_agent.py:122-123 | a non-empty listing is its lines joined by newlines, followed by a final newline |
| SubdomainAgent.ListingLines | src/subdomain_agent.py:122-123 | splitting the listing at newlines gives back exactly its entries, one per subdomain, and a final empty piece |
| SubdomainAgent.ListingEntryAligned | src/subdomain_agent.py:123 | an index below 1000 is right-aligned in three columns, so every entry is `NNN. ` followed by the subdomain |
| SubdomainAgent.InterestingMembership | src/subdomain_agent.py:129-131 | a subdomain is listed as interesting exactly when it is among the input and contains one of the keywords, ignoring case |
| SubdomainAgent.InterestingOrder | src/subdomain_agent.py:129-131 | the selection keeps the input's order: selecting from a concatenation concatenates the selections |
| SubdomainAgent.InterestingIgnoresCase | src/subdomain_agent.py:130 | lower-casing a subdomain does not change whether it is interesting |
| SubdomainAgent.EnumerateSubdomains | src/subdomain_agent.py:28-98 | without a client, the "not initialized" message and no call; an unknown method, the "invalid method" message and no call; otherwise exactly the coroutine the method names, for the domain and parsed server list, with the passive and active configurations built from the arguments, and the formatted report or the error line as text |
| SubdomainAgent.QuickSubdomainEnum | src/subdomain_agent.py:277-285 | the given method (passive by default) with no server list, no passive sources, no brute force and timeout 30; the same not-initialized and invalid-method messages, otherwise exactly the named coroutine and its report |
| SubdomainAgent.Keys | src/subdomain_agent.py:179-182 | the enumeration task's parameters always start with `domain` and `method` |
| SubdomainAgent.ToolParams | src/subdomain_agent.py:172-196 | `servers` and `passive_sources` are present exactly when given non-empty and are their comma-joined values; `active_brute` exactly when the active configuration asks for it; the timeout comes from a given active configuration, else from the passive one, and is kept only when truthy; sources that cannot be joined raise |
| SubdomainAgent.ActiveConfigHidesPassiveTimeout | src/subdomain_agent.py:190-196 | a given active configuration without a timeout hides the passive configuration's timeout: the enumeration task then carries none |
| Text.TrimStart | mcp/servers/amass_mcp_server.py:152-153 | drops exactly the leading whitespace: the result is a suffix of the input, everything dropped is whitespace and what is kept does not start with whitespace |
| Text.TrimEnd | mcp/servers/amass_mcp_server.py:152-153 | drops exactly the trailing whitespace: the result is a prefix of the input, everything dropped is whitespace and what is kept does not end with whitespace |
| Text.Strip | mcp/servers/amass_mcp_server.py:152-153 | `str.strip()` gives a stripped string, empty exactly when the input is blank, and never longer than the input |
| Text.StripStripped | mcp/servers/amass_mcp_server.py:153 | stripping a string that is already stripped leaves it unchanged |
| Text.Split | mcp/servers/amass_mcp_server.py:153 | `str.split(sep)` gives at least one piece and no piece contains the separator |
| Text.JoinSplit | mcp/amass_mcp_server.py:168 | joining the pieces of a split with the same separator gives back the original text |
| Text.SplitPrefix | src/subdomain_agent.py:55 | text without the separator, placed before another text, only extends that text's first piece |
| Text.SplitJoin | src/subdomain_agent.py:55 | pieces without the separator, joined and split again, come back unchanged |
| Text.JoinSnoc | src/subdomain_agent.py:185 | joining one more piece appends the separator and that piece |
| Text.JoinEnds | src/subdomain_agent.py:185 | a join of non-empty pieces starts with the first piece's first character and ends with the last piece's last |
| Text.NonBlankStripped | src/subdomain_agent.py:55 | the comprehension that strips each piece and keeps the non-blank ones keeps at most as many pieces as it is given |
| Text.NonBlankStrippedTrimmed | src/subdomain_agent.py:55 | every piece it keeps is stripped and non-empty |
| Text.NonBlankStrippedClean | src/subdomain_agent.py:55 | pieces that are already stripped and non-empty are kept, all of them and in order |
| Text.Lower | src/tools/amass_mcp.py:34 | `str.lower()` keeps the length and lower-cases each character on its own |
| Text.LowerIdempotent | src/subdomain_agent.py:130 | lower-casing twice is lower-casing once |
| Text.ContainsAt | mcp/adapter.py:108 | the substring test `sub in s` holds exactly when `sub` occurs at some position of `s` |
| Text.LessIrreflexive | src/mcp_client.py:260 | no string sorts before itself |
| Text.LessTransitive | src/mcp_client.py:260 | the string order is transitive |
| Text.LessTotal | src/mcp_client.py:260 | of two different strings, one sorts before the other |
| Text.LessAsymmetric | src/mcp_client.py:260 | two strings never sort before each other |
| Text.StrictlySortedUnique | src/mcp_client.py:260 | two strictly sorted lists with the same elements are equal, so `sorted` of a set is determined by the set |
| Text.InsertStrict | src/mcp_client.py:260 | inserting a new element into a strictly sorted list keeps it strictly sorted and adds exactly that element |
| Text.InsertSorted | src/subdomain_agent.py:122 | inserting into a list adds one element |
| Text.InsertSortedMultiset | src/subdomain_agent.py:122 | the insertion adds exactly the new element and loses none |
| Text.SortedCons | src/subdomain_agent.py:122 | a head that nothing in a sorted tail sorts below keeps the list sorted |
| Text.SortedHeadBound | src/subdomain_agent.py:122 | in a sorted list whose head is not below `x`, no element is below `x` |
| Text.InsertSortedSorted | src/subdomain_agent.py:122 | inserting into a sorted list keeps it sorted |
| Text.DigitChar | src/subdomain_agent.py:123 | a decimal digit's character has that digit's code-point offset from `0` |
| Text.NatToString | src/subdomain_agent.py:114 | `str(n)` is a non-empty string of digits without a leading zero |
| Text.ParseNatToString | src/subdomain_agent.py:114 | reading back the decimal text of a number gives that number |
| Text.IntToString | src/subdomain_agent.py:114 | `str(i)` is non-empty and starts with a minus sign exactly when `i` is negative |
| Text.PadLeft | src/subdomain_agent.py:123 | the `3d` format right-aligns the number with spaces in a field at least three characters wide |
| Json.GetOr | src/subdomain_agent.py:102-110 | `dict.get(key, default)` is the stored value when the key is present and the default otherwise |
| Json.Iterate | src/mcp_client.py:250-252 | iterating a list gives its items, a string its characters (each a one-character string, in order) and a dict its keys (in insertion order); `None`, booleans and numbers cannot be iterated |
| Json.Strs | mcp/amass_mcp_server.py:168-170 | a list of strings becomes the JSON list of those strings, item for item |
| Json.FirstNonString | src/subdomain_agent.py:115-116 | finds the first item that is not a string, or the length when all are strings |
| Json.JoinValues | src/subdomain_agent.py:115-116 | `sep.join(items)` succeeds exactly when every item is a string |
| OrderedMaps.OMap.Get | src/mcp_client.py:273 | `dict.get(k)` finds a value exactly when the key is present, and it is that key's value |
| OrderedMaps.OMap.Put | mcp/config.py:46 | assigning to a key stores the value; a new key goes last and an existing one keeps its position |
| OrderedMaps.OMap.PutAll | src/mcp_client.py:201 | assigning several keys keeps the old keys first and in order, adds the new ones, and leaves each key with its last value |
| OrderedMaps.OMap.Update | src/mcp_client.py:201 | `{**a, **b}` keeps `a`'s keys first and in order and has exactly the keys of both, with `b`'s value wherever `b` has the key |
| OrderedMaps.OMap.PutAllNewKeys | src/mcp_client.py:201 | assigning distinct keys appends exactly the ones not yet present, after the old keys and in assignment order |
| OrderedMaps.OMap.UpdateNewKeys | src/mcp_client.py:201 | `{**a, **b}` appends the keys of `b` missing from `a`, in `b`'s order |
| OrderedMaps.Empty | src/mcp_adapter.py:299-302 | the empty dictionary has no keys |
| OrderedMaps.Tabulate | src/mcp_adapter.py:299-302 | a comprehension over a dict's items keeps its keys in order and takes each value from the given mapping |
| Common.Filter | mcp/amass_mcp_server.py:169 | a list comprehension with a condition keeps at most the input's elements |
| Common.FilterMembership | mcp/amass_mcp_server.py:169 | an element is kept exactly when it is in the input and satisfies the condition |
| Common.FilterAppend | mcp/amass_mcp_server.py:169 | the comprehension keeps the input's order: filtering a concatenation concatenates the results |
| Common.FilterKeepsAll | mcp/amass_mcp_server.py:169 | when every element satisfies the condition, the comprehension returns the input unchanged |

## Left out

- Processes, pipes, signals and `asyncio` sleeps are not modelled as effects. A spawn, a response line or an Amass run is an input to the operation that uses it (`SpawnOutcome`, `Reply`, `RunOutcome`). A timeout is one of those inputs, and the intelligence run of `mcp/amass_mcp_server.py` has none.
- JSON text is not modelled. Requests and replies are decoded values, and `json.dumps` output is replaced by the dictionary it renders. So the terminator the client appends to each request (`src/mcp_client.py:151`, `:277`) is not part of a modelled request; it is the two characters backslash and `n`, not a line break.
- The `timestamp` field (`time.time()`) is left out of the consolidated result.
- YAML loading is left out: the parsed document is the input of the configuration loaders.
- CrewAI (`Agent`, `Task`, `Crew.kickoff`), the MCP SDK (`MCPServerAdapter`, `stdio_server`, `server.run`) and logging are left out. The enumeration task's description text and the crew run are not modelled; `create_enumeration_task` is modelled only through its `tool_params`, as the record `TaskParams`.
- The agent's global client is the flag `initialized` of `EnumerateSubdomains`. Its `list_available_servers`, `get_enabled_servers`, `start_mcp_servers`, `stop_mcp_servers` and `get_server_status` only forward to the client, which is modelled. `quick_subdomain_enum` is `QuickSubdomainEnum`; its own `except` that wraps an exception into "Error performing quick subdomain enumeration: …" is not modelled, because `enumerate_subdomains` already turns every exception after the client check into its own error line.
- McpAdapter.Manager.Register: the `client_class` parameter of `register_server` (src/mcp_adapter.py:234) is not modelled; every caller uses its default, so the model always builds an `AmassClient`.
- `ReconnaissanceMCPTools.__exit__` only logs and calls the SDK adapter's exit, so it is left out.
- The static tool schemas returned by `list_tools` in both servers are left out.
- Scripts, examples and tests are not part of this model.
- Floating-point values do not occur in the modelled paths; JSON numbers are integers.
- `str.lower` is modelled on ASCII letters only.
- `str()` of a list or dict is not rendered element by element (`Json.Show`). Exception texts raised by the interpreter are reproduced only where the code formats them itself (`sequence item k: expected str instance`); other ones carry a fixed message.
- Consolidation.ConsolidateResults: subdomains that are not all strings are reported as an error instead of being compared the way Python would compare mixed types.
- SubdomainAgent.FormatResults: subdomains that are not all strings end in an error, as they do in Python, where `sorted` or `.lower()` raises. The model reports a fixed message instead of that exception's text.
- The quoting of names in the "Available tools" message (`repr` of a list) is approximated.
- The `MCPManager` of `mcp/adapter.py` creates an adapter table and a tool list that no operation of the class reads; they are left out.
- Registering a client under a name already in use replaces the old entry without stopping its process. The model replaces it the same way and does not track the orphaned process.
- Responses are matched to the server that was asked, not to the JSON-RPC id.
- Command-line arguments are kept as JSON values rather than converted to text.
- Text.NonBlankStripped: its own contract bounds only the length; that each kept piece is stripped and non-empty is `Text.NonBlankStrippedTrimmed`.
- ServerRegistry.EnabledIn: its own contract bounds only the length; membership and order are `EnabledInMembership` and `EnabledInAppend`.
- ServerSelection.NamedEnabled: its own contract bounds only the length; membership and order are `NamedEnabledMembership` and `NamedEnabledAppend`.
- AmassTool.CandidatesOf: its own contract bounds only the length; what the candidates are is stated by the lemmas beside it.
