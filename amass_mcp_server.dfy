/**
 * The Amass MCP server of mcp/amass_mcp_server.py: `handle_call_tool`
 * dispatches to the passive, active and intelligence handlers, which build
 * the Amass argument vector and shape the run's output. Running Amass is an
 * input (`RunOutcome`); the JSON text sent back is left out, and the
 * dictionary it would render is returned instead.
 */
module AmassServer {
  import opened Common
  import opened OrderedMaps
  import opened Json
  import Text

  // ---------------------------------------------------------------------
  // Output shaping
  // ---------------------------------------------------------------------

  /** `r.strip()` is non-empty. */
  predicate HasText(line: string) {
    !Text.IsBlank(line)
  }

  /** `[r for r in stdout.strip().split('\n') if r.strip()]`: the non-blank lines, each kept as it is. */
  function ResultLines(stdout: string): (r: seq<string>)
    ensures |r| <= |Text.Split(Text.Strip(stdout), '\n')|
  {
    Filter(Text.Split(Text.Strip(stdout), '\n'), HasText)
  }

  /** A line is reported exactly when it is a non-blank line of the trimmed output. */
  lemma ResultLinesMembership(stdout: string, line: string)
    ensures line in ResultLines(stdout) <==> line in Text.Split(Text.Strip(stdout), '\n') && HasText(line)
  {
    FilterMembership(Text.Split(Text.Strip(stdout), '\n'), HasText, line);
  }

  /**
   * Non-blank lines printed one per line are read back unchanged, inner
   * indentation included; only the ends of the whole output are trimmed.
   */
  lemma {:induction false} ResultLinesRoundTrip(ls: seq<string>)
    requires forall i :: 0 <= i < |ls| ==> HasText(ls[i]) && '\n' !in ls[i]
    requires ls != [] ==> Text.IsStripped(ls[0]) && Text.IsStripped(ls[|ls| - 1])
    ensures ResultLines(Text.Join(ls, "\n")) == ls
  {
    if ls == [] {
      assert Text.Strip("") == "";
      assert Text.Split("", '\n') == [""];
      assert !HasText("");
      assert Filter([""], HasText) == Filter([], HasText) + [];
    } else {
      var j := Text.Join(ls, "\n");
      Text.JoinEnds(ls, "\n");
      Text.StripStripped(j);
      Text.SplitJoin(ls, '\n');
      FilterKeepsAll(ls, HasText);
    }
  }

  /** `intel_data.split('\n') if intel_data else []` for `intel_data = stdout.strip()`. */
  function IntelLines(stdout: string): (r: seq<string>)
    ensures r == [] <==> Text.IsBlank(stdout)
  {
    var data := Text.Strip(stdout);
    if data != "" then Text.Split(data, '\n') else []
  }

  /** Joining the intelligence lines with newlines gives the trimmed output back. */
  lemma IntelLinesJoin(stdout: string)
    ensures Text.Join(IntelLines(stdout), "\n") == Text.Strip(stdout)
  {
    Text.JoinSplit(Text.Strip(stdout), '\n');
  }

  /** What a handler returns: a plain text, or a dictionary sent as indented JSON. */
  datatype Content = Plain(text: string) | Dumped(output: OMap<Value>)

  /** The two enumeration handlers. */
  datatype Enumeration = Passive | Active

  /** The `"method"` field of the output. */
  function MethodName(kind: Enumeration): string {
    match kind
    case Passive => "passive"
    case Active => "active"
  }

  /** The capitalised name used in the timeout message. */
  function Label(kind: Enumeration): string {
    match kind
    case Passive => "Passive"
    case Active => "Active"
  }

  /**
   * The output dictionary of a successful enumeration; `bruteForce` is the
   * `brute_force` argument, present for the active handler only.
   */
  function EnumerationOutput(kind: Enumeration, domain: Value, bruteForce: Option<Value>, lines: seq<string>): (r: OMap<Value>)
    ensures r.keys == ["status", "domain", "method"]
                      + (if bruteForce.Some? then ["brute_force_enabled"] else [])
                      + ["subdomains_found", "subdomains"]
    ensures r.values == map["status" := Str("success"), "domain" := domain, "method" := Str(MethodName(kind)),
                            "subdomains_found" := Num(|lines|), "subdomains" := Arr(Strs(lines))]
                        + (if bruteForce.Some? then map["brute_force_enabled" := bruteForce.value] else map[])
  {
    var common := map["status" := Str("success"), "domain" := domain, "method" := Str(MethodName(kind)),
                       "subdomains_found" := Num(|lines|), "subdomains" := Arr(Strs(lines))];
    match bruteForce
    case None =>
      OMap(["status", "domain", "method", "subdomains_found", "subdomains"], common)
    case Some(b) =>
      OMap(["status", "domain", "method", "brute_force_enabled", "subdomains_found", "subdomains"],
        common + map["brute_force_enabled" := b])
  }

  /**
   * The result of an enumeration run with limit `timeout`: the output on exit
   * code 0, otherwise the message of the exception the handler raises (an
   * exception from starting the process propagates unchanged).
   */
  function EnumerationResult(kind: Enumeration, domain: Value, bruteForce: Option<Value>, timeout: Value, run: RunOutcome)
    : (r: Result<Content, string>)
    ensures r.Ok? <==> run.Completed? && run.returnCode == 0
    ensures r.Ok? ==> r.value == Dumped(EnumerationOutput(kind, domain, bruteForce, ResultLines(run.stdout)))
    ensures run.Completed? && run.returnCode != 0 ==> r == Err("Amass execution failed: " + Text.Strip(run.stderr))
    ensures run.TimedOut? ==> r == Err(Label(kind) + " enumeration timed out after " + Show(timeout) + " seconds")
    ensures run.Threw? ==> r == Err(run.message)
  {
    match run
    case Completed(code, stdout, stderr) =>
      if code == 0 then Ok(Dumped(EnumerationOutput(kind, domain, bruteForce, ResultLines(stdout))))
      else Err("Amass execution failed: " + Text.Strip(stderr))
    case TimedOut => Err(Label(kind) + " enumeration timed out after " + Show(timeout) + " seconds")
    case Threw(message) => Err(message)
  }

  const IntelPrefix := "Intelligence gathering error: "

  /**
   * The result of the intelligence run, which has no time limit. Every
   * exception, including the one for a non-string `output_format`, is
   * re-raised with the "Intelligence gathering error" prefix.
   */
  function IntelResult(domain: Value, outputFormat: Value, run: RunOutcome): (r: Result<Content, string>)
    requires !run.TimedOut?
    ensures r.Ok? <==> run.Completed? && run.returnCode == 0 && outputFormat.Str?
    ensures r.Err? ==> Text.StartsWith(r.error, IntelPrefix)
    ensures r.Ok? && Text.Lower(outputFormat.s) == "json" ==>
      r.value.Dumped? && r.value.output.keys == ["status", "domain", "intelligence"]
      && r.value.output.values == map["status" := Str("success"), "domain" := domain,
                                      "intelligence" := Arr(Strs(IntelLines(run.stdout)))]
    ensures r.Ok? && Text.Lower(outputFormat.s) != "json" ==> r.value == Plain(Text.Strip(run.stdout))
    ensures run.Completed? && run.returnCode != 0 ==>
      r == Err(IntelPrefix + "Amass intelligence gathering failed: " + Text.Strip(run.stderr))
  {
    match run
    case Threw(message) => Err(IntelPrefix + message)
    case Completed(code, stdout, stderr) =>
      if code != 0 then Err(IntelPrefix + "Amass intelligence gathering failed: " + Text.Strip(stderr))
      else if !outputFormat.Str? then Err(IntelPrefix + "'" + TypeName(outputFormat) + "' object has no attribute 'lower'")
      else if Text.Lower(outputFormat.s) == "json" then
        Ok(Dumped(OMap(["status", "domain", "intelligence"],
          map["status" := Str("success"), "domain" := domain, "intelligence" := Arr(Strs(IntelLines(stdout)))])))
      else Ok(Plain(Text.Strip(stdout)))
  }

  // ---------------------------------------------------------------------
  // Handlers
  // ---------------------------------------------------------------------

  /** The passive argument vector: `-config <file>` is added when a configuration file is given. */
  method PassiveCommand(domain: Value, configPath: Value) returns (cmd: seq<Value>)
    ensures cmd == [Str("amass"), Str("enum"), Str("-passive"), Str("-d"), domain]
                   + (if Truthy(configPath) then [Str("-config"), configPath] else [])
  {
    cmd := [Str("amass"), Str("enum"), Str("-passive"), Str("-d"), domain];
    if Truthy(configPath) {
      cmd := cmd + [Str("-config"), configPath];
    }
  }

  /**
   * The active argument vector: `-brute` when brute force is on, `-w <wordlist>`
   * whenever a wordlist is given (brute force or not), then `-config <file>`.
   */
  method ActiveCommand(domain: Value, bruteForce: Value, wordlist: Value, configPath: Value) returns (cmd: seq<Value>)
    ensures cmd == [Str("amass"), Str("enum"), Str("-active"), Str("-d"), domain]
                   + (if Truthy(bruteForce) then [Str("-brute")] else [])
                   + (if Truthy(wordlist) then [Str("-w"), wordlist] else [])
                   + (if Truthy(configPath) then [Str("-config"), configPath] else [])
  {
    cmd := [Str("amass"), Str("enum"), Str("-active"), Str("-d"), domain];
    if Truthy(bruteForce) {
      cmd := cmd + [Str("-brute")];
    }
    if Truthy(wordlist) {
      cmd := cmd + [Str("-w"), wordlist];
    }
    if Truthy(configPath) {
      cmd := cmd + [Str("-config"), configPath];
    }
  }

  /** `arguments.get(key, default)`. */
  function Arg(arguments: OMap<Value>, key: string, default: Value): Value {
    GetOr(arguments, key, default)
  }

  /** `_passive_enumeration`: returns the result and the argument vector run, if any. */
  method PassiveEnumeration(arguments: OMap<Value>, run: RunOutcome) returns (r: Result<Content, string>, command: Option<seq<Value>>)
    ensures !Truthy(Arg(arguments, "domain", Null)) ==>
      r == Err("Domain is required for passive enumeration") && command.None?
    ensures var domain := Arg(arguments, "domain", Null);
      var configPath := Arg(arguments, "config", Str(""));
      Truthy(domain) ==>
        command == Some([Str("amass"), Str("enum"), Str("-passive"), Str("-d"), domain]
                        + (if Truthy(configPath) then [Str("-config"), configPath] else []))
        && r == EnumerationResult(Passive, domain, None, Arg(arguments, "timeout", Num(300)), run)
  {
    var domain := Arg(arguments, "domain", Null);
    var configPath := Arg(arguments, "config", Str(""));
    var timeout := Arg(arguments, "timeout", Num(300));
    if !Truthy(domain) {
      return Err("Domain is required for passive enumeration"), None;
    }
    var cmd := PassiveCommand(domain, configPath);
    command := Some(cmd);
    r := EnumerationResult(Passive, domain, None, timeout, run);
  }

  /** `_active_enumeration`: returns the result and the argument vector run, if any. */
  method ActiveEnumeration(arguments: OMap<Value>, run: RunOutcome) returns (r: Result<Content, string>, command: Option<seq<Value>>)
    ensures !Truthy(Arg(arguments, "domain", Null)) ==>
      r == Err("Domain is required for active enumeration") && command.None?
    ensures var domain := Arg(arguments, "domain", Null);
      var bruteForce := Arg(arguments, "brute_force", Bool(false));
      var wordlist := Arg(arguments, "wordlist", Str(""));
      var configPath := Arg(arguments, "config", Str(""));
      Truthy(domain) ==>
        command == Some([Str("amass"), Str("enum"), Str("-active"), Str("-d"), domain]
                        + (if Truthy(bruteForce) then [Str("-brute")] else [])
                        + (if Truthy(wordlist) then [Str("-w"), wordlist] else [])
                        + (if Truthy(configPath) then [Str("-config"), configPath] else []))
        && r == EnumerationResult(Active, domain, Some(bruteForce), Arg(arguments, "timeout", Num(600)), run)
  {
    var domain := Arg(arguments, "domain", Null);
    var bruteForce := Arg(arguments, "brute_force", Bool(false));
    var wordlist := Arg(arguments, "wordlist", Str(""));
    var configPath := Arg(arguments, "config", Str(""));
    var timeout := Arg(arguments, "timeout", Num(600));
    if !Truthy(domain) {
      return Err("Domain is required for active enumeration"), None;
    }
    var cmd := ActiveCommand(domain, bruteForce, wordlist, configPath);
    command := Some(cmd);
    r := EnumerationResult(Active, domain, Some(bruteForce), timeout, run);
  }

  /** `_subdomain_intelligence`: always exactly `amass intel -d <domain>`. */
  method SubdomainIntelligence(arguments: OMap<Value>, run: RunOutcome) returns (r: Result<Content, string>, command: Option<seq<Value>>)
    requires !run.TimedOut?
    ensures !Truthy(Arg(arguments, "domain", Null)) ==>
      r == Err("Domain is required for intelligence gathering") && command.None?
    ensures var domain := Arg(arguments, "domain", Null);
      Truthy(domain) ==>
        command == Some([Str("amass"), Str("intel"), Str("-d"), domain])
        && r == IntelResult(domain, Arg(arguments, "output_format", Str("json")), run)
  {
    var domain := Arg(arguments, "domain", Null);
    var outputFormat := Arg(arguments, "output_format", Str("json"));
    if !Truthy(domain) {
      return Err("Domain is required for intelligence gathering"), None;
    }
    command := Some([Str("amass"), Str("intel"), Str("-d"), domain]);
    r := IntelResult(domain, outputFormat, run);
  }

  /** The domain argument is present and truthy (`not domain` fails). */
  predicate HasDomain(arguments: OMap<Value>) {
    Truthy(GetOr(arguments, "domain", Null))
  }

  /** The tool names `handle_call_tool` knows. */
  predicate KnownTool(name: string) {
    name == "passive_subdomain_enum" || name == "active_subdomain_enum" || name == "subdomain_intel"
  }

  /** `if not arguments: arguments = {}`: a missing argument dictionary is an empty one. */
  function ArgumentsOrEmpty(arguments: Option<OMap<Value>>): (r: OMap<Value>)
    ensures arguments.Some? ==> r.values == arguments.value.values
    ensures arguments.None? ==> r.values == map[]
  {
    if arguments.Some? && Truthy(Obj(arguments.value)) then arguments.value else Empty()
  }

  /** The message of the `ValueError` raised for an unknown tool name. */
  function UnknownTool(name: string): string {
    "Unknown tool: " + name
  }

  /** The message each handler raises when the domain is missing. */
  function MissingDomain(name: string): string {
    if name == "passive_subdomain_enum" then "Domain is required for passive enumeration"
    else if name == "active_subdomain_enum" then "Domain is required for active enumeration"
    else "Domain is required for intelligence gathering"
  }

  /** The single text item sent back: the content, or `Error: <message>` for a raised exception. */
  function Answer(r: Result<Content, string>): (c: Content)
    ensures r.Err? ==> c == Plain("Error: " + r.error)
    ensures r.Ok? ==> c == r.value
  {
    if r.Ok? then r.value else Plain("Error: " + r.error)
  }

  /**
   * `handle_call_tool`: never raises. An unknown name or a handler's exception
   * becomes a single `Error: ...` text. `run` is what running the built
   * command gave; the intelligence run has no time limit, so it cannot time out.
   */
  method HandleCallTool(name: string, arguments: Option<OMap<Value>>, run: RunOutcome)
    returns (reply: Content, command: Option<seq<Value>>)
    requires name == "subdomain_intel" ==> !run.TimedOut?
    ensures !KnownTool(name) ==> reply == Plain("Error: " + UnknownTool(name)) && command.None?
    ensures command.Some? <==> KnownTool(name) && HasDomain(ArgumentsOrEmpty(arguments))
    ensures KnownTool(name) && !HasDomain(ArgumentsOrEmpty(arguments)) ==>
      reply == Plain("Error: " + MissingDomain(name))
    ensures var args := ArgumentsOrEmpty(arguments);
      name == "passive_subdomain_enum" && HasDomain(args) ==>
        reply == Answer(EnumerationResult(Passive, args.values["domain"], None, GetOr(args, "timeout", Num(300)), run))
        && command == Some([Str("amass"), Str("enum"), Str("-passive"), Str("-d"), args.values["domain"]]
                           + (if Truthy(GetOr(args, "config", Str(""))) then [Str("-config"), GetOr(args, "config", Str(""))] else []))
    ensures var args := ArgumentsOrEmpty(arguments);
      name == "active_subdomain_enum" && HasDomain(args) ==>
        reply == Answer(EnumerationResult(Active, args.values["domain"], Some(GetOr(args, "brute_force", Bool(false))),
                                          GetOr(args, "timeout", Num(600)), run))
        && command == Some([Str("amass"), Str("enum"), Str("-active"), Str("-d"), args.values["domain"]]
                           + (if Truthy(GetOr(args, "brute_force", Bool(false))) then [Str("-brute")] else [])
                           + (if Truthy(GetOr(args, "wordlist", Str(""))) then [Str("-w"), GetOr(args, "wordlist", Str(""))] else [])
                           + (if Truthy(GetOr(args, "config", Str(""))) then [Str("-config"), GetOr(args, "config", Str(""))] else []))
    ensures var args := ArgumentsOrEmpty(arguments);
      name == "subdomain_intel" && HasDomain(args) ==>
        reply == Answer(IntelResult(args.values["domain"], GetOr(args, "output_format", Str("json")), run))
        && command == Some([Str("amass"), Str("intel"), Str("-d"), args.values["domain"]])
  {
    var r: Result<Content, string>;
    r, command := Dispatch(name, ArgumentsOrEmpty(arguments), run);
    reply := Answer(r);
  }

  /** The dispatch inside the `try` of `handle_call_tool`: the handler's result, or the exception it raises. */
  method Dispatch(name: string, args: OMap<Value>, run: RunOutcome)
    returns (r: Result<Content, string>, command: Option<seq<Value>>)
    requires name == "subdomain_intel" ==> !run.TimedOut?
    ensures !KnownTool(name) ==> r == Err(UnknownTool(name)) && command.None?
    ensures command.Some? <==> KnownTool(name) && HasDomain(args)
    ensures KnownTool(name) && !HasDomain(args) ==> r == Err(MissingDomain(name))
    ensures name == "passive_subdomain_enum" && HasDomain(args) ==>
      r == EnumerationResult(Passive, args.values["domain"], None, GetOr(args, "timeout", Num(300)), run)
      && command == Some([Str("amass"), Str("enum"), Str("-passive"), Str("-d"), args.values["domain"]]
                         + (if Truthy(GetOr(args, "config", Str(""))) then [Str("-config"), GetOr(args, "config", Str(""))] else []))
    ensures name == "active_subdomain_enum" && HasDomain(args) ==>
      r == EnumerationResult(Active, args.values["domain"], Some(GetOr(args, "brute_force", Bool(false))),
                             GetOr(args, "timeout", Num(600)), run)
      && command == Some([Str("amass"), Str("enum"), Str("-active"), Str("-d"), args.values["domain"]]
                         + (if Truthy(GetOr(args, "brute_force", Bool(false))) then [Str("-brute")] else [])
                         + (if Truthy(GetOr(args, "wordlist", Str(""))) then [Str("-w"), GetOr(args, "wordlist", Str(""))] else [])
                         + (if Truthy(GetOr(args, "config", Str(""))) then [Str("-config"), GetOr(args, "config", Str(""))] else []))
    ensures name == "subdomain_intel" && HasDomain(args) ==>
      r == IntelResult(args.values["domain"], GetOr(args, "output_format", Str("json")), run)
      && command == Some([Str("amass"), Str("intel"), Str("-d"), args.values["domain"]])
  {
    if name == "passive_subdomain_enum" {
      r, command := PassiveEnumeration(args, run);
    } else if name == "active_subdomain_enum" {
      r, command := ActiveEnumeration(args, run);
    } else if name == "subdomain_intel" {
      r, command := SubdomainIntelligence(args, run);
    } else {
      r, command := Err(UnknownTool(name)), None;
    }
  }

  /** A dictionary is only ever sent back for a run that exited with code 0; every other reply is a text. */
  lemma DumpedOnlyOnSuccess(kind: Enumeration, domain: Value, bruteForce: Option<Value>, timeout: Value,
                            outputFormat: Value, run: RunOutcome)
    ensures Answer(EnumerationResult(kind, domain, bruteForce, timeout, run)).Dumped? <==> run.Completed? && run.returnCode == 0
    ensures !run.TimedOut? && Answer(IntelResult(domain, outputFormat, run)).Dumped? ==> run.Completed? && run.returnCode == 0
  {
  }
}
