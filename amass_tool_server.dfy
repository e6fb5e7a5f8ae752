/**
 * The stdio Amass tool server of mcp/servers/amass_mcp_server.py: its
 * `call_tool` handler builds the Amass argument vector for one of three tools
 * and shapes the run's outcome into a result dictionary. Running Amass is an
 * input (`RunOutcome`); the JSON text the handler sends is left out, and the
 * dictionary it would render is returned instead.
 */
module ToolServer {
  import opened Common
  import opened OrderedMaps
  import opened Json
  import Text

  // ---------------------------------------------------------------------
  // Output shaping in `run_amass_command`
  // ---------------------------------------------------------------------

  /** The subdomains reported for a successful run: the trimmed non-blank lines of the trimmed output, in order. */
  function Subdomains(stdout: string): (r: seq<string>)
    ensures forall i :: 0 <= i < |r| ==> r[i] != "" && Text.IsStripped(r[i])
  {
    Text.NonBlankStrippedTrimmed(Text.Split(Text.Strip(stdout), '\n'));
    Text.NonBlankStripped(Text.Split(Text.Strip(stdout), '\n'))
  }

  /** Clean line lists survive printing one per line and being read back. */
  lemma {:induction false} SubdomainsRoundTrip(ls: seq<string>)
    requires forall i :: 0 <= i < |ls| ==> ls[i] != "" && Text.IsStripped(ls[i]) && '\n' !in ls[i]
    ensures Subdomains(Text.Join(ls, "\n")) == ls
  {
    if ls == [] {
      assert Text.Strip("") == "";
      assert Text.Split("", '\n') == [""];
    } else {
      var j := Text.Join(ls, "\n");
      Text.JoinEnds(ls, "\n");
      Text.StripStripped(j);
      Text.SplitJoin(ls, '\n');
      Text.NonBlankStrippedClean(ls);
    }
  }

  /** The failure dictionary: `success` false, the message, and no subdomains. */
  function FailureResult(message: string): (r: OMap<Value>)
    ensures r.Valid() && r.keys == ["success", "error", "subdomains"]
    ensures r.values == map["success" := Bool(false), "error" := Str(message), "subdomains" := Arr([])]
    ensures "success" in r.values && r.values["success"] == Bool(false)
    ensures "subdomains" in r.values && r.values["subdomains"] == Arr([]) && "error" in r.values
  {
    OMap(["success", "error", "subdomains"],
      map["success" := Bool(false), "error" := Str(message), "subdomains" := Arr([])])
  }

  /** The success dictionary: the subdomains found, their count, and the error output. */
  function SuccessResult(subdomains: seq<string>, stderr: string): (r: OMap<Value>)
    ensures r.Valid() && r.keys == ["success", "subdomains", "count", "stderr"]
    ensures r.values == map["success" := Bool(true), "subdomains" := Arr(Strs(subdomains)),
                            "count" := Num(|subdomains|), "stderr" := Str(stderr)]
    ensures "success" in r.values && r.values["success"] == Bool(true)
    ensures "subdomains" in r.values && r.values["subdomains"] == Arr(Strs(subdomains))
    ensures "count" in r.values && r.values["count"] == Num(|subdomains|)
  {
    OMap(["success", "subdomains", "count", "stderr"],
      map["success" := Bool(true), "subdomains" := Arr(Strs(subdomains)),
          "count" := Num(|subdomains|), "stderr" := Str(stderr)])
  }

  /** The error text `run_amass_command` reports for a run that did not exit with status 0. */
  function FailureMessage(outcome: RunOutcome, timeout: Value): string {
    match outcome
    case TimedOut => "Command timed out after " + Show(timeout) + " seconds"
    case Threw(message) => "Exception occurred: " + message
    case Completed(_, _, stderr) => "Amass command failed: " + (if stderr != "" then stderr else "Unknown error")
  }

  /** A command whose logging line can be built: every element is a string. */
  predicate Loggable(command: seq<Value>) {
    JoinValues(command, " ").Ok?
  }

  /**
   * `run_amass_command`: the result dictionary for `command` run with limit
   * `timeout`. The command is joined with spaces for the log before anything
   * runs; when an element is not a string that join raises inside the `try`,
   * so `outcome` is never consulted and the exception's text is reported.
   */
  function RunResult(command: seq<Value>, outcome: RunOutcome, timeout: Value): (r: OMap<Value>)
    ensures r.Valid() && "success" in r.values && "subdomains" in r.values
    ensures r.values["success"] == Bool(Loggable(command) && outcome.Completed? && outcome.returnCode == 0)
    ensures !Loggable(command) ==> r == FailureResult("Exception occurred: " + JoinValues(command, " ").error)
    ensures !(Loggable(command) && outcome.Completed? && outcome.returnCode == 0) ==>
      r.values["subdomains"] == Arr([]) && "error" in r.values
    ensures Loggable(command) && outcome.Completed? && outcome.returnCode == 0 ==>
      r.values["subdomains"] == Arr(Strs(Subdomains(outcome.stdout)))
      && "count" in r.values && r.values["count"] == Num(|Subdomains(outcome.stdout)|)
  {
    var logged := JoinValues(command, " ");
    if logged.Err? then FailureResult("Exception occurred: " + logged.error)
    else if outcome.Completed? && outcome.returnCode == 0 then SuccessResult(Subdomains(outcome.stdout), outcome.stderr)
    else FailureResult(FailureMessage(outcome, timeout))
  }

  /** A command holding a non-string never runs: whatever running would give, the result is the join's failure. */
  lemma UnloggableNeverRuns(command: seq<Value>, k: nat, outcome: RunOutcome, timeout: Value)
    requires k < |command| && !command[k].Str?
    ensures RunResult(command, outcome, timeout) == FailureResult("Exception occurred: " + JoinValues(command, " ").error)
    ensures RunResult(command, outcome, timeout).values["success"] == Bool(false)
  {
    assert !Loggable(command);
  }

  // ---------------------------------------------------------------------
  // Argument vectors built in `call_tool`
  // ---------------------------------------------------------------------

  /** `amass enum -passive -d <domain>`, then `-config <file>` and `-w <wordlist>` when given. */
  method PassiveCommand(domain: Value, configFile: Value, wordlist: Value) returns (command: seq<Value>)
    ensures command == [Str("amass"), Str("enum"), Str("-passive"), Str("-d"), domain]
                     + (if Truthy(configFile) then [Str("-config"), configFile] else [])
                     + (if Truthy(wordlist) then [Str("-w"), wordlist] else [])
  {
    command := [Str("amass"), Str("enum"), Str("-passive"), Str("-d"), domain];
    if Truthy(configFile) {
      command := command + [Str("-config"), configFile];
    }
    if Truthy(wordlist) {
      command := command + [Str("-w"), wordlist];
    }
  }

  /**
   * `amass enum -active -d <domain>`, then `-config <file>` when given, then
   * `-brute` when brute force is on, followed by `-w <wordlist>` only in that case.
   */
  method ActiveCommand(domain: Value, configFile: Value, bruteForce: Value, wordlist: Value) returns (command: seq<Value>)
    ensures command == [Str("amass"), Str("enum"), Str("-active"), Str("-d"), domain]
                     + (if Truthy(configFile) then [Str("-config"), configFile] else [])
                     + (if Truthy(bruteForce) then [Str("-brute")] + (if Truthy(wordlist) then [Str("-w"), wordlist] else []) else [])
  {
    command := [Str("amass"), Str("enum"), Str("-active"), Str("-d"), domain];
    if Truthy(configFile) {
      command := command + [Str("-config"), configFile];
    }
    if Truthy(bruteForce) {
      command := command + [Str("-brute")];
      if Truthy(wordlist) {
        command := command + [Str("-w"), wordlist];
      }
    }
  }

  /** `amass intel -d <domain>`, then `-whois` when requested (the default), then `-config <file>` when given. */
  method IntelCommand(domain: Value, whois: Value, configFile: Value) returns (command: seq<Value>)
    ensures command == [Str("amass"), Str("intel"), Str("-d"), domain]
                     + (if Truthy(whois) then [Str("-whois")] else [])
                     + (if Truthy(configFile) then [Str("-config"), configFile] else [])
  {
    command := [Str("amass"), Str("intel"), Str("-d"), domain];
    if Truthy(whois) {
      command := command + [Str("-whois")];
    }
    if Truthy(configFile) {
      command := command + [Str("-config"), configFile];
    }
  }

  /** What `call_tool` answers: a plain text, or a run (its command and limit) and the result dictionary sent as JSON. */
  datatype Reply = Text(text: string) | Ran(command: seq<Value>, timeout: Value, result: OMap<Value>)

  const DomainRequired := "Error: Domain parameter is required"

  /** The value of `key` in the arguments, `default` when absent. */
  function Arg(arguments: OMap<Value>, key: string, default: Value): Value {
    GetOr(arguments, key, default)
  }

  /**
   * `call_tool`: dispatch on the tool name. A missing or falsy domain answers
   * with a text and runs nothing; `run` is what running the built command gave.
   */
  method CallTool(name: string, arguments: OMap<Value>, run: RunOutcome) returns (reply: Reply)
    ensures name != "amass_passive_enum" && name != "amass_active_enum" && name != "amass_intel" ==>
      reply == Text("Error: Unknown tool '" + name + "'")
    ensures (name == "amass_passive_enum" || name == "amass_active_enum" || name == "amass_intel") ==>
      (!Truthy(Arg(arguments, "domain", Null)) <==> reply == Text(DomainRequired))
    ensures (name == "amass_passive_enum" || name == "amass_active_enum" || name == "amass_intel") ==>
      (Truthy(Arg(arguments, "domain", Null)) ==> reply.Ran?)
    ensures reply.Ran? ==> Truthy(Arg(arguments, "domain", Null)) && reply.result == RunResult(reply.command, run, reply.timeout)
    ensures reply.Ran? && !Arg(arguments, "domain", Null).Str? ==> reply.result.values["success"] == Bool(false)
    ensures reply.Ran? && name == "amass_passive_enum" ==>
      && reply.timeout == Arg(arguments, "timeout", Num(300))
      && reply.command == [Str("amass"), Str("enum"), Str("-passive"), Str("-d"), Arg(arguments, "domain", Null)]
           + (if Truthy(Arg(arguments, "config_file", Str(""))) then [Str("-config"), Arg(arguments, "config_file", Str(""))] else [])
           + (if Truthy(Arg(arguments, "wordlist", Str(""))) then [Str("-w"), Arg(arguments, "wordlist", Str(""))] else [])
    ensures reply.Ran? && name == "amass_active_enum" ==>
      && reply.timeout == Arg(arguments, "timeout", Num(600))
      && reply.command == [Str("amass"), Str("enum"), Str("-active"), Str("-d"), Arg(arguments, "domain", Null)]
           + (if Truthy(Arg(arguments, "config_file", Str(""))) then [Str("-config"), Arg(arguments, "config_file", Str(""))] else [])
           + (if Truthy(Arg(arguments, "brute_force", Bool(false)))
              then [Str("-brute")] + (if Truthy(Arg(arguments, "wordlist", Str(""))) then [Str("-w"), Arg(arguments, "wordlist", Str(""))] else [])
              else [])
    ensures reply.Ran? && name == "amass_intel" ==>
      && reply.timeout == Num(300)
      && reply.command == [Str("amass"), Str("intel"), Str("-d"), Arg(arguments, "domain", Null)]
           + (if Truthy(Arg(arguments, "whois", Bool(true))) then [Str("-whois")] else [])
           + (if Truthy(Arg(arguments, "config_file", Str(""))) then [Str("-config"), Arg(arguments, "config_file", Str(""))] else [])
  {
    var domain := Arg(arguments, "domain", Null);
    if name == "amass_passive_enum" {
      var configFile := Arg(arguments, "config_file", Str(""));
      var timeout := Arg(arguments, "timeout", Num(300));
      var wordlist := Arg(arguments, "wordlist", Str(""));
      if !Truthy(domain) {
        return Text(DomainRequired);
      }
      var command := PassiveCommand(domain, configFile, wordlist);
      if !domain.Str? {
        UnloggableNeverRuns(command, 4, run, timeout);
      }
      reply := Ran(command, timeout, RunResult(command, run, timeout));
    } else if name == "amass_active_enum" {
      var configFile := Arg(arguments, "config_file", Str(""));
      var timeout := Arg(arguments, "timeout", Num(600));
      var bruteForce := Arg(arguments, "brute_force", Bool(false));
      var wordlist := Arg(arguments, "wordlist", Str(""));
      if !Truthy(domain) {
        return Text(DomainRequired);
      }
      var command := ActiveCommand(domain, configFile, bruteForce, wordlist);
      if !domain.Str? {
        UnloggableNeverRuns(command, 4, run, timeout);
      }
      reply := Ran(command, timeout, RunResult(command, run, timeout));
    } else if name == "amass_intel" {
      var whois := Arg(arguments, "whois", Bool(true));
      var configFile := Arg(arguments, "config_file", Str(""));
      if !Truthy(domain) {
        return Text(DomainRequired);
      }
      var command := IntelCommand(domain, whois, configFile);
      if !domain.Str? {
        UnloggableNeverRuns(command, 3, run, Num(300));
      }
      reply := Ran(command, Num(300), RunResult(command, run, Num(300)));
    } else {
      reply := Text("Error: Unknown tool '" + name + "'");
    }
  }
}
