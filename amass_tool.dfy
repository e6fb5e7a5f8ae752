/**
 * `AmassMCPTool` of src/tools/amass_mcp.py: the CrewAI tool that validates
 * its domain, loads the server configuration, picks the passive or active
 * enumeration tool among those the server lists, and calls it with the
 * domain. Listing tools and calling one go through the MCP SDK, so the tool
 * list and the call's result are inputs.
 */
module AmassTool {
  import opened Common
  import opened OrderedMaps
  import opened Json
  import Text
  import opened ServerConfigFile

  const DefaultServerName := "amass-mcp"

  /** `enumeration_type.lower().strip()`. */
  function NormalizedType(enumerationType: string): string {
    Text.Strip(Text.Lower(enumerationType))
  }

  /** `t.get("name") or ""`, for a listed tool whose name is `name` (`None` when absent). */
  function NameOrEmpty(name: Option<string>): string {
    if name.Some? then name.value else ""
  }

  /** A listed tool is a candidate for type `et` ("passive" or "active") when its lower-cased name contains `et`. */
  predicate Selectable(et: string, name: Option<string>) {
    (et == "passive" || et == "active") && Text.Contains(Text.Lower(NameOrEmpty(name)), et)
  }

  /** A tool with no name is never a candidate. */
  lemma NamelessNeverSelectable(et: string)
    ensures !Selectable(et, None)
  {
    if et == "passive" || et == "active" {
      assert Text.Lower("") == "";
      assert !Text.StartsWith("", et);
    }
  }

  /** No listed tool is a candidate. */
  predicate NoneSelectable(tools: seq<Option<string>>, et: string) {
    forall i :: 0 <= i < |tools| ==> !Selectable(et, tools[i])
  }

  /** Tool `i` is the first candidate in list order. */
  predicate FirstSelectable(tools: seq<Option<string>>, et: string, i: int) {
    0 <= i < |tools| && Selectable(et, tools[i]) && forall j :: 0 <= j < i ==> !Selectable(et, tools[j])
  }

  /**
   * The candidate list the first loop of `_select_tool_name` builds: the names
   * of the selectable tools, in list order.
   */
  function CandidatesOf(tools: seq<Option<string>>, et: string): (r: seq<string>)
    ensures |r| <= |tools|
  {
    if tools == [] then []
    else
      var n := |tools| - 1;
      CandidatesOf(tools[..n], et) + if Selectable(et, tools[n]) then [NameOrEmpty(tools[n])] else []
  }

  /** Every candidate contains the type, so the "prefer exact matches" scan stops at the first one. */
  lemma {:induction false} CandidatesContain(tools: seq<Option<string>>, et: string)
    ensures forall k :: 0 <= k < |CandidatesOf(tools, et)| ==> Text.Contains(Text.Lower(CandidatesOf(tools, et)[k]), et)
    decreases |tools|
  {
    if tools != [] {
      CandidatesContain(tools[..|tools| - 1], et);
    }
  }

  /** There are candidates exactly when some tool is selectable, and the first is the first selectable tool's name. */
  lemma CandidatesFirst(tools: seq<Option<string>>, et: string)
    ensures CandidatesOf(tools, et) == [] <==> NoneSelectable(tools, et)
    ensures CandidatesOf(tools, et) != [] ==>
      exists i :: FirstSelectable(tools, et, i) && tools[i] == Some(CandidatesOf(tools, et)[0])
  {
    CandidatesNone(tools, et);
    if CandidatesOf(tools, et) != [] {
      CandidatesHead(tools, et);
    }
  }

  /** There are no candidates exactly when no tool is selectable. */
  lemma {:induction false} CandidatesNone(tools: seq<Option<string>>, et: string)
    ensures CandidatesOf(tools, et) == [] <==> NoneSelectable(tools, et)
    decreases |tools|
  {
    if tools != [] {
      var n := |tools| - 1;
      var init := tools[..n];
      CandidatesNone(init, et);
      NoneSelectableSnoc(tools, et);
    }
  }

  /** A list has no selectable tool when neither its initial part nor its last tool has one. */
  lemma NoneSelectableSnoc(tools: seq<Option<string>>, et: string)
    requires tools != []
    ensures NoneSelectable(tools, et) <==> NoneSelectable(tools[..|tools| - 1], et) && !Selectable(et, tools[|tools| - 1])
  {
    var init := tools[..|tools| - 1];
    assert forall i :: 0 <= i < |init| ==> init[i] == tools[i];
  }

  /** The first candidate is the name of the first selectable tool. */
  lemma {:induction false} CandidatesHead(tools: seq<Option<string>>, et: string)
    requires CandidatesOf(tools, et) != []
    ensures exists i :: FirstSelectable(tools, et, i) && tools[i] == Some(CandidatesOf(tools, et)[0])
    decreases |tools|
  {
    var n := |tools| - 1;
    var init := tools[..n];
    assert forall i :: 0 <= i < n ==> init[i] == tools[i];
    NamelessNeverSelectable(et);
    var c := CandidatesOf(init, et);
    if c != [] {
      CandidatesHead(init, et);
      var i :| FirstSelectable(init, et, i) && init[i] == Some(c[0]);
      assert FirstSelectable(tools, et, i);
    } else {
      CandidatesNone(init, et);
      assert FirstSelectable(tools, et, n);
    }
  }

  /** One turn of the candidate loop. */
  lemma CandidatesStep(tools: seq<Option<string>>, i: nat, et: string)
    requires i < |tools|
    ensures CandidatesOf(tools[..i + 1], et) ==
      CandidatesOf(tools[..i], et) + if Selectable(et, tools[i]) then [NameOrEmpty(tools[i])] else []
  {
    assert tools[..i + 1][..i] == tools[..i];
  }

  /**
   * `_select_tool_name`: the name of the first listed tool whose lower-cased
   * name contains the normalised type, which must be "passive" or "active";
   * `None` when there is none.
   */
  method SelectToolName(tools: seq<Option<string>>, enumerationType: string) returns (r: Option<string>)
    ensures r.None? <==> NoneSelectable(tools, NormalizedType(enumerationType))
    ensures r.Some? ==> exists i :: FirstSelectable(tools, NormalizedType(enumerationType), i) && tools[i] == r
    ensures NormalizedType(enumerationType) != "passive" && NormalizedType(enumerationType) != "active" ==> r.None?
  {
    r := SelectForType(tools, NormalizedType(enumerationType));
  }

  /**
   * The two loops of `_select_tool_name` for the normalised type `et`: collect
   * the candidates, then return the first one containing `et`. That is always
   * the first candidate, so the "prefer exact matches" scan changes nothing.
   */
  method SelectForType(tools: seq<Option<string>>, et: string) returns (r: Option<string>)
    ensures r.None? <==> NoneSelectable(tools, et)
    ensures r.Some? ==> exists i :: FirstSelectable(tools, et, i) && tools[i] == r
  {
    var candidates := CollectCandidates(tools, et);
    r := FirstContaining(candidates, et);
    CandidatesContain(tools, et);
    CandidatesFirst(tools, et);
    if candidates != [] {
      assert Text.Contains(Text.Lower(candidates[0]), et);
      var k :| 0 <= k < |candidates| && r.value == candidates[k]
        && forall j :: 0 <= j < k ==> !Text.Contains(Text.Lower(candidates[j]), et);
      assert k == 0;
    }
  }

  /** The first loop of `_select_tool_name`: the names of the selectable tools, in list order. */
  method CollectCandidates(tools: seq<Option<string>>, et: string) returns (candidates: seq<string>)
    ensures candidates == CandidatesOf(tools, et)
  {
    candidates := [];
    var i := 0;
    while i < |tools|
      invariant 0 <= i <= |tools|
      invariant candidates == CandidatesOf(tools[..i], et)
    {
      CandidatesStep(tools, i, et);
      var name := Text.Lower(NameOrEmpty(tools[i]));
      if et == "passive" && Text.Contains(name, "passive") {
        candidates := candidates + [NameOrEmpty(tools[i])];
      }
      if et == "active" && Text.Contains(name, "active") {
        candidates := candidates + [NameOrEmpty(tools[i])];
      }
      i := i + 1;
    }
    assert tools[..i] == tools;
  }

  /** The second loop of `_select_tool_name`: the first candidate whose lower-cased name contains `et`. */
  method FirstContaining(candidates: seq<string>, et: string) returns (r: Option<string>)
    ensures r.None? ==> forall j :: 0 <= j < |candidates| ==> !Text.Contains(Text.Lower(candidates[j]), et)
    ensures r.Some? ==> exists k :: (0 <= k < |candidates| && r.value == candidates[k]
      && Text.Contains(Text.Lower(candidates[k]), et)
      && forall j :: 0 <= j < k ==> !Text.Contains(Text.Lower(candidates[j]), et))
  {
    var k := 0;
    while k < |candidates|
      invariant 0 <= k <= |candidates|
      invariant forall j :: 0 <= j < k ==> !Text.Contains(Text.Lower(candidates[j]), et)
    {
      if Text.Contains(Text.Lower(candidates[k]), et) {
        return Some(candidates[k]);
      }
      k := k + 1;
    }
    r := None;
  }

  /** The call `_run` makes: a tool name and its arguments. */
  datatype ToolCall = ToolCall(tool: string, arguments: OMap<Value>)

  /** `domain` passes `not domain or not isinstance(domain, str)`: a non-empty string. */
  predicate ValidDomain(domain: Value) {
    domain.Str? && domain.s != ""
  }

  const DomainMessage := "Parameter 'domain' must be a non-empty string."

  /** `repr` of the list of listed names; quotes inside a name are not escaped here. */
  function ShowNames(tools: seq<Option<string>>): string {
    "[" + Text.Join(seq(|tools|, i requires 0 <= i < |tools| =>
      if tools[i].Some? then "'" + tools[i].value + "'" else "None"), ", ") + "]"
  }

  function NoToolMessage(enumerationType: string, tools: seq<Option<string>>): string {
    "No suitable MCP tool found for enumeration_type='" + enumerationType + "'. Available tools: " + ShowNames(tools)
  }

  /** `str(result)`, for what the call returned. */
  function Normalize(result: Value): (s: string)
    ensures result.Str? ==> s == result.s
  {
    if result.Str? then result.s else Show(result)
  }

  /**
   * `_run`. `file` is the parsed servers file (see `LoadMcpServerConfig`),
   * `tools` the names the server lists and `result` what the tool call
   * returns. `sent` is the call made, if any.
   */
  method Run(serverName: string, domain: Value, enumerationType: string, file: Option<Value>,
             tools: seq<Option<string>>, result: Value)
    returns (r: Result<string, LoadError>, sent: Option<ToolCall>)
    ensures !ValidDomain(domain) ==> r == Err(ToolError(DomainMessage)) && sent.None?
    ensures var load := LoadMcpServerConfig(serverName, DefaultServersFile, file);
      ValidDomain(domain) && load.Err? ==> r == Err(load.error) && sent.None?
    ensures var load := LoadMcpServerConfig(serverName, DefaultServersFile, file);
      ValidDomain(domain) && load.Ok? && NoneSelectable(tools, NormalizedType(enumerationType)) ==>
        r == Err(ToolError(NoToolMessage(enumerationType, tools))) && sent.None?
    ensures var load := LoadMcpServerConfig(serverName, DefaultServersFile, file);
      ValidDomain(domain) && load.Ok? && !NoneSelectable(tools, NormalizedType(enumerationType)) ==>
        sent.Some? && r == Ok(Normalize(result))
        && (exists i :: FirstSelectable(tools, NormalizedType(enumerationType), i) && tools[i] == Some(sent.value.tool))
        && sent.value.arguments.keys == ["domain"] && sent.value.arguments.values == map["domain" := domain]
  {
    sent := None;
    if !ValidDomain(domain) {
      return Err(ToolError(DomainMessage)), None;
    }
    var cfg := LoadMcpServerConfig(serverName, DefaultServersFile, file);
    if cfg.Err? {
      return Err(cfg.error), None;
    }
    var toolName := SelectToolName(tools, enumerationType);
    if toolName.None? {
      return Err(ToolError(NoToolMessage(enumerationType, tools))), None;
    }
    var arguments := Empty<Value>().Put("domain", domain);
    sent := Some(ToolCall(toolName.value, arguments));
    r := Ok(Normalize(result));
  }
}
