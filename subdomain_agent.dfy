/**
 * The subdomain enumeration tool of src/subdomain_agent.py: parsing of its
 * comma-separated arguments, the passive and active configurations it passes
 * to the MCP client, the text report it formats from the client's result, and
 * the tool parameters `create_enumeration_task` derives from a request. The
 * client call is an input: `outcome` is what the coroutine returned or the
 * message of what it raised.
 */
module SubdomainAgent {
  import opened Common
  import opened OrderedMaps
  import opened Json
  import Text

  // ---------------------------------------------------------------------
  // Comma-separated arguments
  // ---------------------------------------------------------------------

  /** `[s.strip() for s in text.split(",") if s.strip()]`. */
  function CommaList(text: string): (r: seq<string>)
    ensures forall i :: 0 <= i < |r| ==> r[i] != "" && Text.IsStripped(r[i])
  {
    Text.NonBlankStrippedTrimmed(Text.Split(text, ','));
    Text.NonBlankStripped(Text.Split(text, ','))
  }

  /** `server_list`: `None` (every enabled server) for a blank argument, otherwise the parsed names. */
  function ServerList(servers: string): (r: Option<seq<string>>)
    ensures r.None? <==> Text.IsBlank(servers)
    ensures r.Some? ==> r.value == CommaList(servers)
  {
    if Text.Strip(servers) != "" then Some(CommaList(servers)) else None
  }

  /** Clean names are never blank, carry no comma and no surrounding whitespace. */
  predicate CleanName(name: string) {
    name != "" && Text.IsStripped(name) && ',' !in name
  }

  /**
   * The `servers` string `create_enumeration_task` writes (`",".join(servers)`)
   * is parsed back by the tool into the same list of names.
   */
  lemma {:induction false} ServersRoundTrip(names: seq<string>)
    requires names != [] && forall i :: 0 <= i < |names| ==> CleanName(names[i])
    ensures ServerList(Text.Join(names, ",")) == Some(names)
  {
    var j := Text.Join(names, ",");
    Text.JoinEnds(names, ",");
    assert !Text.IsSpace(j[0]);
    assert !Text.IsBlank(j);
    Text.SplitJoin(names, ',');
    Text.NonBlankStrippedClean(names);
  }

  // ---------------------------------------------------------------------
  // Configurations passed to the client
  // ---------------------------------------------------------------------

  /** `passive_config`: `sources` for a non-blank source list, then `timeout` when it is truthy. */
  predicate IsPassiveConfig(config: OMap<Value>, passiveSources: string, timeout: Value) {
    && config.keys == (if Text.Strip(passiveSources) != "" then ["sources"] else [])
                      + (if Truthy(timeout) then ["timeout"] else [])
    && ("sources" in config.values ==> config.values["sources"] == Arr(Strs(CommaList(passiveSources))))
    && ("timeout" in config.values ==> config.values["timeout"] == timeout)
  }

  /** `active_config`: `"brute": True` only when brute force is asked for, then `timeout` when it is truthy. */
  predicate IsActiveConfig(config: OMap<Value>, activeBrute: bool, timeout: Value) {
    && config.keys == (if activeBrute then ["brute"] else []) + (if Truthy(timeout) then ["timeout"] else [])
    && ("brute" in config.values ==> config.values["brute"] == Bool(true))
    && ("timeout" in config.values ==> config.values["timeout"] == timeout)
  }

  /**
   * The shape both configurations share: `{}`, then `first` under `key` when
   * there is one, then `timeout` when it is truthy.
   */
  method BuildConfig(key: string, first: Option<Value>, timeout: Value) returns (config: OMap<Value>)
    requires key != "timeout"
    ensures config.Valid()
    ensures config.keys == (if first.Some? then [key] else []) + (if Truthy(timeout) then ["timeout"] else [])
    ensures key in config.values ==> config.values[key] == first.value
    ensures "timeout" in config.values ==> config.values["timeout"] == timeout
  {
    config := Empty();
    if first.Some? {
      config := config.Put(key, first.value);
    }
    if Truthy(timeout) {
      config := config.Put("timeout", timeout);
    }
  }

  /** Builds `passive_config`. */
  method BuildPassiveConfig(passiveSources: string, timeout: Value) returns (config: OMap<Value>)
    ensures config.Valid() && IsPassiveConfig(config, passiveSources, timeout)
  {
    var listed := Text.Strip(passiveSources) != "";
    var sources := if listed then Some(Arr(Strs(CommaList(passiveSources)))) else None;
    assert "sources"[0] != "timeout"[0];
    config := BuildConfig("sources", sources, timeout);
    assert config.keys == (if listed then ["sources"] else []) + (if Truthy(timeout) then ["timeout"] else []);
  }

  /** Builds `active_config`. */
  method BuildActiveConfig(activeBrute: bool, timeout: Value) returns (config: OMap<Value>)
    ensures config.Valid() && IsActiveConfig(config, activeBrute, timeout)
  {
    config := BuildConfig("brute", if activeBrute then Some(Bool(true)) else None, timeout);
  }

  // ---------------------------------------------------------------------
  // The report
  // ---------------------------------------------------------------------

  /** The single line reported when the result's `success` is falsy. */
  function FailureLine(domain: Value): string {
    "Subdomain enumeration failed for domain " + Show(domain)
  }

  /** `sep.join(v)`: the `TypeError` for a value that is not iterable or holds a non-string. */
  function JoinIterable(v: Value, sep: string): (r: Result<string, string>)
    ensures v.Arr? ==> r == JoinValues(v.items, sep)
    ensures v.Null? || v.Bool? || v.Num? ==> r.Err?
  {
    match Iterate(v)
    case None => Err("can only join an iterable")
    case Some(items) => JoinValues(items, sep)
  }

  /** The `Successful servers` / `Failed servers` entry: `', '.join(names)`, or `None` when there are none. */
  function ServerNames(names: Value): (r: Result<string, string>)
    ensures !Truthy(names) ==> r == Ok("None")
    ensures Truthy(names) ==> r == JoinIterable(names, ", ")
  {
    if !Truthy(names) then Ok("None") else JoinIterable(names, ", ")
  }

  function Header(domain: string, enumMethod: string, total: string, successful: string, failed: string): string {
    "Subdomain Enumeration Results for " + domain + ":\nMethod: " + enumMethod
    + "\nTotal subdomains found: " + total + "\nSuccessful servers: " + successful
    + "\nFailed servers: " + failed + "\n\nDiscovered Subdomains:\n"
  }

  /**
   * What `sorted(subdomains)` and the keyword scan go through: nothing for a
   * falsy value, otherwise what `for x in subdomains` visits (list items, the
   * characters of a string, the keys of a dict). A value that cannot be
   * iterated raises; elements that are not all strings are not listed here.
   */
  function SubdomainStrings(subdomains: Value): (r: Result<seq<string>, string>)
    ensures !Truthy(subdomains) ==> r == Ok([])
    ensures r.Ok? && Truthy(subdomains) ==> Iterate(subdomains) == Some(Strs(r.value))
    ensures Truthy(subdomains) && Iterate(subdomains).None? ==> r == Err(NotIterableMessage(subdomains))
    ensures Truthy(subdomains) && Iterate(subdomains).Some? ==>
      (r.Ok? <==> forall i :: 0 <= i < |Iterate(subdomains).value| ==> Iterate(subdomains).value[i].Str?)
  {
    if !Truthy(subdomains) then Ok([])
    else
      match Iterate(subdomains)
      case None => Err(NotIterableMessage(subdomains))
      case Some(items) =>
        if forall i :: 0 <= i < |items| ==> items[i].Str? then
          var ss := seq(|items|, i requires 0 <= i < |items| => items[i].s);
          assert Strs(ss) == items;
          Ok(ss)
        else Err(UnlistableMessage)
  }

  /** A string in place of the list is gone through character by character, as Python iterates it. */
  lemma StringSubdomainsListed()
    ensures SubdomainStrings(Str("ab")) == Ok(["a", "b"])
  {
    var items := Iterate(Str("ab")).value;
    assert "ab"[0] == 'a' && "ab"[1] == 'b';
    assert items[0] == Str(['a']) && items[1] == Str(['b']);
    assert forall i :: 0 <= i < |items| ==> items[i].Str?;
    var r := SubdomainStrings(Str("ab"));
    assert Strs(r.value) == items;
    assert Strs(r.value)[0] == Str(r.value[0]) && Strs(r.value)[1] == Str(r.value[1]);
    assert r.value == ["a", "b"];
  }

  const UnlistableMessage := "subdomains must hold only strings to be sorted and listed"

  /** `sorted(subdomains)`: ascending code-point order, duplicates kept. */
  function SortedOf(s: seq<string>): (r: seq<string>)
    ensures Text.Sorted(r) && multiset(r) == multiset(s)
  {
    if s == [] then []
    else
      var n := |s| - 1;
      assert s == s[..n] + [s[n]];
      var t := SortedOf(s[..n]);
      Text.InsertSortedSorted(t, s[n]);
      Text.InsertSortedMultiset(t, s[n]);
      Text.InsertSorted(t, s[n])
  }

  /** The listing entry `f"{i:3d}. {subdomain}"`: the index right-aligned in three columns. */
  function ListingEntry(i: nat, subdomain: string): string {
    Text.PadLeft(Text.NatToString(i), 3) + ". " + subdomain
  }

  /** The listing of `s`, one numbered line per entry starting at 1. */
  function Listing(s: seq<string>): string {
    if s == [] then ""
    else
      var n := |s| - 1;
      Listing(s[..n]) + ListingEntry(n + 1, s[n]) + "\n"
  }

  /** The numbered entries of the listing. */
  function Entries(s: seq<string>): (r: seq<string>)
    ensures |r| == |s|
  {
    seq(|s|, i requires 0 <= i < |s| => ListingEntry(i + 1, s[i]))
  }

  /** The seven keywords that make a subdomain worth a second look. */
  const Keywords: seq<string> := ["admin", "dev", "test", "staging", "internal", "api", "mail"]

  /** Some keyword occurs in the lower-cased subdomain. */
  predicate IsInteresting(subdomain: string) {
    exists k :: 0 <= k < |Keywords| && Text.Contains(Text.Lower(subdomain), Keywords[k])
  }

  /** `interesting_subdomains`: the interesting subdomains, in their original order. */
  function Interesting(subdomains: seq<string>): (r: seq<string>)
    ensures |r| <= |subdomains|
  {
    Filter(subdomains, IsInteresting)
  }

  /** The interesting list, `f"  {i}. {subdomain}"` per line starting at 1. */
  function InterestingLines(s: seq<string>): string {
    if s == [] then ""
    else
      var n := |s| - 1;
      InterestingLines(s[..n]) + "  " + Text.NatToString(n + 1) + ". " + s[n] + "\n"
  }

  function InterestingHeading(count: nat): string {
    "\nPotentially Interesting Subdomains (" + Text.NatToString(count) + "):\n"
  }

  const Recommendations :=
    "\nRecommendations:\n1. Perform web application assessment on discovered subdomains\n"
    + "2. Check for common vulnerabilities on admin interfaces\n"
    + "3. Investigate development/staging environments for information disclosure\n"

  /** Everything after the header for the listed subdomains `s`. */
  function Body(s: seq<string>): string {
    if s == [] then "No subdomains discovered.\n"
    else
      var interesting := Interesting(s);
      Listing(SortedOf(s))
      + (if interesting != [] then InterestingHeading(|interesting|) + InterestingLines(interesting) else "")
      + Recommendations
  }

  /**
   * `_format_enumeration_results` over the client's result: the report, or the
   * message of the exception formatting raises (a result that is not a dict,
   * server lists that cannot be joined, subdomains that cannot be listed).
   */
  function FormatResults(result: Value): (r: Result<string, string>)
    ensures !result.Obj? ==> r == Err(NoGetMessage(result))
    ensures result.Obj? && !Truthy(GetOr(result.fields, "success", Bool(false))) ==>
      r == Ok(FailureLine(GetOr(result.fields, "domain", Str("unknown"))))
  {
    if !result.Obj? then Err(NoGetMessage(result))
    else
      var f := result.fields;
      if !Truthy(GetOr(f, "success", Bool(false))) then Ok(FailureLine(GetOr(f, "domain", Str("unknown"))))
      else
        var successful := ServerNames(GetOr(f, "successful_servers", Arr([])));
        var failed := ServerNames(GetOr(f, "failed_servers", Arr([])));
        if successful.Err? then Err(successful.error)
        else if failed.Err? then Err(failed.error)
        else
          var header := Header(Show(GetOr(f, "domain", Str("unknown"))), Show(GetOr(f, "method", Str("unknown"))),
                               Show(GetOr(f, "total_count", Num(0))), successful.value, failed.value);
          match SubdomainStrings(GetOr(f, "subdomains", Arr([])))
          case Err(message) => Err(message)
          case Ok(s) => Ok(header + Body(s))
  }

  /** `sorted(subdomains)`, by insertion into a growing sorted list. */
  method SortSubdomains(s: seq<string>) returns (r: seq<string>)
    ensures r == SortedOf(s)
  {
    r := [];
    var i := 0;
    while i < |s|
      invariant 0 <= i <= |s|
      invariant r == SortedOf(s[..i])
    {
      assert s[..i + 1][..i] == s[..i];
      r := Text.InsertSorted(r, s[i]);
      i := i + 1;
    }
    assert s[..i] == s;
  }

  /** One turn of the listing loop. */
  lemma ListingStep(s: seq<string>, i: nat)
    requires i < |s|
    ensures Listing(s[..i + 1]) == Listing(s[..i]) + ListingEntry(i + 1, s[i]) + "\n"
  {
    assert s[..i + 1][..i] == s[..i];
  }

  /** One turn of the interesting-list loop. */
  lemma InterestingLinesStep(s: seq<string>, i: nat)
    requires i < |s|
    ensures InterestingLines(s[..i + 1]) == InterestingLines(s[..i]) + "  " + Text.NatToString(i + 1) + ". " + s[i] + "\n"
  {
    assert s[..i + 1][..i] == s[..i];
  }

  /**
   * `_format_enumeration_results`, accumulating the report as the source does:
   * the header, the sorted numbered listing, then the interesting subdomains
   * and the recommendations.
   */
  method FormatEnumerationResults(result: Value) returns (r: Result<string, string>)
    ensures r == FormatResults(result)
  {
    if !result.Obj? {
      return Err(NoGetMessage(result));
    }
    var f := result.fields;
    if !Truthy(GetOr(f, "success", Bool(false))) {
      return Ok(FailureLine(GetOr(f, "domain", Str("unknown"))));
    }
    var successful := ServerNames(GetOr(f, "successful_servers", Arr([])));
    var failed := ServerNames(GetOr(f, "failed_servers", Arr([])));
    if successful.Err? {
      return Err(successful.error);
    }
    if failed.Err? {
      return Err(failed.error);
    }
    var header := Header(Show(GetOr(f, "domain", Str("unknown"))), Show(GetOr(f, "method", Str("unknown"))),
                         Show(GetOr(f, "total_count", Num(0))), successful.value, failed.value);
    var listed := SubdomainStrings(GetOr(f, "subdomains", Arr([])));
    if listed.Err? {
      return Err(listed.error);
    }
    var body := Report(listed.value);
    r := Ok(header + body);
  }

  /** The part of the report after the header. */
  method Report(s: seq<string>) returns (output: string)
    ensures output == Body(s)
  {
    if s == [] {
      return "No subdomains discovered.\n";
    }
    var sorted := SortSubdomains(s);
    var listing := ListSorted(sorted);
    var interesting := Interesting(s);
    var analysis := "";
    if interesting != [] {
      var lines := ListInteresting(interesting);
      analysis := InterestingHeading(|interesting|) + lines;
    }
    output := listing + analysis + Recommendations;
  }

  /** The `for i, subdomain in enumerate(sorted(subdomains), 1)` loop. */
  method ListSorted(sorted: seq<string>) returns (output: string)
    ensures output == Listing(sorted)
  {
    output := "";
    var i := 0;
    while i < |sorted|
      invariant 0 <= i <= |sorted|
      invariant output == Listing(sorted[..i])
    {
      ListingStep(sorted, i);
      output := output + ListingEntry(i + 1, sorted[i]) + "\n";
      i := i + 1;
    }
    assert sorted[..i] == sorted;
  }

  /** The `for i, subdomain in enumerate(interesting_subdomains, 1)` loop. */
  method ListInteresting(interesting: seq<string>) returns (lines: string)
    ensures lines == InterestingLines(interesting)
  {
    lines := "";
    var k := 0;
    while k < |interesting|
      invariant 0 <= k <= |interesting|
      invariant lines == InterestingLines(interesting[..k])
    {
      InterestingLinesStep(interesting, k);
      lines := lines + "  " + Text.NatToString(k + 1) + ". " + interesting[k] + "\n";
      k := k + 1;
    }
    assert interesting[..k] == interesting;
  }

  /** A right-aligned index has no line break in it. */
  lemma EntryHasNoBreak(i: nat, subdomain: string)
    requires '\n' !in subdomain
    ensures '\n' !in ListingEntry(i, subdomain)
  {
    var d := Text.NatToString(i);
    var p := Text.PadLeft(d, 3);
    forall k | 0 <= k < |p|
      ensures p[k] != '\n'
    {
      if k >= |p| - |d| {
        assert p[k] == p[|p| - |d|..][k - (|p| - |d|)];
      }
    }
    assert ListingEntry(i, subdomain) == p + ". " + subdomain;
  }

  /** The listing is its entries joined by line breaks, with one after the last. */
  lemma ListingJoin(s: seq<string>)
    ensures Listing(s) == Text.Join(Entries(s) + [""], "\n")
  {
    if s != [] {
      ListingJoined(s);
      Text.JoinSnoc(Entries(s), "", "\n");
    }
  }

  /** A non-empty listing is its entries joined by line breaks, then one more. */
  lemma {:induction false} ListingJoined(s: seq<string>)
    requires s != []
    ensures Listing(s) == Text.Join(Entries(s), "\n") + "\n"
    decreases |s|
  {
    var n := |s| - 1;
    var init := Entries(s[..n]);
    var e := ListingEntry(n + 1, s[n]);
    assert Entries(s) == init + [e];
    if n == 0 {
      assert Entries(s) == [e];
    } else {
      ListingJoined(s[..n]);
      Text.JoinSnoc(init, e, "\n");
      var j := Text.Join(init, "\n");
      assert Listing(s) == j + "\n" + e + "\n";
      assert Text.Join(Entries(s), "\n") == j + "\n" + e;
    }
  }

  /**
   * Read line by line, the listing shows the subdomains in the given order,
   * each after its index right-aligned to three columns, and ends with a line break.
   */
  lemma ListingLines(s: seq<string>)
    requires forall i :: 0 <= i < |s| ==> '\n' !in s[i]
    ensures Text.Split(Listing(s), '\n') == Entries(s) + [""]
  {
    ListingJoin(s);
    EntriesHaveNoBreak(s);
    Text.SplitJoin(Entries(s) + [""], '\n');
  }

  /** No entry of the listing, nor the empty piece after the last break, holds a line break. */
  lemma EntriesHaveNoBreak(s: seq<string>)
    requires forall i :: 0 <= i < |s| ==> '\n' !in s[i]
    ensures forall i :: 0 <= i < |Entries(s) + [""]| ==> '\n' !in (Entries(s) + [""])[i]
  {
    var parts := Entries(s) + [""];
    forall i | 0 <= i < |parts|
      ensures '\n' !in parts[i]
    {
      if i < |s| {
        assert parts[i] == ListingEntry(i + 1, s[i]);
        EntryHasNoBreak(i + 1, s[i]);
      } else {
        assert parts[i] == "";
      }
    }
  }

  /** The index in every listing entry takes at least three columns, right-aligned. */
  lemma ListingEntryAligned(i: nat, subdomain: string)
    requires 1 <= i < 1000
    ensures |ListingEntry(i, subdomain)| == 5 + |subdomain|
    ensures ListingEntry(i, subdomain)[3..5] == ". "
  {
    var d := Text.NatToString(i);
    assert |d| <= 3 by {
      if i >= 100 {
        assert Text.NatToString(i / 10) == Text.NatToString(i / 10 / 10) + [Text.DigitChar(i / 10 % 10)];
      }
    }
  }

  /** A subdomain is reported as interesting exactly when it was found and contains a keyword, case aside. */
  lemma InterestingMembership(subdomains: seq<string>, x: string)
    ensures x in Interesting(subdomains) <==> x in subdomains && IsInteresting(x)
  {
    FilterMembership(subdomains, IsInteresting, x);
  }

  /** The interesting list keeps the order in which subdomains were found. */
  lemma InterestingOrder(a: seq<string>, b: seq<string>)
    ensures Interesting(a + b) == Interesting(a) + Interesting(b)
  {
    FilterAppend(a, b, IsInteresting);
  }

  /** Keywords are matched without regard to letter case. */
  lemma InterestingIgnoresCase(subdomain: string)
    ensures IsInteresting(Text.Lower(subdomain)) <==> IsInteresting(subdomain)
  {
    Text.LowerIdempotent(subdomain);
  }

  // ---------------------------------------------------------------------
  // The tool entry point
  // ---------------------------------------------------------------------

  /** The client coroutine the tool runs, with its arguments. */
  datatype Call =
    | PassiveCall(domain: string, servers: Option<seq<string>>)
    | ActiveCall(domain: string, servers: Option<seq<string>>, activeConfig: OMap<Value>)
    | CombinedCall(domain: string, servers: Option<seq<string>>, passiveConfig: OMap<Value>, activeConfig: OMap<Value>)

  const NotInitializedMessage := "Error: MCP client not initialized. Please contact support."

  function InvalidMethodMessage(enumMethod: string): string {
    "Invalid method: " + enumMethod + ". Use 'passive', 'active', or 'combined'."
  }

  /** What the tool returns for an exception raised after the client check. */
  function ErrorMessage(message: string): string {
    "Error performing subdomain enumeration: " + message
  }

  predicate KnownMethod(enumMethod: string) {
    enumMethod == "passive" || enumMethod == "active" || enumMethod == "combined"
  }

  /** The text returned for what the client call gave: the report, or the error line when anything raised. */
  function Outcome(outcome: Result<Value, string>): string {
    match outcome
    case Err(message) => ErrorMessage(message)
    case Ok(result) =>
      match FormatResults(result)
      case Ok(report) => report
      case Err(message) => ErrorMessage(message)
  }

  /**
   * `enumerate_subdomains`: `initialized` says whether the global client is
   * set, `outcome` is what the selected client coroutine gave; `call` is the
   * coroutine run, if any.
   */
  method EnumerateSubdomains(initialized: bool, domain: string, enumMethod: string, servers: string,
                             passiveSources: string, activeBrute: bool, timeout: Value, outcome: Result<Value, string>)
    returns (text: string, call: Option<Call>)
    ensures !initialized ==> text == NotInitializedMessage && call.None?
    ensures initialized && !KnownMethod(enumMethod) ==> text == InvalidMethodMessage(enumMethod) && call.None?
    ensures call.Some? <==> initialized && KnownMethod(enumMethod)
    ensures call.Some? ==> call.value.domain == domain && call.value.servers == ServerList(servers) && text == Outcome(outcome)
    ensures call.Some? ==> (call.value.PassiveCall? <==> enumMethod == "passive") && (call.value.ActiveCall? <==> enumMethod == "active")
    ensures call.Some? && !call.value.PassiveCall? ==> IsActiveConfig(call.value.activeConfig, activeBrute, timeout)
    ensures call.Some? && call.value.CombinedCall? ==> IsPassiveConfig(call.value.passiveConfig, passiveSources, timeout)
  {
    if !initialized {
      return NotInitializedMessage, None;
    }
    var serverList := ServerList(servers);
    var passiveConfig := BuildPassiveConfig(passiveSources, timeout);
    var activeConfig := BuildActiveConfig(activeBrute, timeout);
    if enumMethod == "passive" {
      call := Some(PassiveCall(domain, serverList));
    } else if enumMethod == "active" {
      call := Some(ActiveCall(domain, serverList, activeConfig));
    } else if enumMethod == "combined" {
      call := Some(CombinedCall(domain, serverList, passiveConfig, activeConfig));
    } else {
      return InvalidMethodMessage(enumMethod), None;
    }
    match outcome {
      case Err(message) =>
        text := ErrorMessage(message);
      case Ok(result) =>
        var formatted := FormatEnumerationResults(result);
        text := if formatted.Ok? then formatted.value else ErrorMessage(formatted.error);
    }
  }

  /**
   * `quick_subdomain_enum`: `enumerate_subdomains` with the given method
   * (passive unless another is passed) and every other argument at its
   * default: no server list, no passive sources, no brute force and a
   * 30-minute timeout.
   */
  method QuickSubdomainEnum(initialized: bool, domain: string, enumMethod: string, outcome: Result<Value, string>)
    returns (text: string, call: Option<Call>)
    ensures !initialized ==> text == NotInitializedMessage && call.None?
    ensures initialized && !KnownMethod(enumMethod) ==> text == InvalidMethodMessage(enumMethod) && call.None?
    ensures call.Some? <==> initialized && KnownMethod(enumMethod)
    ensures call.Some? ==> call.value.domain == domain && call.value.servers.None? && text == Outcome(outcome)
    ensures call.Some? ==> (call.value.PassiveCall? <==> enumMethod == "passive")
    ensures call.Some? && !call.value.PassiveCall? ==> IsActiveConfig(call.value.activeConfig, false, Num(30))
    ensures call.Some? && call.value.CombinedCall? ==> IsPassiveConfig(call.value.passiveConfig, "", Num(30))
  {
    assert Text.IsBlank("");
    text, call := EnumerateSubdomains(initialized, domain, enumMethod, "", "", false, Num(30), outcome);
  }

  // ---------------------------------------------------------------------
  // Tool parameters of `create_enumeration_task`
  // ---------------------------------------------------------------------

  /** A configuration that was passed and is not empty (`if config:`). */
  predicate Given(config: Option<OMap<Value>>) {
    config.Some? && config.value.values != map[]
  }

  /** `config.get(key)` for a given configuration, `None` otherwise. */
  function Setting(config: Option<OMap<Value>>, key: string): Value {
    if config.Some? then GetOr(config.value, key, Null) else Null
  }

  /**
   * The timeout the enumeration task passes on: the active configuration's whenever that
   * configuration is non-empty, even when it has none; the passive
   * configuration's only when there is no non-empty active one.
   */
  function TimeoutSource(passiveConfig: Option<OMap<Value>>, activeConfig: Option<OMap<Value>>): Value {
    if Given(activeConfig) then Setting(activeConfig, "timeout")
    else if Given(passiveConfig) then Setting(passiveConfig, "timeout")
    else Null
  }

  /**
   * The `tool_params` dictionary: `domain` and `method` always, each other key
   * present when its field is `Some` (`active_brute` only ever as `True`).
   */
  datatype TaskParams = TaskParams(
    domain: string,
    enumMethod: string,
    servers: Option<string>,
    passiveSources: Option<string>,
    activeBrute: bool,
    timeout: Option<Value>)

  /** The dictionary's keys, in insertion order. */
  function Keys(p: TaskParams): (keys: seq<string>)
    ensures |keys| >= 2 && keys[..2] == ["domain", "method"]
  {
    ["domain", "method"]
    + (if p.servers.Some? then ["servers"] else [])
    + (if p.passiveSources.Some? then ["passive_sources"] else [])
    + (if p.activeBrute then ["active_brute"] else [])
    + (if p.timeout.Some? then ["timeout"] else [])
  }

  /**
   * `tool_params` of `create_enumeration_task`, filled step by step, or the
   * message of the `TypeError` raised when the passive sources cannot be joined.
   */
  method ToolParams(domain: string, enumMethod: string, servers: Option<seq<string>>,
                    passiveConfig: Option<OMap<Value>>, activeConfig: Option<OMap<Value>>)
    returns (r: Result<TaskParams, string>)
    ensures r.Err? <==> Given(passiveConfig) && Truthy(Setting(passiveConfig, "sources"))
                        && JoinIterable(Setting(passiveConfig, "sources"), ",").Err?
    ensures r.Ok? ==> r.value.domain == domain && r.value.enumMethod == enumMethod
    ensures r.Ok? ==> (r.value.servers.Some? <==> servers.Some? && servers.value != [])
    ensures r.Ok? && r.value.servers.Some? ==> r.value.servers.value == Text.Join(servers.value, ",")
    ensures r.Ok? ==> (r.value.passiveSources.Some? <==> Given(passiveConfig) && Truthy(Setting(passiveConfig, "sources")))
    ensures r.Ok? && r.value.passiveSources.Some? ==>
      Ok(r.value.passiveSources.value) == JoinIterable(Setting(passiveConfig, "sources"), ",")
    ensures r.Ok? ==> (r.value.activeBrute <==> Given(activeConfig) && Truthy(Setting(activeConfig, "brute")))
    ensures r.Ok? ==> (r.value.timeout.Some? <==> Truthy(TimeoutSource(passiveConfig, activeConfig)))
    ensures r.Ok? && r.value.timeout.Some? ==> r.value.timeout.value == TimeoutSource(passiveConfig, activeConfig)
  {
    var params := TaskParams(domain, enumMethod, None, None, false, None);
    if servers.Some? && servers.value != [] {
      params := params.(servers := Some(Text.Join(servers.value, ",")));
    }
    if Given(passiveConfig) && Truthy(Setting(passiveConfig, "sources")) {
      var joined := JoinIterable(Setting(passiveConfig, "sources"), ",");
      if joined.Err? {
        return Err(joined.error);
      }
      params := params.(passiveSources := Some(joined.value));
    }
    if Given(activeConfig) {
      if Truthy(Setting(activeConfig, "brute")) {
        params := params.(activeBrute := true);
      }
      if Truthy(Setting(activeConfig, "timeout")) {
        params := params.(timeout := Some(Setting(activeConfig, "timeout")));
      }
    } else if Given(passiveConfig) && Truthy(Setting(passiveConfig, "timeout")) {
      params := params.(timeout := Some(Setting(passiveConfig, "timeout")));
    }
    r := Ok(params);
  }

  /**
   * A non-empty active configuration without a timeout hides the passive
   * configuration's timeout: the enumeration task then carries none.
   */
  lemma ActiveConfigHidesPassiveTimeout(passiveConfig: Option<OMap<Value>>, activeConfig: Option<OMap<Value>>)
    requires Given(activeConfig) && "timeout" !in activeConfig.value.values
    ensures !Truthy(TimeoutSource(passiveConfig, activeConfig))
  {
  }
}
