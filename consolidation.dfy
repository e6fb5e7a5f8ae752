/**
 * The merge of per-server enumeration results into one answer
 * (`MCPClient._consolidate_results`): servers are split into those that
 * succeeded and those that failed, in the order the results were recorded, and
 * the subdomains of the successful ones are united, deduplicated and sorted.
 */
module Consolidation {
  import opened Common
  import opened OrderedMaps
  import opened Json
  import opened Text

  /** The dictionary `_consolidate_results` returns, without its `timestamp`. */
  datatype Aggregate = Aggregate(
    domain: string,
    kind: string,
    success: bool,
    subdomains: seq<string>,
    totalCount: nat,
    successfulServers: seq<string>,
    failedServers: seq<string>,
    serverResults: OMap<Value>)

  /** A server succeeded when its result is a dict whose "success" entry is truthy. */
  predicate Succeeded(result: Value) {
    result.Obj? && Truthy(GetOr(result.fields, "success", Bool(false)))
  }

  /** What a successful result contributes: its "subdomains", else its "combined_subdomains", else nothing. */
  function Payload(result: Value): (r: Option<Value>)
    requires result.Obj?
    ensures "subdomains" in result.fields.values ==> r == Some(result.fields.values["subdomains"])
    ensures "subdomains" !in result.fields.values && "combined_subdomains" in result.fields.values
            ==> r == Some(result.fields.values["combined_subdomains"])
    ensures r.None? <==> "subdomains" !in result.fields.values && "combined_subdomains" !in result.fields.values
  {
    if "subdomains" in result.fields.values then Some(result.fields.values["subdomains"])
    else if "combined_subdomains" in result.fields.values then Some(result.fields.values["combined_subdomains"])
    else None
  }

  /** Lists and dicts cannot be members of a Python set. */
  predicate Hashable(v: Value) {
    !v.Arr? && !v.Obj?
  }

  function FirstUnhashable(items: seq<Value>): (k: nat)
    ensures k <= |items|
    ensures forall i :: 0 <= i < k ==> Hashable(items[i])
    ensures k < |items| ==> !Hashable(items[k])
  {
    if items == [] || !Hashable(items[0]) then 0 else 1 + FirstUnhashable(items[1..])
  }

  /** What `all_subdomains.update(v)` adds, or the `TypeError` it raises. */
  function Added(v: Value): (r: Result<set<Value>, string>)
    ensures v.Arr? && (forall i :: 0 <= i < |v.items| ==> v.items[i].Str?)
            ==> r == Ok(set x | x in v.items)
  {
    match Iterate(v)
    case None => Err(NotIterableMessage(v))
    case Some(items) =>
      var k := FirstUnhashable(items);
      if k < |items| then Err("unhashable type: '" + TypeName(items[k]) + "'")
      else Ok(set x | x in items)
  }

  /** The names, in recording order, of the servers whose result succeeded. */
  function SucceededIn(keys: seq<string>, results: map<string, Value>): seq<string>
    requires forall i :: 0 <= i < |keys| ==> keys[i] in results
  {
    if keys == [] then []
    else
      var last := keys[|keys| - 1];
      SucceededIn(keys[..|keys| - 1], results) + (if Succeeded(results[last]) then [last] else [])
  }

  /** The names, in recording order, of the servers whose result did not succeed. */
  function FailedIn(keys: seq<string>, results: map<string, Value>): seq<string>
    requires forall i :: 0 <= i < |keys| ==> keys[i] in results
  {
    if keys == [] then []
    else
      var last := keys[|keys| - 1];
      FailedIn(keys[..|keys| - 1], results) + (if Succeeded(results[last]) then [] else [last])
  }

  /** One turn of the consolidation loop: what the set becomes after visiting a server whose result is `result`. */
  function CollectStep(before: Result<set<Value>, string>, result: Value): Result<set<Value>, string> {
    if before.Err? || !Succeeded(result) then before
    else match Payload(result)
      case None => before
      case Some(v) =>
        match Added(v)
        case Err(e) => Err(e)
        case Ok(s) => Ok(before.value + s)
  }

  /** The set the consolidation loop has built after visiting `keys`, or the error it raised on the way. */
  function Collected(keys: seq<string>, results: map<string, Value>): Result<set<Value>, string>
    requires forall i :: 0 <= i < |keys| ==> keys[i] in results
  {
    if keys == [] then Ok({})
    else CollectStep(Collected(keys[..|keys| - 1], results), results[keys[|keys| - 1]])
  }

  /** The loop's three accumulators after one more server. */
  lemma VisitStep(keys: seq<string>, results: map<string, Value>, i: nat)
    requires forall j :: 0 <= j < |keys| ==> keys[j] in results
    requires i < |keys|
    ensures SucceededIn(keys[..i + 1], results)
      == SucceededIn(keys[..i], results) + (if Succeeded(results[keys[i]]) then [keys[i]] else [])
    ensures FailedIn(keys[..i + 1], results)
      == FailedIn(keys[..i], results) + (if Succeeded(results[keys[i]]) then [] else [keys[i]])
    ensures Collected(keys[..i + 1], results) == CollectStep(Collected(keys[..i], results), results[keys[i]])
  {
    assert keys[..i + 1][..i] == keys[..i];
  }

  /** The message of the `TypeError` Python's `sorted` raises for non-string subdomains. */
  const UnsortableMessage: string := "'<' not supported between subdomain values that are not all strings"

  /** The strings among a set of values. */
  function StringsOf(all: set<Value>): set<string> {
    set v | v in all && v.Str? :: v.s
  }

  /** Everything `_consolidate_results` promises about its answer for `results`. */
  ghost predicate Consolidates(results: OMap<Value>, domain: string, kind: string, r: Result<Aggregate, string>)
    requires results.Valid()
  {
    var collected := Collected(results.keys, results.values);
    if collected.Err? then r == Err(collected.error)
    else if exists v :: v in collected.value && !v.Str? then r == Err(UnsortableMessage)
    else
      && r.Ok?
      && r.value.domain == domain
      && r.value.kind == kind
      && r.value.successfulServers == SucceededIn(results.keys, results.values)
      && r.value.failedServers == FailedIn(results.keys, results.values)
      && r.value.success == (r.value.successfulServers != [])
      && StrictlySorted(r.value.subdomains)
      && (forall x :: x in r.value.subdomains <==> Str(x) in collected.value)
      && r.value.totalCount == |r.value.subdomains|
      && r.value.serverResults == results
  }

  /** `sorted(list(s))` for a set of strings: strictly increasing, same elements. */
  method SortedList(s: set<string>) returns (r: seq<string>)
    ensures StrictlySorted(r) && |r| == |s|
    ensures forall x :: x in r <==> x in s
  {
    r := [];
    var rest := s;
    while rest != {}
      invariant rest <= s
      invariant StrictlySorted(r) && |r| + |rest| == |s|
      invariant forall x :: x in r <==> x in s && x !in rest
      decreases |rest|
    {
      var x :| x in rest;
      r := InsertStrict(r, x);
      rest := rest - {x};
    }
  }

  /** An error met while collecting stays the outcome of collecting any longer prefix. */
  lemma {:induction false} CollectedErrPersists(keys: seq<string>, results: map<string, Value>, i: nat)
    requires forall j :: 0 <= j < |keys| ==> keys[j] in results
    requires i <= |keys|
    requires Collected(keys[..i], results).Err?
    ensures Collected(keys, results) == Collected(keys[..i], results)
  {
    if i < |keys| {
      assert keys[..|keys| - 1][..i] == keys[..i];
      CollectedErrPersists(keys[..|keys| - 1], results, i);
      assert keys[..|keys|] == keys;
    } else {
      assert keys[..i] == keys;
    }
  }

  /** `_consolidate_results`: the loop over the recorded results, then the sort. */
  method ConsolidateResults(results: OMap<Value>, domain: string, kind: string)
    returns (r: Result<Aggregate, string>)
    requires results.Valid()
    ensures Consolidates(results, domain, kind, r)
  {
    var keys := results.keys;
    var all: set<Value> := {};
    var successful: seq<string> := [];
    var failed: seq<string> := [];
    var i := 0;
    while i < |keys|
      invariant 0 <= i <= |keys|
      invariant successful == SucceededIn(keys[..i], results.values)
      invariant failed == FailedIn(keys[..i], results.values)
      invariant Collected(keys[..i], results.values) == Ok(all)
    {
      var raised;
      all, successful, failed, raised := Visit(results, i, all, successful, failed);
      if raised.Some? {
        CollectedErrPersists(keys, results.values, i + 1);
        assert keys[..|keys|] == keys;
        return Err(raised.value);
      }
      i := i + 1;
    }
    assert keys[..i] == keys;
    r := Summarize(results, domain, kind, all, successful, failed);
  }

  /** One turn of the loop of `_consolidate_results`, for the `i`-th recorded server; `raised` is the error that ends it. */
  method Visit(results: OMap<Value>, i: nat, all: set<Value>, successful: seq<string>, failed: seq<string>)
    returns (all': set<Value>, successful': seq<string>, failed': seq<string>, raised: Option<string>)
    requires results.Valid() && i < |results.keys|
    requires successful == SucceededIn(results.keys[..i], results.values)
    requires failed == FailedIn(results.keys[..i], results.values)
    requires Collected(results.keys[..i], results.values) == Ok(all)
    ensures raised.Some? ==> Collected(results.keys[..i + 1], results.values) == Err(raised.value)
    ensures raised.None? ==>
      && successful' == SucceededIn(results.keys[..i + 1], results.values)
      && failed' == FailedIn(results.keys[..i + 1], results.values)
      && Collected(results.keys[..i + 1], results.values) == Ok(all')
  {
    all', successful', failed', raised := all, successful, failed, None;
    var name := results.keys[i];
    var result := results.values[name];
    VisitStep(results.keys, results.values, i);
    if Succeeded(result) {
      successful' := successful + [name];
      var payload := Payload(result);
      if payload.Some? {
        var added := Added(payload.value);
        if added.Err? {
          return all, successful', failed, Some(added.error);
        }
        all' := all + added.value;
      }
    } else {
      failed' := failed + [name];
    }
  }

  /** The end of `_consolidate_results`: sort what the loop collected and build the answer. */
  method Summarize(results: OMap<Value>, domain: string, kind: string,
                   all: set<Value>, successful: seq<string>, failed: seq<string>)
    returns (r: Result<Aggregate, string>)
    requires results.Valid() && Collected(results.keys, results.values) == Ok(all)
    requires successful == SucceededIn(results.keys, results.values)
    requires failed == FailedIn(results.keys, results.values)
    ensures Consolidates(results, domain, kind, r)
  {
    if exists v :: v in all && !v.Str? {
      return Err(UnsortableMessage);
    }
    var subdomains := SortedList(StringsOf(all));
    r := Ok(Aggregate(domain, kind, |successful| > 0, subdomains, |subdomains|, successful, failed, results));
  }

  // ---------------------------------------------------------------------
  // Properties of the consolidation
  // ---------------------------------------------------------------------

  /**
   * Partition: every recorded server is in exactly one of the two lists, each
   * list holds only recorded servers, and a server is in the successful list
   * exactly when its own result succeeded.
   */
  lemma {:induction false} Partition(keys: seq<string>, results: map<string, Value>)
    requires forall i :: 0 <= i < |keys| ==> keys[i] in results
    ensures |SucceededIn(keys, results)| + |FailedIn(keys, results)| == |keys|
    ensures forall k :: k in SucceededIn(keys, results) ==> k in keys && Succeeded(results[k])
    ensures forall k :: k in FailedIn(keys, results) ==> k in keys && !Succeeded(results[k])
    ensures forall k :: k in keys ==> k in SucceededIn(keys, results) || k in FailedIn(keys, results)
  {
    if keys != [] {
      var init := keys[..|keys| - 1];
      Partition(init, results);
      assert keys == init + [keys[|keys| - 1]];
    }
  }

  /** The overall result succeeds exactly when at least one server succeeded. */
  lemma {:induction false} SomeSucceeded(keys: seq<string>, results: map<string, Value>)
    requires forall i :: 0 <= i < |keys| ==> keys[i] in results
    ensures SucceededIn(keys, results) != [] <==> exists k :: k in keys && Succeeded(results[k])
  {
    Partition(keys, results);
    if SucceededIn(keys, results) != [] {
      assert SucceededIn(keys, results)[0] in SucceededIn(keys, results);
    }
    if exists k :: k in keys && Succeeded(results[k]) {
      var k :| k in keys && Succeeded(results[k]);
      assert k !in FailedIn(keys, results);
      assert k in SucceededIn(keys, results);
    }
  }

  /** The values one server's result contributes to the union (none when it failed). */
  function Contributed(result: Value): set<Value> {
    if !Succeeded(result) then {}
    else match Payload(result)
      case None => {}
      case Some(v) => if Added(v).Ok? then Added(v).value else {}
  }

  /** Union: when collecting succeeds, the collected set is the union of the servers' contributions. */
  lemma {:induction false} CollectedIsUnion(keys: seq<string>, results: map<string, Value>, x: Value)
    requires forall i :: 0 <= i < |keys| ==> keys[i] in results
    requires Collected(keys, results).Ok?
    ensures x in Collected(keys, results).value <==> exists k :: k in keys && x in Contributed(results[k])
  {
    if keys != [] {
      var init := keys[..|keys| - 1];
      var last := keys[|keys| - 1];
      assert keys == init + [last];
      CollectedIsUnion(init, results, x);
      if x in Contributed(results[last]) {
        assert last in keys;
      }
      if exists k :: k in keys && x in Contributed(results[k]) {
        var k :| k in keys && x in Contributed(results[k]);
        if k != last {
          assert k in init;
        }
      }
    }
  }

  /**
   * The subdomains do not depend on the order in which the results were
   * recorded: two recordings with the same servers and results give the same
   * sorted list, the same count and the same overall success.
   */
  lemma OrderIndependent(
    res1: OMap<Value>, res2: OMap<Value>, domain: string, kind: string, a1: Aggregate, a2: Aggregate)
    requires res1.Valid() && res2.Valid() && res1.values == res2.values
    requires Consolidates(res1, domain, kind, Ok(a1)) && Consolidates(res2, domain, kind, Ok(a2))
    ensures a1.subdomains == a2.subdomains && a1.totalCount == a2.totalCount
    ensures a1.success == a2.success
  {
    var c1 := Collected(res1.keys, res1.values);
    var c2 := Collected(res2.keys, res2.values);
    forall x | x in a1.subdomains ensures x in a2.subdomains {
      CollectedIsUnion(res1.keys, res1.values, Str(x));
      CollectedIsUnion(res2.keys, res2.values, Str(x));
    }
    forall x | x in a2.subdomains ensures x in a1.subdomains {
      CollectedIsUnion(res1.keys, res1.values, Str(x));
      CollectedIsUnion(res2.keys, res2.values, Str(x));
    }
    StrictlySortedUnique(a1.subdomains, a2.subdomains);
    SomeSucceeded(res1.keys, res1.values);
    SomeSucceeded(res2.keys, res2.values);
  }

  /** A result dict reporting success with the given subdomains. */
  function Found(names: seq<string>): Value {
    Obj(OMap(["success", "subdomains"], map["success" := Bool(true), "subdomains" := Arr(Strs(names))]))
  }

  /** A successful result contributes exactly the names it lists. */
  lemma FoundContributes(names: seq<string>)
    ensures Succeeded(Found(names))
    ensures Payload(Found(names)) == Some(Arr(Strs(names)))
    ensures Added(Arr(Strs(names))) == Ok(set x | x in Strs(names))
  {
  }

  /** One turn of the loop, for a server whose result succeeded and lists `names`. */
  lemma {:induction false} FoundStep(keys: seq<string>, k: string, names: seq<string>, results: map<string, Value>)
    requires forall i :: 0 <= i < |keys| ==> keys[i] in results
    requires k in results && results[k] == Found(names) && Collected(keys, results).Ok?
    ensures Collected(keys + [k], results) == Ok(Collected(keys, results).value + set x | x in Strs(names))
    ensures SucceededIn(keys + [k], results) == SucceededIn(keys, results) + [k]
    ensures FailedIn(keys + [k], results) == FailedIn(keys, results)
  {
    FoundContributes(names);
    assert (keys + [k])[..|keys|] == keys;
  }

  /** The loop over two successful servers, `s1` reporting `p, q` and `s2` reporting `q, r`. */
  lemma {:induction false} OverlappingCollected(
    s1: string, s2: string, p: string, q: string, r: string, results: map<string, Value>)
    requires s1 in results && results[s1] == Found([p, q])
    requires s2 in results && results[s2] == Found([q, r])
    ensures Collected([s1, s2], results) == Ok({Str(p), Str(q), Str(r)})
    ensures SucceededIn([s1, s2], results) == [s1, s2]
    ensures FailedIn([s1, s2], results) == []
  {
    PairSet(p, q);
    PairSet(q, r);
    var none: seq<string> := [];
    FoundStep(none, s1, [p, q], results);
    assert none + [s1] == [s1];
    FoundStep([s1], s2, [q, r], results);
    assert [s1] + [s2] == [s1, s2];
    assert {} + {Str(p), Str(q)} + {Str(q), Str(r)} == {Str(p), Str(q), Str(r)};
  }

  /** The values a two-name list contributes. */
  lemma PairSet(a: string, b: string)
    ensures (set x | x in Strs([a, b])) == {Str(a), Str(b)}
  {
    assert Strs([a, b]) == [Str(a), Str(b)];
  }

  /** The only strictly sorted list of three ordered names is those names in order. */
  lemma SortedThree(p: string, q: string, r: string, all: set<Value>, s: seq<string>)
    requires Less(p, q) && Less(q, r) && all == {Str(p), Str(q), Str(r)}
    requires StrictlySorted(s) && forall x :: x in s <==> Str(x) in all
    ensures s == [p, q, r]
  {
    LessTransitive(p, q, r);
    var t := [p, q, r];
    assert StrictlySorted(t);
    forall x ensures x in s <==> x in t {
      assert Str(x) in {Str(p), Str(q), Str(r)} <==> x == p || x == q || x == r;
    }
    StrictlySortedUnique(s, t);
  }

  /**
   * Two servers reporting `p, q` and `q, r`, for `p < q < r`, consolidate to
   * `p, q, r`: sorted, each name once, both servers successful, none failed.
   */
  lemma OverlappingServers(
    s1: string, s2: string, p: string, q: string, r: string,
    results: OMap<Value>, domain: string, kind: string, a: Aggregate)
    requires Less(p, q) && Less(q, r) && s1 != s2
    requires results == OMap([s1, s2], map[s1 := Found([p, q]), s2 := Found([q, r])])
    requires results.Valid() && Consolidates(results, domain, kind, Ok(a))
    ensures a.subdomains == [p, q, r] && a.totalCount == 3
    ensures a.successfulServers == [s1, s2] && a.failedServers == [] && a.success
  {
    assert results.values[s1] == Found([p, q]) && results.values[s2] == Found([q, r]);
    OverlappingCollected(s1, s2, p, q, r, results.values);
    var c := Collected(results.keys, results.values);
    assert c.value == {Str(p), Str(q), Str(r)};
    assert !(exists v :: v in c.value && !v.Str?);
    SortedThree(p, q, r, c.value, a.subdomains);
  }
}
