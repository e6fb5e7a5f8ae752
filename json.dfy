/**
 * A decoded JSON document (as `json.loads` or `yaml.safe_load` returns it) and
 * the pieces of Python semantics the core applies to such values: truthiness,
 * `dict.get` with a default, iteration, `str.join` and type names in messages.
 */
module Json {
  import opened Common
  import opened OrderedMaps
  import Text

  /** JSON numbers are restricted to integers here. */
  datatype Value =
    | Null
    | Bool(b: bool)
    | Num(n: int)
    | Str(s: string)
    | Arr(items: seq<Value>)
    | Obj(fields: OMap<Value>)

  /** Python truthiness: `None`, `False`, `0`, `""`, `[]` and `{}` are false. */
  predicate Truthy(v: Value) {
    match v
    case Null => false
    case Bool(b) => b
    case Num(n) => n != 0
    case Str(s) => s != ""
    case Arr(items) => items != []
    case Obj(fields) => fields.values != map[]
  }

  /** `d.get(key, default)`. */
  function GetOr(d: OMap<Value>, key: string, default: Value): (r: Value)
    ensures key in d.values ==> r == d.values[key]
    ensures key !in d.values ==> r == default
  {
    if key in d.values then d.values[key] else default
  }

  /** `type(v).__name__`, as it appears in Python's error messages. */
  function TypeName(v: Value): string {
    match v
    case Null => "NoneType"
    case Bool(_) => "bool"
    case Num(_) => "int"
    case Str(_) => "str"
    case Arr(_) => "list"
    case Obj(_) => "dict"
  }

  /** `str(v)` for the values a message can carry; containers are not rendered element by element. */
  function Show(v: Value): string {
    match v
    case Null => "None"
    case Bool(b) => if b then "True" else "False"
    case Num(n) => Text.IntToString(n)
    case Str(s) => s
    case Arr(_) => "<list>"
    case Obj(_) => "<dict>"
  }

  /** The message of the `AttributeError` raised by `v.get(...)` on a non-dict. */
  function NoGetMessage(v: Value): string {
    "'" + TypeName(v) + "' object has no attribute 'get'"
  }

  /** The elements `for x in v` visits: list items, the characters of a string, the keys of a dict. */
  function Iterate(v: Value): (r: Option<seq<Value>>)
    ensures r.None? <==> v.Null? || v.Bool? || v.Num?
    ensures v.Arr? ==> r == Some(v.items)
    ensures v.Str? ==> r.Some? && |r.value| == |v.s| && forall i :: 0 <= i < |v.s| ==> r.value[i] == Str([v.s[i]])
    ensures v.Obj? ==>
      && r.Some? && |r.value| == |v.fields.keys|
      && forall i :: 0 <= i < |v.fields.keys| ==> r.value[i] == Str(v.fields.keys[i])
  {
    match v
    case Arr(items) => Some(items)
    case Str(s) => Some(seq(|s|, i requires 0 <= i < |s| => Str([s[i]])))
    case Obj(fields) => Some(seq(|fields.keys|, i requires 0 <= i < |fields.keys| => Str(fields.keys[i])))
    case _ => None
  }

  /** The message of the `TypeError` raised by `for x in v` on a value that is not iterable. */
  function NotIterableMessage(v: Value): string {
    "'" + TypeName(v) + "' object is not iterable"
  }

  /** Wraps each string as a JSON string. */
  function Strs(ss: seq<string>): (r: seq<Value>)
    ensures |r| == |ss| && forall i :: 0 <= i < |ss| ==> r[i] == Str(ss[i])
  {
    if ss == [] then [] else [Str(ss[0])] + Strs(ss[1..])
  }

  /** Index of the first item that is not a string, `|items|` when all are strings. */
  function FirstNonString(items: seq<Value>): (k: nat)
    ensures k <= |items|
    ensures forall i :: 0 <= i < k ==> items[i].Str?
    ensures k < |items| ==> !items[k].Str?
  {
    if items == [] || !items[0].Str? then 0 else 1 + FirstNonString(items[1..])
  }

  /** `sep.join(items)`: the `TypeError` for the first non-string item, else the joined text. */
  function JoinValues(items: seq<Value>, sep: string): (r: Result<string, string>)
    ensures r.Ok? <==> forall i :: 0 <= i < |items| ==> items[i].Str?
  {
    var k := FirstNonString(items);
    if k < |items| then
      Err("sequence item " + Text.NatToString(k) + ": expected str instance, " + TypeName(items[k]) + " found")
    else
      Ok(Text.Join(seq(|items|, i requires 0 <= i < |items| => items[i].s), sep))
  }

  /**
   * What reading one response line from a server gave: nothing (end of
   * stream), a decoded JSON value, or the message of an exception raised while
   * writing the request, reading the line or decoding it.
   */
  datatype Reply = NoLine | Line(response: Value) | Raised(message: string)

  /** What running Amass gave: an exit with its output, a timeout, or an exception (a missing binary, say). */
  datatype RunOutcome = Completed(returnCode: int, stdout: string, stderr: string) | TimedOut | Threw(message: string)
}
