/** A JSON value as `JSON.parse` produces it, and the three JavaScript
    operations the services apply to such values: truthiness, property
    access and `a || b`. */
module Json {
  import opened Wrappers

  datatype JsonValue =
    | Null
    | Bool(b: bool)
    | Num(n: real)
    | Str(s: string)
    | Arr(items: seq<JsonValue>)
    | Obj(members: map<string, JsonValue>)

  /** JavaScript's ToBoolean: null, false, 0 and "" are falsy; every array
      and object, even an empty one, is truthy. (NaN never comes out of
      JSON.parse.) */
  predicate Truthy(v: JsonValue)
  {
    match v
    case Null => false
    case Bool(b) => b
    case Num(n) => n != 0.0
    case Str(s) => |s| > 0
    case Arr(_) => true
    case Obj(_) => true
  }

  /** `v.key` for a value that is not null: an object's own member, and
      `undefined` (None) for a missing member or any other kind of value.
      Reading a property of null throws; callers test for Null first. */
  function Member(v: JsonValue, key: string): (r: Option<JsonValue>)
    ensures r.Some? <==> v.Obj? && key in v.members
    ensures r.Some? ==> r.value == v.members[key]
  {
    if v.Obj? && key in v.members then Some(v.members[key]) else None
  }

  /** `a || d` where `a` may be undefined: `a` itself when it is truthy,
      otherwise the default. */
  function OrElse(a: Option<JsonValue>, d: JsonValue): (r: JsonValue)
    ensures a.Some? && Truthy(a.value) ==> r == a.value
    ensures !(a.Some? && Truthy(a.value)) ==> r == d
    ensures Truthy(d) ==> Truthy(r)
  {
    if a.Some? && Truthy(a.value) then a.value else d
  }

  /** The elements of the JSON array of the given strings. */
  function StrItems(xs: seq<string>): (r: seq<JsonValue>)
    ensures |r| == |xs|
    ensures forall i :: 0 <= i < |xs| ==> r[i] == Str(xs[i])
  {
    seq(|xs|, i requires 0 <= i < |xs| => Str(xs[i]))
  }

  /** How numbers become text inside template strings: `String(x)` and
      `x.toFixed(1)`. Binary floating point and its printing are not part of
      this model, so both renderings are parameters. */
  datatype NumberFormat = NumberFormat(toString: real -> string, toFixed1: real -> string)

  function Join(parts: seq<string>, sep: string): string
  {
    if |parts| == 0 then "" else if |parts| == 1 then parts[0]
    else parts[0] + sep + Join(parts[1..], sep)
  }

  /** Turning `v` into a string throws: an object with its own
      "toString" member has a value there that is not a function, and the
      inherited `valueOf` gives back the object itself, so no primitive is
      found ("Cannot convert object to primitive value"). An array throws
      when one of its elements does, because `join` converts each. */
  predicate ThrowsOnString(v: JsonValue)
    decreases v
  {
    match v
    case Obj(members) => "toString" in members
    case Arr(items) => exists i :: 0 <= i < |items| && ThrowsOnString(items[i])
    case _ => false
  }

  /** `${v}` inside a template string, None when it throws: strings as
      they are, numbers through the format, arrays joined with "," (null
      elements as ""), other objects as "[object Object]". */
  function Interpolate(v: JsonValue, fmt: NumberFormat): (r: Option<string>)
    ensures r.None? <==> ThrowsOnString(v)
    ensures v.Str? ==> r == Some(v.s)
    ensures v.Obj? && "toString" !in v.members ==> r == Some("[object Object]")
    decreases v
  {
    match v
    case Null => Some("null")
    case Bool(b) => Some(if b then "true" else "false")
    case Num(n) => Some(fmt.toString(n))
    case Str(s) => Some(s)
    case Arr(items) =>
      var parts := seq(|items|, i requires 0 <= i < |items| =>
        if items[i] == Null then Some("") else Interpolate(items[i], fmt));
      assert forall i :: 0 <= i < |parts| ==> (parts[i].None? <==> ThrowsOnString(items[i]));
      if exists i :: 0 <= i < |parts| && parts[i].None? then None
      else Some(Join(seq(|parts|, i requires 0 <= i < |parts| => parts[i].value), ","))
    case Obj(members) => if "toString" in members then None else Some("[object Object]")
  }
}
