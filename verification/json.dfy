/** JSON values as the JavaScript front end and the Python back end see
    them, with the few language rules the application depends on: property
    reads, truthiness, string conversion, object spread and `Object.keys`.
    An `Option<Json>` is a value that may be JavaScript `undefined`. */
module Json {
  import opened Wrappers
  import Text

  /** Objects keep their members in insertion order. */
  datatype Json =
    | Null
    | Bool(b: bool)
    | Num(n: int)
    | Str(s: string)
    | Arr(items: seq<Json>)
    | Obj(members: seq<(string, Json)>)

  /** The value of the first member named `key`. */
  function Lookup(members: seq<(string, Json)>, key: string): (r: Option<Json>)
    ensures r.None? <==> forall i :: 0 <= i < |members| ==> members[i].0 != key
    ensures r.Some? ==> (key, r.value) in members
  {
    if |members| == 0 then None
    else if members[0].0 == key then Some(members[0].1)
    else Lookup(members[1..], key)
  }

  /** V8's message for reading a property of `null`. */
  function NullPropertyMessage(key: string): string {
    "Cannot read properties of null (reading '" + key + "')"
  }

  /** V8's message for reading a property of `undefined`. */
  function UndefinedPropertyMessage(key: string): string {
    "Cannot read properties of undefined (reading '" + key + "')"
  }

  /** V8's message for destructuring `null`. */
  function NullDestructureMessage(key: string): string {
    "Cannot destructure property '" + key + "' of '(intermediate value)' as it is null."
  }

  /** `v?.key`: absent for anything but an object carrying the key. */
  function Member(v: Json, key: string): Option<Json> {
    if v.Obj? then Lookup(v.members, key) else None
  }

  /** `v.key`: reading from `null` throws; other non-objects have none of
      the application's keys. */
  function Get(v: Json, key: string): (r: Result<Option<Json>, string>)
    ensures r.Failure? <==> v.Null?
    ensures r.Success? ==> r.value == Member(v, key)
  {
    if v.Null? then Failure(NullPropertyMessage(key)) else Success(Member(v, key))
  }

  /** `const { key, ... } = v`: destructuring `null` throws. */
  function Destructure(v: Json, key: string): (r: Result<Option<Json>, string>)
    ensures r.Failure? <==> v.Null?
    ensures r.Success? ==> r.value == Member(v, key)
  {
    if v.Null? then Failure(NullDestructureMessage(key)) else Success(Member(v, key))
  }

  /** JavaScript truthiness; `undefined` is falsy, every array and object is truthy. */
  predicate JsTruthy(v: Option<Json>): (b: bool)
    ensures v.None? ==> !b
    ensures v.Some? && (v.value.Arr? || v.value.Obj?) ==> b
    ensures v.Some? && !v.value.Arr? && !v.value.Obj? ==> (b <==> PyTruthy(v.value))
  {
    match v
    case None => false
    case Some(j) =>
      match j
      case Null => false
      case Bool(b) => b
      case Num(n) => n != 0
      case Str(s) => s != ""
      case Arr(_) => true
      case Obj(_) => true
  }

  /** Python truthiness; empty containers are falsy. */
  predicate PyTruthy(v: Json) {
    match v
    case Null => false
    case Bool(b) => b
    case Num(n) => n != 0
    case Str(s) => s != ""
    case Arr(items) => |items| > 0
    case Obj(members) => |members| > 0
  }

  /** `String(v)`: arrays join their elements with commas, rendering `null`
      elements as nothing. */
  function ToJsString(v: Json): (r: string)
    ensures v.Num? ==> Text.StringToInteger(r) == Some(v.n)
    ensures v.Str? ==> r == v.s
    ensures v.Bool? ==> (r == "true" <==> v.b) && (r == "false" <==> !v.b)
    ensures v.Arr? && |v.items| == 0 ==> r == ""
    ensures v.Arr? && |v.items| == 1 && v.items[0].Null? ==> r == ""
    ensures v.Arr? && |v.items| == 1 && v.items[0].Str? ==> r == v.items[0].s
    decreases v
  {
    match v
    case Null => "null"
    case Bool(b) => if b then "true" else "false"
    case Num(n) => Text.IntegerRoundTrip(n); Text.IntToString(n)
    case Str(s) => s
    case Arr(items) =>
      Text.Join(seq(|items|, i requires 0 <= i < |items| =>
                      if items[i].Null? then "" else ToJsString(items[i])), ",")
    case Obj(_) => "[object Object]"
  }

  /** `String(v)` for a value that may be `undefined`. */
  function Show(v: Option<Json>): (r: string)
    ensures v.None? ==> r == "undefined"
    ensures v.Some? && v.value.Str? ==> r == v.value.s
    ensures v.Some? && v.value.Num? ==> Text.StringToInteger(r) == Some(v.value.n)
  {
    match v
    case None => "undefined"
    case Some(j) => ToJsString(j)
  }

  /** `new Error(v || fallback).message`. */
  function ErrorMessage(v: Option<Json>, fallback: string): (r: string)
    ensures !JsTruthy(v) ==> r == fallback
    ensures v.Some? && v.value.Str? && v.value.s != "" ==> r == v.value.s
  {
    if JsTruthy(v) then Show(v) else fallback
  }

  /** The members of an object literal that survive `JSON.stringify`:
      those whose value is not `undefined`. */
  function Present(fields: seq<(string, Option<Json>)>): (r: seq<(string, Json)>)
    ensures forall k :: Lookup(r, k) == LookupField(fields, k)
    ensures forall i :: 0 <= i < |r| ==> r[i].0 in FieldNames(fields)
  {
    if |fields| == 0 then []
    else if fields[0].1.Some? then [(fields[0].0, fields[0].1.value)] + Present(fields[1..])
    else Present(fields[1..])
  }

  function FieldNames(fields: seq<(string, Option<Json>)>): set<string> {
    set i | 0 <= i < |fields| :: fields[i].0
  }

  /** The value bound to `key` by the first field naming it, if that value is defined. */
  function LookupField(fields: seq<(string, Option<Json>)>, key: string): Option<Json> {
    if |fields| == 0 then None
    else if fields[0].0 == key then (if fields[0].1.Some? then fields[0].1 else LookupField(fields[1..], key))
    else LookupField(fields[1..], key)
  }

  /** An object literal as it travels through `JSON.stringify`. */
  function ObjectOf(fields: seq<(string, Option<Json>)>): Json {
    Obj(Present(fields))
  }

  /** `o[key] = value` on an object's members: an existing member keeps
      its position, a new one goes last. */
  function Assign(members: seq<(string, Json)>, key: string, value: Json): (r: seq<(string, Json)>)
    ensures Lookup(r, key) == Some(value)
    ensures forall k :: k != key ==> Lookup(r, k) == Lookup(members, k)
    ensures Lookup(members, key).Some? ==> |r| == |members|
  {
    if |members| == 0 then [(key, value)]
    else if members[0].0 == key then [(key, value)] + members[1..]
    else [members[0]] + Assign(members[1..], key, value)
  }

  /** The own enumerable members `{...v}` copies: an object's members,
      the indices of a string or an array, nothing for other values. */
  function Spread(v: Json): (r: seq<(string, Json)>)
    ensures v.Obj? ==> r == v.members
    ensures v.Arr? ==> |r| == |v.items|
    ensures v.Arr? ==> forall i :: 0 <= i < |r| ==> r[i].1 == v.items[i] && Text.StringToInteger(r[i].0) == Some(i)
    ensures v.Str? ==> |r| == |v.s|
    ensures v.Str? ==> forall i :: 0 <= i < |r| ==> r[i].1 == Str([v.s[i]]) && Text.StringToInteger(r[i].0) == Some(i)
    ensures !v.Obj? && !v.Arr? && !v.Str? ==> r == []
  {
    Text.NaturalsRoundTrip();
    match v
    case Obj(ms) => ms
    case Arr(items) => seq(|items|, i requires 0 <= i < |items| => (Text.NatToString(i), items[i]))
    case Str(s) => seq(|s|, i requires 0 <= i < |s| => (Text.NatToString(i), Str([s[i]])))
    case _ => []
  }

  /** V8's message for `Object.keys(null)`. */
  const NullToObjectMessage := "Cannot convert undefined or null to object"

  /** `Object.keys(v)[0]`, for object members in insertion order. */
  function FirstKey(v: Json): (r: Result<Option<string>, string>)
    ensures r.Failure? <==> v.Null?
    ensures v.Obj? && |v.members| > 0 ==> r == Success(Some(v.members[0].0))
    ensures v.Obj? && |v.members| == 0 ==> r == Success(None)
  {
    match v
    case Null => Failure(NullToObjectMessage)
    case Obj(ms) => Success(if |ms| > 0 then Some(ms[0].0) else None)
    case Arr(items) => Success(if |items| > 0 then Some("0") else None)
    case Str(s) => Success(if |s| > 0 then Some("0") else None)
    case _ => Success(None)
  }
}
