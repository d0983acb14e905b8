/** A JSON value as JavaScript sees it after `JSON.parse`, with the three language rules the
    worker and the listener depend on: truthiness, property reads, and `String(v)`. */
module JsValue {
  import opened Text

  /** Numbers are modelled as integers. */
  datatype Json =
    | JNull
    | JBool(b: bool)
    | JNum(n: int)
    | JStr(s: string)
    | JArr(items: seq<Json>)
    | JObj(fields: map<string, Json>)

  /** The empty object `{}`. */
  const EmptyObject: Json := JObj(map[])

  predicate Truthy(v: Json) {
    match v
    case JNull => false
    case JBool(b) => b
    case JNum(n) => n != 0
    case JStr(s) => s != ""
    case _ => true
  }

  /** What reading `v.key` gives: a value, `undefined`, or a TypeError (reading a property of `null`). */
  datatype Read = Value(v: Json) | Undefined | TypeError

  function Get(v: Json, key: string): (r: Read)
    ensures r.TypeError? <==> v == JNull
    ensures v.JObj? && key in v.fields ==> r == Value(v.fields[key])
  {
    match v
    case JNull => TypeError
    case JObj(fields) => if key in fields then Value(fields[key]) else Undefined
    case _ => Undefined
  }

  /** `r || default` where `r` is a property read that did not throw. */
  function OrElse(r: Read, default: Json): (out: Json)
    requires !r.TypeError?
    ensures r.Value? && Truthy(r.v) ==> out == r.v
    ensures !(r.Value? && Truthy(r.v)) ==> out == default
  {
    if r.Value? && Truthy(r.v) then r.v else default
  }

  predicate TruthyRead(r: Read) {
    r.Value? && Truthy(r.v)
  }

  /** `const { key = default } = obj`: the default replaces `undefined` only, not `null`. */
  function WithDefault(r: Read, default: Json): (out: Json)
    requires !r.TypeError?
    ensures r.Undefined? ==> out == default
    ensures r.Value? ==> out == r.v
  {
    if r.Value? then r.v else default
  }

  /** The column value a row insert stores for a field: `undefined` fields are dropped from
      the request and the column keeps its SQL `NULL`. */
  function Column(r: Read): (out: Json)
    requires !r.TypeError?
    ensures r.Undefined? ==> out == JNull
    ensures r.Value? ==> out == r.v
  {
    if r.Value? then r.v else JNull
  }

  /** `${r}` in a template literal. */
  function TemplateText(r: Read): string
    requires !r.TypeError?
  {
    if r.Value? then ToText(r.v) else "undefined"
  }

  /** `String(v)`: how JavaScript turns a value into text, for `+` and template literals. */
  function ToText(v: Json): string
    decreases v, 0
  {
    match v
    case JNull => "null"
    case JBool(b) => if b then "true" else "false"
    case JNum(n) => IntToString(n)
    case JStr(s) => s
    case JArr(items) => JoinWithCommas(seq(|items|, i requires 0 <= i < |items| => ElementText(items[i])))
    case JObj(_) => "[object Object]"
  }

  /** `Array.prototype.join` renders `null` elements as the empty string. */
  function ElementText(v: Json): string
    decreases v, 1
  {
    if v == JNull then "" else ToText(v)
  }

  function JoinWithCommas(parts: seq<string>): string {
    if parts == [] then "" else if |parts| == 1 then parts[0] else parts[0] + "," + JoinWithCommas(parts[1..])
  }
}
