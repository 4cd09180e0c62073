/**
 * A parsed JSON body as the front end reads it: property access, `x[0]`,
 * JavaScript truthiness and `String(x)` on the parsed value.
 */
module Json {
  import opened Wrappers
  import opened Text
  import Js

  datatype Json =
    | JNull
    | JBool(b: bool)
    | JNum(n: real)
    | JStr(s: string)
    | JArr(items: seq<Json>)
    | JObj(fields: map<string, Json>)

  /** `data[key]` on a value that is not null: `None` stands for undefined. */
  function Field(data: Json, key: string): (v: Option<Json>)
    ensures v.Some? <==> data.JObj? && key in data.fields
  {
    if data.JObj? && key in data.fields then Some(data.fields[key]) else None
  }

  /** JavaScript truthiness of a possibly undefined value. */
  predicate Truthy(v: Option<Json>) {
    match v
    case None => false
    case Some(JNull) => false
    case Some(JBool(b)) => b
    case Some(JNum(n)) => n != 0.0
    case Some(JStr(s)) => s != ""
    case Some(JArr(_)) => true
    case Some(JObj(_)) => true
  }

  /**
   * `x[0]`: the first element of an array, the first character of a string,
   * or an object's own property "0"; undefined otherwise.
   */
  function First(v: Json): (r: Option<Json>)
    ensures v.JStr? && v.s != "" ==> r == Some(JStr([v.s[0]]))
    ensures v.JArr? && v.items != [] ==> r == Some(v.items[0])
    ensures v.JObj? && "0" in v.fields ==> r == Some(v.fields["0"])
    ensures r.None? <==> v.JNull? || v.JBool? || v.JNum? || v == JStr("") || v == JArr([]) || (v.JObj? && "0" !in v.fields)
  {
    match v
    case JArr(items) => if items != [] then Some(items[0]) else None
    case JStr(s) => if s != "" then Some(JStr([s[0]])) else None
    case JObj(fields) => if "0" in fields then Some(fields["0"]) else None
    case _ => None
  }

  /** `String(x)`; how a number is printed is a parameter. */
  function ToJsString(v: Json, showNumber: Js.Num -> string): string
    decreases v, 1
  {
    match v
    case JNull => "null"
    case JBool(b) => if b then "true" else "false"
    case JNum(n) => showNumber(Js.Fin(n))
    case JStr(s) => s
    case JArr(items) => JoinItems(v, items, ",", showNumber)
    case JObj(_) => "[object Object]"
  }

  /** `items.join(sep)` for elements of `whole`: null elements print as nothing. */
  function JoinItems(ghost whole: Json, items: seq<Json>, sep: string, showNumber: Js.Num -> string): string
    requires forall i :: 0 <= i < |items| ==> items[i] < whole
    decreases whole, 0, |items|
  {
    if items == [] then ""
    else
      var head := if items[0].JNull? then "" else ToJsString(items[0], showNumber);
      if |items| == 1 then head else head + sep + JoinItems(whole, items[1..], sep, showNumber)
  }

  /** The string a list element stands for when an array is joined. */
  function ItemString(v: Json, showNumber: Js.Num -> string): (s: string)
    ensures v.JStr? ==> s == v.s
    ensures v.JNull? ==> s == ""
  {
    if v.JNull? then "" else ToJsString(v, showNumber)
  }
}
