/**
 * JSON values as `JSON.parse` produces them, with the JavaScript coercions the source applies to
 * them: truthiness, property reads, `String(v)` and `Number(v)`. Numbers are integers here.
 */
module Json {
  import opened Common
  import opened JsStr

  datatype Json =
    | JNull
    | JBool(b: bool)
    | JNum(n: int)
    | JStr(s: string)
    | JArr(items: seq<Json>)
    | JObj(fields: map<string, Json>)

  /** Truthiness of a JSON value: `null`, `false`, `0` and `""` are falsy. */
  predicate TruthyJson(v: Json) {
    match v
    case JNull => false
    case JBool(b) => b
    case JNum(n) => n != 0
    case JStr(s) => s != ""
    case JArr(_) => true
    case JObj(_) => true
  }

  /** Truthiness of a value that may be `undefined` (None). */
  predicate Truthy(v: Option<Json>) {
    v.Some? && TruthyJson(v.value)
  }

  /** `v[key]` on a non-null value: only objects have the properties read here. */
  function Get(v: Json, key: string): (r: Option<Json>)
    ensures r.Some? <==> v.JObj? && key in v.fields
  {
    match v
    case JObj(fields) => if key in fields then Some(fields[key]) else None
    case _ => None
  }

  /** `String(v)`; an array joins its elements with "," and shows `null` as "". */
  function ToStr(v: Json): string
    decreases v
  {
    match v
    case JNull => "null"
    case JBool(b) => if b then "true" else "false"
    case JNum(n) => IntToString(n)
    case JStr(s) => s
    case JArr(items) =>
      Join(seq(|items|, i requires 0 <= i < |items| => if items[i].JNull? then "" else ToStr(items[i])), ",")
    case JObj(_) => "[object Object]"
  }

  /** `Number(v)`; None is NaN. */
  function ToNumber(v: Option<Json>): Option<int> {
    match v
    case None => None
    case Some(JNull) => Some(0)
    case Some(JBool(b)) => Some(if b then 1 else 0)
    case Some(JNum(n)) => Some(n)
    case Some(JStr(s)) => NumberOfString(s)
    case Some(JArr(items)) => NumberOfString(ToStr(JArr(items)))
    case Some(JObj(_)) => None
  }

  /** `String(v || "")`. */
  function StrOrEmpty(v: Option<Json>): (r: string)
    ensures !Truthy(v) ==> r == ""
    ensures Truthy(v) && v.value.JStr? ==> r == v.value.s
  {
    if Truthy(v) then ToStr(v.value) else ""
  }

  /** `Number(v) || 0`: NaN and 0 both become 0. */
  function NumberOrZero(v: Option<Json>): int {
    match ToNumber(v)
    case Some(n) => n
    case None => 0
  }

  /** A number read back through `Number(String(n))` is unchanged. */
  lemma NumberOfNumberString(n: int)
    ensures NumberOrZero(Some(JStr(ToStr(JNum(n))))) == n
  {
    NumberOfIntString(n);
  }
}
