/** Parsed JSON values and the JavaScript property reads the stream readers perform on them. Parsing and
    printing stay abstract: readers take them as functions. */
module Json {
  import opened Basics

  /** digits * 10^exponent with no trailing zero among the digits, so that equal numbers are equal values. */
  datatype Number = Number(digits: int, exponent: int)

  const ZERO := Number(0, 0)

  datatype Json =
    | JNull
    | JBool(value: bool)
    | JNum(number: Number)
    | JStr(text: string)
    | JArr(items: seq<Json>)
    | JObj(fields: map<string, Json>)

  /** `value.key`, `None` for undefined. Reading a property of null throws in the program; its readers
      catch that and ignore the event, as they do for undefined. */
  function Field(v: Option<Json>, key: string): Option<Json> {
    if v.Some? && v.value.JObj? && key in v.value.fields then Some(v.value.fields[key]) else None
  }

  predicate IsText(v: Option<Json>, text: string) {
    v == Some(JStr(text))
  }

  function TextOf(v: Option<Json>): Option<string> {
    if v.Some? && v.value.JStr? then Some(v.value.text) else None
  }

  /** `v && typeof v === "object"` */
  predicate IsObject(v: Option<Json>) {
    v.Some? && (v.value.JObj? || v.value.JArr?)
  }

  predicate Truthy(v: Option<Json>) {
    v.Some? &&
    match v.value
    case JNull => false
    case JBool(b) => b
    case JNum(n) => n.digits != 0
    case JStr(t) => t != ""
    case _ => true
  }

  function Decimal(n: nat): string {
    if n < 10 then ["0123456789"[n]] else Decimal(n / 10) + ["0123456789"[n % 10]]
  }

  type Parser = string -> Option<Json>
}
