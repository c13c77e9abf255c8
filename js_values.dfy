/**
 * The JSON scalars the screens inspect in server responses (`success`, `status`, ids),
 * with JavaScript truthiness and `String(...)` conversion.
 * Numbers that occur in these fields are integers (ids, `1`/`0` flags).
 */
module JsValues {
  import opened Wrappers
  import JsNumbers

  datatype JsValue = Undefined | Null | Bool(b: bool) | Int(i: int) | Str(s: string)

  /** JavaScript truthiness: `false`, `0`, `""`, `null` and `undefined` are falsy. */
  predicate Truthy(v: JsValue) {
    match v
    case Bool(b) => b
    case Int(i) => i != 0
    case Str(s) => s != ""
    case _ => false
  }

  /** `String(v)`. */
  function ToString(v: JsValue): (r: string)
    ensures v.Str? ==> r == v.s
    ensures v.Int? ==> JsNumbers.ParseInt(r) == Some(v.i)
  {
    match v
    case Undefined => "undefined"
    case Null => "null"
    case Bool(b) => if b then "true" else "false"
    case Int(i) => JsNumbers.ParseIntOfIntToString(i); JsNumbers.IntToString(i)
    case Str(s) => s
  }

  /**
   * What an `<input>` reads back after `input.value = v`: the property converts `null` to
   * the empty text and every other value with `String(v)`.
   */
  function InputText(v: JsValue): (r: string)
    ensures v == Null ==> r == ""
    ensures v.Str? ==> r == v.s
    ensures v.Int? ==> JsNumbers.ParseInt(r) == Some(v.i)
    ensures v == Undefined ==> r == "undefined"
  {
    if v == Null then "" else ToString(v)
  }

  /**
   * What a `<select>` reads back after `select.value = v`: the option whose value is
   * `String(v)` becomes selected; when there is none, no option is selected and the value
   * reads as the empty text.
   */
  function SelectText(optionValues: seq<string>, v: JsValue): (r: string)
    ensures ToString(v) in optionValues ==> r == ToString(v)
    ensures ToString(v) !in optionValues ==> r == ""
    ensures r != "" ==> r in optionValues
  {
    if ToString(v) in optionValues then ToString(v) else ""
  }

  /** A string-valued optional field (a filter, a query parameter) is "set" when truthy. */
  predicate Present(o: Option<string>) {
    o.Some? && o.value != ""
  }
}
