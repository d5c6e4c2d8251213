/** Values that JSON.parse can return, and property access on them. */
module Json {

  /** A number parsed from JSON: a literal beyond the double range becomes infinite. */
  datatype JsNumber = Finite(r: real) | Infinite(negative: bool)

  datatype Js =
    | Undefined | Null | Bool(b: bool) | Num(n: JsNumber) | Str(s: string)
    | Arr(items: seq<Js>) | Obj(fields: map<string, Js>)

  function Field(v: Js, name: string): Js {
    if v.Obj? && name in v.fields then v.fields[name] else Undefined
  }
}
