/**
 * The JavaScript values the display formatters receive: a reference field of a
 * record may hold nothing, an id string, or a populated object with some of
 * the properties `_id`, `name`, `prenom` and `titre`.
 */
module JsValues {
  import opened Wrappers

  datatype JsValue =
    | Undefined
    | Null
    | Str(s: string)
    | Obj(id: Option<string>, name: Option<string>, prenom: Option<string>, titre: Option<string>)
  {
    /** `!!v`: only `undefined`, `null` and the empty string are falsy here. */
    predicate Truthy() {
      match this
      case Undefined => false
      case Null => false
      case Str(s) => s != ""
      case Obj(_, _, _, _) => true
    }
  }

  /** A property is truthy: present and not the empty string. */
  predicate PropTruthy(p: Option<string>) {
    p.Some? && p.value != ""
  }

  /** `String(v)`. */
  function ToJsString(v: JsValue): (r: string)
    ensures v.Str? ==> r == v.s
    ensures !v.Str? ==> r != ""
  {
    match v
    case Undefined => "undefined"
    case Null => "null"
    case Str(s) => s
    case Obj(_, _, _, _) => "[object Object]"
  }
}
