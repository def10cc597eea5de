/** The fragment of JavaScript values the handlers touch: what `JSON.parse`
    can produce, plus `undefined` for a property that is not there. */
module JsValues {

  import opened Wrappers

  /** A JavaScript value. `Num` holds the mathematical value of a JSON number
      (a JSON text cannot denote NaN or an infinity); `Arr` and `Obj` are the
      arrays and plain objects built by `JSON.parse`. */
  datatype JsValue =
    | Undefined
    | Null
    | Bool(b: bool)
    | Num(n: real)
    | Str(s: string)
    | Arr(items: seq<JsValue>)
    | Obj(fields: map<string, JsValue>)

  /** JavaScript truthiness: `undefined`, `null`, `false`, `0` and `""` are falsy. */
  predicate Truthy(v: JsValue) {
    match v
    case Undefined => false
    case Null => false
    case Bool(b) => b
    case Num(n) => n != 0.0
    case Str(s) => s != []
    case Arr(_) => true
    case Obj(_) => true
  }

  /** ToBoolean as the ECMAScript specification tables it: exactly five
      values of this fragment are falsy. */
  lemma FalsyValues(v: JsValue)
    ensures !Truthy(v) <==> v in [Undefined, Null, Bool(false), Num(0.0), Str("")]
  {
  }

  predicate Nullish(v: JsValue) {
    v.Undefined? || v.Null?
  }

  /** The engine's message for reading property `key` of `null` or `undefined`. */
  function ReadError(base: JsValue, key: string): string
    requires Nullish(base)
  {
    "Cannot read properties of " + (if base.Null? then "null" else "undefined")
      + " (reading '" + key + "')"
  }

  /** The engine's message for calling something that is not a function. */
  function NotAFunction(callee: string): string {
    callee + " is not a function"
  }

  /** `base[key]` on a base that is not nullish. None of the keys the handlers
      read is inherited from a prototype, so only an object's own entry is seen. */
  function Property(base: JsValue, key: string): (r: JsValue)
    ensures !base.Obj? ==> r == Undefined
    ensures base.Obj? && key !in base.fields ==> r == Undefined
    ensures base.Obj? && key in base.fields ==> r == base.fields[key]
  {
    match base
    case Obj(fields) => if key in fields then fields[key] else Undefined
    case _ => Undefined
  }

  /** `v || fallback`: the left operand when it is truthy, otherwise the right one. */
  function Or(v: JsValue, fallback: JsValue): (r: JsValue)
    ensures Truthy(v) ==> r == v
    ensures !Truthy(v) ==> r == fallback
    ensures Truthy(v) || Truthy(fallback) <==> Truthy(r)
  {
    if Truthy(v) then v else fallback
  }

  /** A process environment variable read: unset, or set to a string. `!value`
      holds when it is unset or empty. */
  predicate EnvSet(e: Option<string>) {
    e.Some? && e.value != []
  }

  /** `!value` holds for exactly two environment readings: unset and empty. */
  lemma EnvUnsetValues(e: Option<string>)
    ensures !EnvSet(e) <==> e == None || e == Some("")
  {
  }
}
