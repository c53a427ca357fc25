/** The untyped values that reach the core from JSON bodies, query strings and chain
    models, with the two JavaScript tests the source applies to them: truthiness
    (`!x`) and `typeof`. */
module JsValues {
  import opened Wrappers

  /** A JavaScript number. Only integers are modelled; `NaN` is kept because the
      source tests for it explicitly. */
  datatype JsNumber = NaN | Num(v: int)

  datatype JsValue =
    | Undefined
    | Null
    | Bool(b: bool)
    | Number(n: JsNumber)
    | Str(s: string)
    | Arr(items: seq<JsValue>)
    | Obj(fields: map<string, JsValue>)

  /** JavaScript truthiness: `false`, `0`, `NaN`, `""`, `null` and `undefined` are falsy. */
  predicate Truthy(v: JsValue) {
    match v
    case Undefined => false
    case Null => false
    case Bool(b) => b
    case Number(n) => n.Num? && n.v != 0
    case Str(s) => s != ""
    case Arr(_) => true
    case Obj(_) => true
  }

  /** The `typeof` operator; `null` and arrays are both `"object"`. */
  function TypeOf(v: JsValue): string {
    match v
    case Undefined => "undefined"
    case Null => "object"
    case Bool(_) => "boolean"
    case Number(_) => "number"
    case Str(_) => "string"
    case Arr(_) => "object"
    case Obj(_) => "object"
  }

  predicate IsNonEmptyString(v: JsValue) {
    v.Str? && v.s != ""
  }

  /** The guard `!x || typeof x !== 'string'` that the source writes for every
      required string field: it rejects exactly the values that are not a non-empty
      string. */
  function MissingOrNotString(v: JsValue): (missing: bool)
    ensures missing <==> !IsNonEmptyString(v)
  {
    !Truthy(v) || TypeOf(v) != "string"
  }

  /** The error a property read raises: reading a property of `null` or `undefined`
      throws a `TypeError`. */
  datatype PropertyError = TypeError

  /** Reading property `name` of `v`, as `v.name` or a destructuring `const { name } = v`
      does. Only own fields of objects are modelled; built-in properties of arrays and
      strings (such as `length`) are not, and no field the core reads collides with them. */
  function Property(v: JsValue, name: string): (r: Result<JsValue, PropertyError>)
    ensures r.Err? <==> v.Null? || v.Undefined?
    ensures v.Obj? && name in v.fields ==> r == Ok(v.fields[name])
    ensures v.Obj? && name !in v.fields ==> r == Ok(Undefined)
    ensures !v.Obj? && r.Ok? ==> r.value == Undefined
  {
    match v
    case Undefined => Err(TypeError)
    case Null => Err(TypeError)
    case Obj(fields) => if name in fields then Ok(fields[name]) else Ok(Undefined)
    case _ => Ok(Undefined)
  }

  /** `v.name` on a value already known to be an object or array. */
  function Field(v: JsValue, name: string): (r: JsValue)
    requires v.Obj? || v.Arr?
    ensures Property(v, name) == Ok(r)
    ensures v.Obj? && name in v.fields ==> r == v.fields[name]
    ensures !(v.Obj? && name in v.fields) ==> r == Undefined
  {
    if v.Obj? && name in v.fields then v.fields[name] else Undefined
  }
}
