/**
 * JSON-like values as the client handles them (response bodies, node data, request
 * bodies), together with the two JavaScript idioms the core relies on: truthiness
 * (`a || b`) and optional chaining (`a?.b?.c`).
 */
module Json {
  import opened Wrappers

  datatype Value =
    | JNull
    | JBool(b: bool)
    | JNum(n: real)
    | JStr(s: string)
    | JArr(items: seq<Value>)
    | JObj(fields: map<string, Value>)

  /** JavaScript truthiness of a JSON value; arrays and objects are always truthy. */
  predicate Truthy(v: Value) {
    match v
    case JNull => false
    case JBool(b) => b
    case JNum(n) => n != 0.0
    case JStr(s) => s != ""
    case JArr(_) => true
    case JObj(_) => true
  }

  /** Truthiness of a possibly undefined value. */
  predicate Given(v: Option<Value>) {
    v.Some? && Truthy(v.value)
  }

  /** `v.key` on a value that is not null: undefined unless `v` is an object holding `key`. */
  function Member(v: Value, key: string): Option<Value> {
    if v.JObj? && key in v.fields then Some(v.fields[key]) else None
  }

  /** `v || fallback`: the left operand when it is truthy, the fallback otherwise. */
  function Or(v: Option<Value>, fallback: Value): (r: Value)
    ensures r == fallback || (v.Some? && r == v.value)
    ensures Truthy(r) <==> Given(v) || Truthy(fallback)
    ensures Given(v) ==> r == v.value
  {
    if Given(v) then v.value else fallback
  }

  /** `v?.k1?.k2 ... ?.kn`: undefined as soon as one step is undefined or null. */
  function Path(v: Option<Value>, keys: seq<string>): (r: Option<Value>)
    ensures keys == [] ==> r == v
    ensures v.None? ==> r.None?
    ensures keys != [] && v.Some? && v.value.JNull? ==> r.None?
    decreases |keys|
  {
    if keys == [] || v.None? then v
    else if v.value.JNull? then None
    else Path(Member(v.value, keys[0]), keys[1..])
  }
}
