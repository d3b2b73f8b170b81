/** The JavaScript values that the checkbox's props and rendered attributes hold, with the
    language's truthiness and its value-returning `||` operator. */
module JsValues {
  import opened Wrappers

  /** Numbers are integers here; functions are named by what they are; other objects
      (elements, nodes) by an identity. */
  datatype JsValue =
    | Undefined
    | Null
    | Bool(b: bool)
    | Str(s: string)
    | Num(n: int)
    | Fn(name: string)
    | Obj(id: nat)

  /** ToBoolean: `undefined`, `null`, `false`, `""` and `0` are falsy, everything else truthy. */
  predicate Truthy(v: JsValue) {
    match v
    case Undefined => false
    case Null => false
    case Bool(b) => b
    case Str(s) => s != ""
    case Num(n) => n != 0
    case Fn(_) => true
    case Obj(_) => true
  }

  /** `if (f) { f(x); }` throws a `TypeError`: `f` is truthy but not a function. */
  predicate CallFails(f: JsValue) {
    Truthy(f) && !f.Fn?
  }

  /** `a || b`: the left operand when it is truthy, otherwise the right one. */
  function Or(a: JsValue, b: JsValue): (r: JsValue)
    ensures r == a || r == b
    ensures Truthy(r) <==> Truthy(a) || Truthy(b)
  {
    if Truthy(a) then a else b
  }

  /** An optional boolean prop as the value JavaScript sees. */
  function OfBool(o: Option<bool>): JsValue {
    match o
    case None => Undefined
    case Some(b) => Bool(b)
  }

  /** An optional string prop as the value JavaScript sees. */
  function OfString(o: Option<string>): JsValue {
    match o
    case None => Undefined
    case Some(s) => Str(s)
  }

  /** Reading a key of a props object: a missing key reads as `undefined`. */
  function Lookup(m: map<string, JsValue>, key: string): (v: JsValue)
    ensures key !in m ==> v == Undefined
  {
    if key in m then m[key] else Undefined
  }

  lemma OfBoolTruthy(o: Option<bool>)
    ensures Truthy(OfBool(o)) <==> o == Some(true)
  {
  }
}
