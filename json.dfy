/**
 * JavaScript values as the auth store handles them: objects with string keys,
 * truthiness, `a || b`, property access and object spread.
 */
module Json {
  datatype Json =
    | JUndefined
    | JNull
    | JBool(b: bool)
    | JNum(n: int)
    | JStr(s: string)
    | JObj(fields: map<string, Json>)

  type Obj = map<string, Json>

  /** JavaScript truthiness: `undefined`, `null`, `false`, `0` and `""` are falsy. */
  predicate Truthy(v: Json)
  {
    match v
    case JUndefined => false
    case JNull => false
    case JBool(b) => b
    case JNum(n) => n != 0
    case JStr(s) => s != []
    case JObj(_) => true
  }

  /** `null` or `undefined`: the values `??` and `?.` treat as missing, and whose properties cannot be read. */
  predicate IsNullish(v: Json)
  {
    v.JNull? || v.JUndefined?
  }

  /** `v || fallback`: one of the two operands, truthy exactly when either operand is. */
  function Or(v: Json, fallback: Json): (r: Json)
    ensures r == v || r == fallback
    ensures Truthy(r) <==> Truthy(v) || Truthy(fallback)
  {
    if Truthy(v) then v else fallback
  }

  /**
   * The laws of `||` the reads of optional fields rely on: a truthy operand
   * on the left is kept, a falsy one is skipped, `||` is associative, and a
   * truthy fallback makes the whole expression truthy.
   */
  lemma OrLaws(a: Json, b: Json, c: Json)
    ensures Truthy(a) ==> Or(a, b) == a
    ensures !Truthy(a) ==> Or(a, b) == b
    ensures Or(Or(a, b), c) == Or(a, Or(b, c))
    ensures Or(a, a) == a
    ensures Truthy(b) ==> Truthy(Or(a, b))
  {
  }

  /** `o[key]`, `undefined` when the key is absent. */
  function Get(o: Obj, key: string): (r: Json)
    ensures key in o ==> r == o[key]
    ensures key !in o ==> r == JUndefined
  {
    if key in o then o[key] else JUndefined
  }

  /** `o?.[key]` on any value: only an object has properties here. */
  function Prop(v: Json, key: string): (r: Json)
    ensures v.JObj? ==> r == Get(v.fields, key)
    ensures !v.JObj? ==> r == JUndefined
  {
    if v.JObj? then Get(v.fields, key) else JUndefined
  }

  /** The own properties `{...v}` copies: those of an object, none for `null` or `undefined`. */
  function Spreadable(v: Json): Obj
  {
    if v.JObj? then v.fields else map[]
  }

  /** `{...a, ...b}`: the keys of both, the later object winning. */
  function Spread(a: Obj, b: Obj): (r: Obj)
    ensures r.Keys == a.Keys + b.Keys
    ensures forall k :: k in b ==> r[k] == b[k]
    ensures forall k :: k in a && k !in b ==> r[k] == a[k]
  {
    map k | k in a.Keys + b.Keys :: if k in b then b[k] else a[k]
  }
}
