/** Plain JavaScript objects as the core uses them: string keys mapped to
    primitive values. A key that is absent reads as `undefined`; a key that
    is present may still hold `undefined` (as `{ x: undefined }` does). */
module Js {

  datatype Value = Undefined | Null | Bool(b: bool) | Num(n: int) | Str(s: string)

  type Obj = map<string, Value>

  /** `o.k` (missing keys read as `undefined`). */
  function Get(o: Obj, k: string): Value {
    if k in o then o[k] else Undefined
  }

  /** JavaScript truthiness: `undefined`, `null`, `false`, `0` and `""` are falsy. */
  predicate Truthy(v: Value) {
    match v
    case Undefined => false
    case Null => false
    case Bool(b) => b
    case Num(n) => n != 0
    case Str(s) => s != []
  }

  /** `{ ...a, ...b }`: every key of either object, the later object winning. */
  function Spread(a: Obj, b: Obj): (r: Obj)
    ensures r.Keys == a.Keys + b.Keys
    ensures forall k :: k in b ==> r[k] == b[k]
    ensures forall k :: k in a && k !in b ==> r[k] == a[k]
  {
    a + b
  }

  /** `const { k, ...rest } = o`: the `rest` object. */
  function Omit(o: Obj, k: string): (r: Obj)
    ensures r.Keys == o.Keys - {k}
    ensures forall j :: j in r ==> r[j] == o[j]
  {
    o - {k}
  }

  /** The field holds a string (so `.trim()`, `.length` are defined on it). */
  predicate HasText(o: Obj, k: string) {
    k in o && o[k].Str?
  }

  function TextOf(o: Obj, k: string): string
    requires HasText(o, k)
  {
    o[k].s
  }

  /** Spreading the same object twice is spreading it once:
      `{ ...a, ...{ ...a, ...b } }` equals `{ ...a, ...b }`. */
  lemma SpreadAbsorbs(a: Obj, b: Obj)
    ensures Spread(a, Spread(a, b)) == Spread(a, b)
  {
  }
}
