/**
 * Records as the server handles them: plain JavaScript objects whose fields
 * hold scalar values. The operations are the ones the source writes with
 * object syntax — property read, spread, rest-destructuring, truthiness,
 * template-literal conversion — and the effect of a JSON round trip.
 */
module JsValues {
  import opened TextRules

  /** A scalar JavaScript value. Numbers are integers here. */
  datatype Value = Undefined | Null | Bool(b: bool) | Num(n: int) | Str(s: string)

  /** An object: field name to value. */
  type Record = map<string, Value>

  /** Property read `r.k`: a missing field reads as `undefined`. */
  function Get(r: Record, k: string): (v: Value)
    ensures k !in r ==> v == Undefined
  {
    if k in r then r[k] else Undefined
  }

  /** JavaScript truthiness, as used by `if (x)` and `x || y`. */
  predicate Truthy(v: Value) {
    match v
    case Undefined => false
    case Null => false
    case Bool(b) => b
    case Num(n) => n != 0
    case Str(s) => s != ""
  }

  /** An object that survives `JSON.stringify` as it is: no field holds `undefined`. */
  predicate IsJson(r: Record) {
    forall k :: k in r ==> r[k] != Undefined
  }

  /**
   * What `JSON.stringify` followed by `JSON.parse` makes of an object: the
   * fields holding `undefined` disappear, and nothing a property read can
   * observe changes.
   */
  function Normalize(r: Record): (n: Record)
    ensures IsJson(n)
    ensures n.Keys <= r.Keys
    ensures forall k :: Get(n, k) == Get(r, k)
  {
    map k | k in r && r[k] != Undefined :: r[k]
  }

  /** An object that is already JSON comes through the round trip unchanged. */
  lemma NormalizeJson(r: Record)
    requires IsJson(r)
    ensures Normalize(r) == r
  {
  }

  /**
   * `{ ...a, ...b }`: every field of `b` overrides, every other field of `a`
   * is kept — including a field of `b` that holds `undefined`.
   */
  function Spread(a: Record, b: Record): (r: Record)
    ensures r.Keys == a.Keys + b.Keys
    ensures forall k :: k in b ==> r[k] == b[k]
    ensures forall k :: k in a && k !in b ==> r[k] == a[k]
  {
    a + b
  }

  /** `const { k, ...rest } = r`: `rest` is `r` without the field `k`. */
  function Rest(r: Record, k: string): (rest: Record)
    ensures rest.Keys == r.Keys - {k}
    ensures forall k' :: k' != k ==> Get(rest, k') == Get(r, k')
  {
    r - {k}
  }

  /** Removing a field and dropping `undefined` fields can be done in either order. */
  lemma RestNormalize(r: Record, k: string)
    ensures Rest(Normalize(r), k) == Normalize(Rest(r, k))
  {
  }

  /** `${v}` inside a template literal. */
  function ToJsString(v: Value): string {
    match v
    case Undefined => "undefined"
    case Null => "null"
    case Bool(b) => if b then "true" else "false"
    case Num(n) => DecimalString(n)
    case Str(s) => s
  }
}
