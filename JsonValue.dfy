/** Untyped JSON values as `JSON.parse` produces them, with the JavaScript
    operations the source applies to them: truthiness, reading a property,
    assigning one, and object spread. */
module JsonValue {
  import opened Wrappers
  import opened JsText

  /** A number is carried by its canonical JavaScript rendering (`String(n)`),
      so `0` and `-0` are both `JNum("0")`. An object is a map from keys to values. */
  datatype Json =
    | JNull
    | JBool(b: bool)
    | JNum(text: string)
    | JStr(s: string)
    | JArr(items: seq<Json>)
    | JObj(fields: map<string, Json>)

  /** JavaScript truthiness (`NaN` cannot come out of `JSON.parse`). */
  predicate Truthy(j: Json)
  {
    match j
    case JNull => false
    case JBool(b) => b
    case JNum(t) => t != "0"
    case JStr(s) => s != ""
    case JArr(_) => true
    case JObj(_) => true
  }

  /** `j.key` on a value that is not `null`: an own property of an object, else
      `undefined`. The keys the source reads (`id`, `destinations`, `success`,
      `data`, `error`, `userInput`, `apiKeys`, ...) are not properties of any
      built-in prototype, nor array indices, so this is exact for them. */
  function Prop(j: Json, key: string): (r: Option<Json>)
    ensures r.Some? ==> j.JObj? && key in j.fields
  {
    if j.JObj? && key in j.fields then Some(j.fields[key]) else None
  }

  /** `!!j.key` */
  predicate TruthyProp(j: Json, key: string)
  {
    Prop(j, key).Some? && Truthy(Prop(j, key).value)
  }

  /** `a || b` where `a` may be `undefined`. */
  function OrElse(a: Option<Json>, b: Json): (r: Json)
    ensures Truthy(b) ==> Truthy(r)
  {
    if a.Some? && Truthy(a.value) then a.value else b
  }

  /** The own enumerable properties that `{...j}` copies: an object's fields,
      a string's characters or an array's elements under their decimal
      indices, and nothing for `null`, booleans and numbers. */
  function SpreadFields(j: Json): (m: map<string, Json>)
    ensures j.JObj? ==> m == j.fields
  {
    match j
    case JObj(fields) => fields
    case JArr(items) => IndexMap(items)
    case JStr(s) => IndexMap(seq(|s|, i requires 0 <= i < |s| => JStr([s[i]])))
    case _ => map[]
  }

  /** `{"0": xs[0], "1": xs[1], ...}` */
  function IndexMap(xs: seq<Json>): (m: map<string, Json>)
    ensures forall i :: 0 <= i < |xs| ==> Decimal(i) in m && m[Decimal(i)] == xs[i]
  {
    DecimalsInjective();
    map i | 0 <= i < |xs| :: Decimal(i) := xs[i]
  }

  lemma DecimalsInjective()
    ensures forall m: nat, n: nat :: Decimal(m) == Decimal(n) ==> m == n
  {
    forall m: nat, n: nat ensures Decimal(m) == Decimal(n) ==> m == n {
      DecimalInjective(m, n);
    }
  }

  /** `{...j, key: v}` */
  function SpreadWith(j: Json, key: string, v: Json): (r: Json)
    ensures r.JObj? && key in r.fields && r.fields[key] == v
    ensures forall k :: k != key ==> (k in r.fields <==> k in SpreadFields(j))
    ensures forall k :: k != key && k in r.fields ==> r.fields[k] == SpreadFields(j)[k]
  {
    JObj(SpreadFields(j)[key := v])
  }
}
