/**
 * The JavaScript values the push body and the service worker handle: JSON
 * values plus `undefined`, with the operators the source applies to them.
 * Numbers are integers here (no floating point, NaN or -0).
 */
module JsValue {

  datatype Value =
    | Undefined
    | Null
    | Bool(b: bool)
    | Num(n: int)
    | Str(s: string)
    | Arr(items: seq<Value>)
    | Obj(fields: map<string, Value>)

  /** JavaScript truthiness: `undefined`, `null`, `false`, `0` and `""` are falsy. */
  predicate Truthy(v: Value)
  {
    match v
    case Undefined => false
    case Null => false
    case Bool(b) => b
    case Num(n) => n != 0
    case Str(s) => s != ""
    case Arr(_) => true
    case Obj(_) => true
  }

  /** `v ?? d`: `d` exactly when `v` is `null` or `undefined`. */
  function Coalesce(v: Value, d: Value): (r: Value)
    ensures v.Undefined? || v.Null? ==> r == d
    ensures !v.Undefined? && !v.Null? ==> r == v
  {
    if v.Undefined? || v.Null? then d else v
  }

  /**
   * Reading a named property of a value that is neither `null` nor
   * `undefined`: an object's own field, else `undefined`. The model covers only
   * the property names the source reads, which no primitive carries.
   */
  function Prop(v: Value, key: string): (r: Value)
    requires !v.Undefined? && !v.Null?
    ensures v.Obj? && key in v.fields ==> r == v.fields[key]
    ensures !(v.Obj? && key in v.fields) ==> r == Undefined
  {
    if v.Obj? && key in v.fields then v.fields[key] else Undefined
  }

  /** `v?.key`: `undefined` when `v` is `null` or `undefined`, else the property. */
  function OptionalProp(v: Value, key: string): (r: Value)
    ensures v.Undefined? || v.Null? ==> r == Undefined
    ensures v.Obj? && key in v.fields ==> r == v.fields[key]
    ensures !(v.Obj? && key in v.fields) ==> r == Undefined
  {
    if v.Undefined? || v.Null? then Undefined else Prop(v, key)
  }

  /** A value with no `undefined` anywhere in it, as every JSON text denotes. */
  predicate Defined(v: Value)
  {
    match v
    case Undefined => false
    case Arr(items) => forall i :: 0 <= i < |items| ==> Defined(items[i])
    case Obj(fields) => forall k :: k in fields ==> Defined(fields[k])
    case _ => true
  }

  /**
   * What `JSON.stringify` writes for `v`, read back as a value: object members
   * whose value is `undefined` are left out and `undefined` array items become
   * `null`, at every depth; a top-level `undefined` writes nothing.
   */
  function Json(v: Value): (r: Value)
    ensures v.Undefined? <==> r.Undefined?
    ensures !v.Undefined? ==> Defined(r)
    ensures !v.Obj? && !v.Arr? ==> r == v
    ensures v.Obj? ==>
      && r.Obj?
      && (forall k :: k in r.fields <==> k in v.fields && !v.fields[k].Undefined?)
      && (forall k :: k in r.fields ==> r.fields[k] == Json(v.fields[k]))
    ensures v.Arr? ==>
      && r.Arr? && |r.items| == |v.items|
      && (forall i :: 0 <= i < |v.items| ==> r.items[i] == if v.items[i].Undefined? then Null else Json(v.items[i]))
  {
    match v
    case Arr(items) =>
      Arr(seq(|items|, i requires 0 <= i < |items| => if items[i].Undefined? then Null else Json(items[i])))
    case Obj(fields) => Obj(map k | k in fields && !fields[k].Undefined? :: Json(fields[k]))
    case _ => v
  }

  /** A value already free of `undefined` is written as it is. */
  lemma {:induction false} JsonKeepsDefined(v: Value)
    requires Defined(v)
    ensures Json(v) == v
  {
    match v
    case Arr(items) =>
      forall i | 0 <= i < |items| ensures Json(items[i]) == items[i] {
        JsonKeepsDefined(items[i]);
      }
    case Obj(fields) =>
      forall k | k in fields ensures Json(fields[k]) == fields[k] {
        JsonKeepsDefined(fields[k]);
      }
      assert (map k | k in fields && !fields[k].Undefined? :: Json(fields[k])) == fields;
    case _ =>
  }

  /** The members `JSON.stringify` writes for an object: those whose value is not `undefined`, each serialised. */
  function Serialized(m: map<string, Value>): (r: map<string, Value>)
    ensures forall k :: k in r <==> k in m && m[k] != Undefined
    ensures forall k :: k in r ==> r[k] == Json(m[k]) && Defined(r[k])
  {
    map k | k in m && m[k] != Undefined :: Json(m[k])
  }
}
