/**
 * The loosely shaped, XML-derived JSON values that the model parser reads and
 * writes, with JavaScript's property-access rules (`key in obj`, `obj[key]`).
 */
module JsonValues {
  import opened Wrappers
  import opened Text

  /** One own property of an object, in insertion order. */
  datatype Prop = Prop(key: string, value: Json)

  /**
   * A JavaScript value as the parser sees it. `Undefined` is the absent
   * sentinel. Numbers are integers. `Date` is a `Date` object, kept as its
   * calendar components with a zero-based month, as `new Date(y, m, ...)`
   * receives them.
   */
  datatype Json =
    | Undefined
    | Null
    | Str(s: string)
    | Num(n: int)
    | Bool(b: bool)
    | Arr(items: seq<Json>)
    | Obj(props: seq<Prop>)
    | Date(year: int, month: int, day: int, hours: int, minutes: int, seconds: int)

  /** A measure of a value that property access never increases. */
  function Size(j: Json): nat
  {
    match j
    case Undefined => 0
    case Arr(items) => 2 + SumSizes(items)
    case Obj(props) => 1 + PropsSize(props)
    case _ => 1
  }

  function SumSizes(xs: seq<Json>): nat
  {
    if xs == [] then 0 else Size(xs[0]) + SumSizes(xs[1..])
  }

  function PropsSize(ps: seq<Prop>): nat
  {
    if ps == [] then 0 else Size(ps[0].value) + PropsSize(ps[1..])
  }

  lemma {:induction false} ElementSize(xs: seq<Json>, i: nat)
    requires i < |xs|
    ensures Size(xs[i]) <= SumSizes(xs)
  {
    if i > 0 {
      ElementSize(xs[1..], i - 1);
    }
  }

  /** `typeof j === 'object' && j !== null`: arrays and dates are objects too. */
  predicate IsObject(j: Json)
  {
    j.Arr? || j.Obj? || j.Date?
  }

  function KeysOf(ps: seq<Prop>): set<string>
  {
    set i | 0 <= i < |ps| :: ps[i].key
  }

  /** No key occurs twice, as in every JavaScript object. */
  predicate DistinctKeys(ps: seq<Prop>)
  {
    forall i, j :: 0 <= i < j < |ps| ==> ps[i].key != ps[j].key
  }

  /** The value stored under `k`, or `Undefined` when there is none. */
  function PropValue(ps: seq<Prop>, k: string): (r: Json)
    ensures Size(r) <= PropsSize(ps)
    ensures k !in KeysOf(ps) ==> r == Undefined
    ensures forall i :: 0 <= i < |ps| && ps[i].key == k && DistinctKeys(ps) ==> r == ps[i].value
  {
    if ps == [] then Undefined
    else if ps[0].key == k then ps[0].value
    else
      var r := PropValue(ps[1..], k);
      assert KeysOf(ps) == {ps[0].key} + KeysOf(ps[1..]) by {
        forall x | x in KeysOf(ps) ensures x in {ps[0].key} + KeysOf(ps[1..]) {
          var i :| 0 <= i < |ps| && ps[i].key == x;
          if i > 0 { assert ps[1..][i - 1].key == x; }
        }
      }
      assert forall i :: 1 <= i < |ps| ==> ps[i] == ps[1..][i - 1];
      r
  }

  /** The array index a property key denotes: a canonical non-negative integer. */
  function ArrayIndex(key: string): Option<nat>
  {
    if IsCanonicalInteger(key) && NumberOf(key).value >= 0 then Some(NumberOf(key).value)
    else None
  }

  /** `key in obj` for an object value (own properties; the prototype chain is not modelled). */
  predicate HasKey(obj: Json, key: string)
    requires IsObject(obj)
  {
    match obj
    case Obj(ps) => key in KeysOf(ps)
    case Arr(items) =>
      key == "length" || (ArrayIndex(key).Some? && ArrayIndex(key).value < |items|)
    case Date(_, _, _, _, _, _) => false
  }

  /** `obj[key]`: a part of `obj`, hence strictly smaller than it. */
  function Member(obj: Json, key: string): (r: Json)
    requires IsObject(obj)
    ensures Size(r) < Size(obj)
    ensures !HasKey(obj, key) ==> r == Undefined
  {
    match obj
    case Obj(ps) => PropValue(ps, key)
    case Arr(items) =>
      if key == "length" then Num(|items|)
      else if ArrayIndex(key).Some? && ArrayIndex(key).value < |items| then
        ElementSize(items, ArrayIndex(key).value);
        items[ArrayIndex(key).value]
      else Undefined
    case Date(_, _, _, _, _, _) => Undefined
  }
}
