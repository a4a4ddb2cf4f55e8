/**
 * The schema interpreter as it runs: `createParser` fills one mutable output
 * object entry by entry, `parseProperty` checks and writes into it, and an
 * array value is transformed element by element. Each method is proved to
 * compute what the functions of `ModelParser` describe.
 */
module ParserRuntime {
  import opened Wrappers
  import opened JsonValues
  import opened ModelParser

  /** The `parsedObj` accumulator: the own properties in insertion order. */
  class ParsedObject {
    var props: seq<Prop>

    constructor ()
      ensures props == []
    {
      props := [];
    }

    /** `name in parsedObj`. */
    predicate Has(name: string)
      reads this
    {
      name in KeysOf(props)
    }

    /** `parsedObj[name] = value`, for a name not yet present. */
    method Store(name: string, value: Json)
      requires !Has(name)
      modifies this
      ensures props == old(props) + [Prop(name, value)]
      ensures Has(name) && PropValue(props, name) == value
    {
      props := props + [Prop(name, value)];
      assert KeysOf(props) == KeysOf(old(props)) + {name} by {
        KeysOfSnoc(old(props), Prop(name, value));
      }
      PropValueSnoc(old(props), Prop(name, value));
    }
  }

  lemma KeysOfSnoc(ps: seq<Prop>, p: Prop)
    ensures KeysOf(ps + [p]) == KeysOf(ps) + {p.key}
  {
    var qs := ps + [p];
    forall k | k in KeysOf(qs) ensures k in KeysOf(ps) + {p.key} {
      var i :| 0 <= i < |qs| && qs[i].key == k;
      if i < |ps| { assert ps[i].key == k; }
    }
    forall k | k in KeysOf(ps) ensures k in KeysOf(qs) {
      var i :| 0 <= i < |ps| && ps[i].key == k;
      assert qs[i].key == k;
    }
    assert qs[|ps|].key == p.key;
  }

  lemma {:induction false} PropValueSnoc(ps: seq<Prop>, p: Prop)
    requires p.key !in KeysOf(ps)
    ensures PropValue(ps + [p], p.key) == p.value
  {
    if ps != [] {
      assert ps[0].key != p.key by { assert ps[0].key in KeysOf(ps); }
      assert (ps + [p])[1..] == ps[1..] + [p];
      assert p.key !in KeysOf(ps[1..]) by {
        forall i | 0 <= i < |ps[1..]| ensures ps[1..][i].key != p.key {
          assert ps[1..][i] == ps[i + 1];
          assert ps[i + 1].key in KeysOf(ps);
        }
      }
      PropValueSnoc(ps[1..], p);
    }
  }

  // ------------------------------------------------------- element-wise map

  /** When every element transforms, the map is the list of results. */
  lemma {:induction false} MapTransformAllOk(env: Env, vs: seq<Json>, t: Transform, out: seq<Json>)
    requires |out| == |vs|
    requires forall j :: 0 <= j < |vs| ==> TransformValue(env, vs[j], t) == Ok(out[j])
    ensures MapTransform(env, vs, t) == Ok(out)
  {
    if vs != [] {
      assert forall j :: 0 <= j < |vs[1..]| ==> vs[1..][j] == vs[j + 1] && out[1..][j] == out[j + 1];
      MapTransformAllOk(env, vs[1..], t, out[1..]);
      assert out == [out[0]] + out[1..];
    }
  }

  /** The map throws what the first failing element throws. */
  lemma {:induction false} MapTransformFirstFailure(env: Env, vs: seq<Json>, t: Transform, i: nat)
    requires i < |vs|
    requires forall j :: 0 <= j < i ==> TransformValue(env, vs[j], t).Ok?
    requires TransformValue(env, vs[i], t).Err?
    ensures MapTransform(env, vs, t) == Err(TransformValue(env, vs[i], t).error)
  {
    if i > 0 {
      assert forall j :: 0 <= j < i - 1 ==> vs[1..][j] == vs[j + 1];
      assert vs[1..][i - 1] == vs[i];
      MapTransformFirstFailure(env, vs[1..], t, i - 1);
    }
  }

  /** `values.map((val) => transformValue(val, transform))`. */
  method MapValues(env: Env, vs: seq<Json>, t: Transform) returns (r: Result<seq<Json>, ParseError>)
    ensures r == MapTransform(env, vs, t)
    decreases SumSizes(vs), 3, |vs|, 0
  {
    var out: seq<Json> := [];
    var i := 0;
    while i < |vs|
      invariant 0 <= i <= |vs| && |out| == i
      invariant forall j :: 0 <= j < i ==> TransformValue(env, vs[j], t) == Ok(out[j])
    {
      ElementSize(vs, i);
      var x := ApplyTransform(env, vs[i], t);
      if x.Err? {
        MapTransformFirstFailure(env, vs, t, i);
        return Err(x.error);
      }
      out := out + [x.value];
      i := i + 1;
    }
    MapTransformAllOk(env, vs, t, out);
    return Ok(out);
  }

  // ------------------------------------------------------------- transforms

  /** `modelParser.transformValue(value, transform)`. */
  method ApplyTransform(env: Env, v: Json, t: Transform) returns (r: Result<Json, ParseError>)
    ensures r == TransformValue(env, v, t)
    decreases Size(v), 2, 0, 0
  {
    match t
    case Coerce(name) =>
      r := CoerceNamed(env, name, v);
    case Nested(m) =>
      var data := Preprocess(m, v);
      if data.Err? {
        return Err(data.error);
      }
      r := CreateParser(env, Model(None, m.entries), data.value);
    case Ref(id) =>
      if id in env.schemas {
        var m := env.schemas[id];
        var data := Preprocess(m, v);
        if data.Err? {
          return Err(data.error);
        }
        r := CreateParser(env, Model(None, m.entries), data.value);
      } else {
        r := Err(UnresolvedSchema(id));
      }
    case Apply(f) =>
      var w := f(v);
      r := if w.Ok? then Ok(w.value) else Err(TransformThrew(w.error));
    case NoTransform =>
      r := Err(InvalidTransform);
    case Invalid =>
      r := Err(InvalidTransform);
  }

  // ---------------------------------------------------------------- parsing

  /**
   * The value one entry yields from an object: read the path, let
   * `constructTransform` choose the transform, then transform the value or
   * each element of its array form.
   */
  method ComputeFieldValue(env: Env, d: Json, e: Entry) returns (r: Result<Json, ParseError>)
    requires IsObject(d) && !e.field.NoField?
    ensures r == FieldValue(env, e, d)
    decreases Size(d), 0, 0, 0
  {
    var fields := FieldPath(e.field);
    var value := GetValue(d, fields);
    var transform := e.transform;
    if e.construct.Some? {
      var constructed := e.construct.value(value);
      if constructed.Err? {
        return Err(TransformThrew(constructed.error));
      }
      var unwrapped := Unwrap(env, constructed.value, value);
      if unwrapped.Err? {
        assert FieldValue(env, e, d) == Err(unwrapped.error);
        return Err(unwrapped.error);
      }
      transform, value := unwrapped.value.0, unwrapped.value.1;
    }
    if e.isArray {
      var vs := ForceArray(value);
      if Truthy(transform) || transform.Apply? {
        var mapped := MapValues(env, vs, transform);
        if mapped.Err? {
          assert FieldValue(env, e, d) == Err(mapped.error);
          return Err(mapped.error);
        }
        value := Arr(mapped.value);
      } else {
        value := Arr(vs);
      }
    } else if (Truthy(transform) && IsValid(value)) || transform.Apply? {
      var transformed := ApplyTransform(env, value, transform);
      if transformed.Err? {
        assert FieldValue(env, e, d) == transformed;
        return transformed;
      }
      value := transformed.value;
    }
    return Ok(value);
  }

  /**
   * `parseProperty(data, parsedObj, entry)`: computes the entry's value and
   * stores it in `obj`. On a throw, `obj` is left as it was.
   */
  method ParseProperty(env: Env, d: Json, obj: ParsedObject, e: Entry) returns (err: Option<ParseError>)
    modifies obj
    ensures PropertyStep(env, e, d, old(obj.props)).Ok? ==>
              err == None && obj.props == PropertyStep(env, e, d, old(obj.props)).value
    ensures PropertyStep(env, e, d, old(obj.props)).Err? ==>
              err == Some(PropertyStep(env, e, d, old(obj.props)).error) && obj.props == old(obj.props)
    decreases Size(d), 0, 0, 1
  {
    if !IsObject(d) {
      return Some(NonObject);
    }
    if e.field.NoField? {
      return Some(MissingField);
    }
    var fields := FieldPath(e.field);
    var computed := ComputeFieldValue(env, d, e);
    if computed.Err? {
      return Some(computed.error);
    }
    var value := computed.value;
    var name := if e.name != "" then e.name else FirstKey(fields);
    if obj.Has(name) {
      return Some(Duplicate(name));
    }
    if IsValid(value) {
      obj.Store(name, value);
    }
    return None;
  }

  /** `createParser(model)(data)`: every entry in order, into one fresh object. */
  method CreateParser(env: Env, m: Model, d: Json) returns (r: Result<Json, ParseError>)
    ensures r == Parse(env, m, d)
    decreases Size(d), 1, 0, 0
  {
    if d == Str("") {
      return Ok(Obj([]));
    }
    var pre := Preprocess(m, d);
    if pre.Err? {
      return Err(pre.error);
    }
    var data := pre.value;
    var obj := new ParsedObject();
    var es := m.entries;
    var i := 0;
    while i < |es|
      invariant 0 <= i <= |es|
      invariant ParseEntries(env, es, data, []) == ParseEntries(env, es[i..], data, obj.props)
    {
      assert es[i..][0] == es[i] && es[i..][1..] == es[i + 1..];
      var err := ParseProperty(env, data, obj, es[i]);
      if err.Some? {
        return Err(err.value);
      }
      i := i + 1;
    }
    return Ok(Obj(obj.props));
  }
}
