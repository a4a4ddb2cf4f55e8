/**
 * Properties of the schema interpreter: path resolution, array entries, and
 * the per-key description of a parsed object.
 */
module ParserProperties {
  import opened Wrappers
  import opened JsonValues
  import opened Coercers
  import opened ModelParser

  // ---------------------------------------------------------------- getValue

  /**
   * Resolving a path in two steps is resolving it at once, as long as the
   * second part is not the bare `'#text'` marker, whose rule looks back at the
   * value of the first part.
   */
  lemma {:induction false} GetValueCompose(d: Json, p: seq<string>, q: seq<string>)
    requires 1 <= |p| && 1 <= |q| && q != ["#text"]
    ensures GetValue(d, p + q) == GetValue(GetValue(d, p), q)
    decreases |p|
  {
    if IsObject(d) && HasKey(d, p[0]) {
      assert (p + q)[0] == p[0] && (p + q)[1..] == p[1..] + q;
      if |p| > 1 {
        GetValueCompose(Member(d, p[0]), p[1..], q);
      }
    }
  }

  /**
   * The `'#text'` rule on any path: when the value at `p` is a string it is the
   * result; otherwise the walk steps into the `'#text'` key as usual.
   */
  lemma {:induction false} GetValueTextSuffix(d: Json, p: seq<string>)
    requires 1 <= |p| && p[|p| - 1] != "#text"
    ensures var parent := GetValue(d, p);
            GetValue(d, p + ["#text"]) == if parent.Str? then parent else GetValue(parent, ["#text"])
    decreases |p|
  {
    if IsObject(d) && HasKey(d, p[0]) {
      assert (p + ["#text"])[0] == p[0] && (p + ["#text"])[1..] == p[1..] + ["#text"];
      if |p| > 1 {
        GetValueTextSuffix(Member(d, p[0]), p[1..]);
      }
    }
  }

  /** The path `[k, '#text']`: the element's text in both shapes. */
  lemma TextMarkerBothShapes(k: string, text: string, attrs: seq<Prop>)
    requires "#text" !in KeysOf(attrs)
    ensures GetValue(Obj([Prop(k, Str(text))]), [k, "#text"]) == Str(text)
    ensures GetValue(Obj([Prop(k, Obj(attrs + [Prop("#text", Str(text))]))]), [k, "#text"]) == Str(text)
  {
    var outer := [Prop(k, Str(text))];
    assert outer[0].key == k;
    assert HasKey(Obj(outer), k) && Member(Obj(outer), k) == Str(text);
    var inner := attrs + [Prop("#text", Str(text))];
    assert inner[|attrs|].key == "#text";
    PropValueAppend(attrs, [Prop("#text", Str(text))], "#text");
    assert PropValue([Prop("#text", Str(text))], "#text") == Str(text);
    var outer2 := [Prop(k, Obj(inner))];
    assert outer2[0].key == k;
    assert HasKey(Obj(outer2), k) && Member(Obj(outer2), k) == Obj(inner);
    assert HasKey(Obj(inner), "#text") && Member(Obj(inner), "#text") == Str(text);
  }

  lemma {:induction false} PropValueAppend(a: seq<Prop>, b: seq<Prop>, k: string)
    ensures k !in KeysOf(a) ==> PropValue(a + b, k) == PropValue(b, k)
    ensures k in KeysOf(a) ==> PropValue(a + b, k) == PropValue(a, k)
    ensures KeysOf(a + b) == KeysOf(a) + KeysOf(b)
  {
    KeysOfAppend(a, b);
    if a != [] {
      assert (a + b)[0] == a[0];
      assert (a + b)[1..] == a[1..] + b;
      KeysOfCons(a);
      if a[0].key != k {
        PropValueAppend(a[1..], b, k);
      }
    } else {
      assert a + b == b;
    }
  }

  lemma KeysOfCons(a: seq<Prop>)
    requires a != []
    ensures KeysOf(a) == {a[0].key} + KeysOf(a[1..])
  {
    forall x | x in KeysOf(a) ensures x in {a[0].key} + KeysOf(a[1..]) {
      var i :| 0 <= i < |a| && a[i].key == x;
      if i > 0 { assert a[1..][i - 1].key == x; }
    }
    forall x | x in KeysOf(a[1..]) ensures x in KeysOf(a) {
      var i :| 0 <= i < |a[1..]| && a[1..][i].key == x;
      assert a[i + 1].key == x;
    }
  }

  lemma KeysOfSingleton(k: string, v: Json)
    ensures KeysOf([Prop(k, v)]) == {k}
  {
    assert [Prop(k, v)][0].key == k;
  }

  lemma KeysOfAppend(a: seq<Prop>, b: seq<Prop>)
    ensures KeysOf(a + b) == KeysOf(a) + KeysOf(b)
  {
    forall x | x in KeysOf(a + b) ensures x in KeysOf(a) + KeysOf(b) {
      var i :| 0 <= i < |a + b| && (a + b)[i].key == x;
      if i >= |a| { assert b[i - |a|].key == x; } else { assert a[i].key == x; }
    }
    forall x | x in KeysOf(a) ensures x in KeysOf(a + b) {
      var i :| 0 <= i < |a| && a[i].key == x;
      assert (a + b)[i].key == x;
    }
    forall x | x in KeysOf(b) ensures x in KeysOf(a + b) {
      var i :| 0 <= i < |b| && b[i].key == x;
      assert (a + b)[i + |a|].key == x;
    }
  }

  // ------------------------------------------------------------ array entries

  /** The element-wise map stops at the first element that fails, and otherwise keeps order. */
  lemma {:induction false} MapTransformElements(env: Env, vs: seq<Json>, t: Transform)
    ensures MapTransform(env, vs, t).Ok? <==> forall i :: 0 <= i < |vs| ==> TransformValue(env, vs[i], t).Ok?
    ensures MapTransform(env, vs, t).Ok? ==>
      forall i :: 0 <= i < |vs| ==> TransformValue(env, vs[i], t) == Ok(MapTransform(env, vs, t).value[i])
    ensures MapTransform(env, vs, t).Err? ==>
      exists i :: 0 <= i < |vs| && TransformValue(env, vs[i], t) == Err(MapTransform(env, vs, t).error)
  {
    if vs != [] {
      MapTransformElements(env, vs[1..], t);
      assert forall i :: 1 <= i < |vs| ==> vs[i] == vs[1..][i - 1];
      if MapTransform(env, vs, t).Err? && TransformValue(env, vs[0], t).Ok? {
        var i :| 0 <= i < |vs[1..]| && TransformValue(env, vs[1..][i], t) == Err(MapTransform(env, vs[1..], t).error);
        assert vs[i + 1] == vs[1..][i];
      }
    }
  }

  /** Every element goes through the transform without a throw. */
  predicate EachTransforms(env: Env, vs: seq<Json>, t: Transform)
  {
    forall i :: 0 <= i < |vs| ==> TransformValue(env, vs[i], t).Ok?
  }

  /**
   * An `isArray` entry yields an array with one element per element of the
   * `forceArray` result, in the same order: the transformed element when the
   * transform runs, the element itself otherwise.
   */
  lemma ArrayEntryShape(env: Env, e: Entry, d: Json)
    requires IsObject(d) && !e.field.NoField? && e.isArray && e.construct.None?
    ensures var vs := ForceArray(GetValue(d, FieldPath(e.field)));
            var r := FieldValue(env, e, d);
            r.Ok? <==> (Truthy(e.transform) || e.transform.Apply? ==> EachTransforms(env, vs, e.transform))
    ensures var vs := ForceArray(GetValue(d, FieldPath(e.field)));
            var r := FieldValue(env, e, d);
            r.Ok? ==> r.value.Arr? && |r.value.items| == |vs|
    ensures var vs := ForceArray(GetValue(d, FieldPath(e.field)));
            var r := FieldValue(env, e, d);
            r.Ok? ==> forall i :: 0 <= i < |vs| ==>
              if Truthy(e.transform) || e.transform.Apply?
              then TransformValue(env, vs[i], e.transform) == Ok(r.value.items[i])
              else r.value.items[i] == vs[i]
    ensures var vs := ForceArray(GetValue(d, FieldPath(e.field)));
            var r := FieldValue(env, e, d);
            r.Err? ==> exists i :: 0 <= i < |vs| && TransformValue(env, vs[i], e.transform) == Err(r.error)
  {
    var vs := ForceArray(GetValue(d, FieldPath(e.field)));
    var t := e.transform;
    MapTransformElements(env, vs, t);
    var r := FieldValue(env, e, d);
    if Truthy(t) || t.Apply? {
      var m := MapTransform(env, vs, t);
      assert r == if m.Ok? then Ok(Arr(m.value)) else Err(m.error);
      if m.Err? {
        var i :| 0 <= i < |vs| && TransformValue(env, vs[i], t) == Err(m.error);
        assert !TransformValue(env, vs[i], t).Ok?;
      } else {
        assert r.Ok? && EachTransforms(env, vs, t);
      }
    } else {
      assert r == Ok(Arr(vs));
    }
  }

  /**
   * Absent values: a function transform still runs on `undefined`; any other
   * transform is skipped and the entry adds nothing to the output.
   */
  lemma AbsentValueRule(env: Env, e: Entry, d: Json)
    requires IsObject(d) && !e.field.NoField? && !e.isArray && e.construct.None?
    requires GetValue(d, FieldPath(e.field)) == Undefined
    ensures e.transform.Apply? ==> FieldValue(env, e, d) == TransformValue(env, Undefined, e.transform)
    ensures !e.transform.Apply? ==> FieldValue(env, e, d) == Ok(Undefined)
  {
  }

  /**
   * A `constructTransform` that returns nothing leaves the raw value as it is:
   * a present primitive is stored, not dropped.
   */
  lemma ConstructedNothingKeepsRaw(env: Env, e: Entry, d: Json)
    requires IsObject(d) && !e.field.NoField? && !e.isArray && e.construct.Some?
    requires e.construct.value(GetValue(d, FieldPath(e.field))) == Ok(NoTransform)
    ensures FieldValue(env, e, d) == Ok(GetValue(d, FieldPath(e.field)))
  {
  }

  // ------------------------------------------------------- the parsed object

  /** No two entries of a schema have the same output key. */
  predicate DistinctNames(es: seq<Entry>)
  {
    forall i, j :: 0 <= i < j < |es| ==> OutputName(es[i]) != OutputName(es[j])
  }

  function NamesOf(es: seq<Entry>): set<string>
  {
    set i | 0 <= i < |es| :: OutputName(es[i])
  }

  /** Every entry has a field and its value computes without throwing. */
  predicate FieldsSucceed(env: Env, es: seq<Entry>, d: Json)
    requires IsObject(d)
  {
    forall i :: 0 <= i < |es| ==> !es[i].field.NoField? && FieldValue(env, es[i], d).Ok?
  }

  /** `ps` holds `v` under `name` when `v` is present, and has no `name` key otherwise. */
  predicate Stores(ps: seq<Prop>, name: string, v: Json)
  {
    && (name in KeysOf(ps) <==> v != Undefined)
    && (v != Undefined ==> PropValue(ps, name) == v)
  }

  /** One `parseProperty` call on an object, for an entry that has a field. */
  lemma PropertyStepOnObject(env: Env, e: Entry, d: Json, acc: seq<Prop>)
    requires IsObject(d) && !e.field.NoField?
    ensures PropertyStep(env, e, d, acc) ==
      match FieldValue(env, e, d)
      case Err(err) => Err(err)
      case Ok(v) =>
        if OutputName(e) in KeysOf(acc) then Err(Duplicate(OutputName(e)))
        else Ok(if v == Undefined then acc else acc + [Prop(OutputName(e), v)])
  {
  }

  lemma ParseEntriesCons(env: Env, es: seq<Entry>, d: Json, acc: seq<Prop>)
    requires es != []
    ensures ParseEntries(env, es, d, acc) ==
      match PropertyStep(env, es[0], d, acc)
      case Err(err) => Err(err)
      case Ok(next) => ParseEntries(env, es[1..], d, next)
  {
  }

  /** What throws for one entry: a missing field, or the computation of its value. */
  function EntryError(env: Env, e: Entry, d: Json): Option<ParseError>
    requires IsObject(d)
  {
    if e.field.NoField? then Some(MissingField)
    else if FieldValue(env, e, d).Err? then Some(FieldValue(env, e, d).error)
    else None
  }

  /**
   * For a schema whose output keys are distinct (and not yet in the
   * accumulator), parsing an object succeeds exactly when every entry's value
   * does; otherwise it throws what the first failing entry throws, so the
   * duplicate-key check itself never fires.
   */
  lemma {:induction false} ParseEntriesSucceeds(env: Env, es: seq<Entry>, d: Json, acc: seq<Prop>)
    requires IsObject(d) && DistinctNames(es)
    requires forall i :: 0 <= i < |es| ==> OutputName(es[i]) !in KeysOf(acc)
    ensures ParseEntries(env, es, d, acc).Ok? <==> FieldsSucceed(env, es, d)
    ensures ParseEntries(env, es, d, acc).Err? ==>
      exists i :: 0 <= i < |es| && FieldsSucceed(env, es[..i], d) &&
                  EntryError(env, es[i], d) == Some(ParseEntries(env, es, d, acc).error)
  {
    if es != [] {
      var e, rest := es[0], es[1..];
      FieldsSucceedCons(env, es, d);
      ParseEntriesCons(env, es, d, acc);
      if !e.field.NoField? && FieldValue(env, e, d).Ok? {
        var next := StepWithFreshName(env, es, d, acc);
        ParseEntriesSucceeds(env, rest, d, next);
        var r := ParseEntries(env, es, d, acc);
        if r.Err? {
          var i :| 0 <= i < |rest| && FieldsSucceed(env, rest[..i], d) && EntryError(env, rest[i], d) == Some(r.error);
          FailureShift(env, es, d, i);
        }
      } else {
        assert es[..0] == [];
        if !e.field.NoField? {
          PropertyStepOnObject(env, e, d, acc);
        }
      }
    }
  }

  /**
   * The first entry of a schema with distinct keys stores its value (or
   * nothing) and the keys of the remaining entries stay fresh.
   */
  lemma StepWithFreshName(env: Env, es: seq<Entry>, d: Json, acc: seq<Prop>) returns (next: seq<Prop>)
    requires IsObject(d) && DistinctNames(es) && es != []
    requires forall i :: 0 <= i < |es| ==> OutputName(es[i]) !in KeysOf(acc)
    requires !es[0].field.NoField? && FieldValue(env, es[0], d).Ok?
    ensures PropertyStep(env, es[0], d, acc) == Ok(next)
    ensures DistinctNames(es[1..])
    ensures forall i :: 0 <= i < |es[1..]| ==> OutputName(es[1..][i]) !in KeysOf(next)
  {
    var e, rest := es[0], es[1..];
    var v := FieldValue(env, e, d).value;
    var name := OutputName(e);
    PropertyStepOnObject(env, e, d, acc);
    assert name !in KeysOf(acc) by { assert OutputName(es[0]) !in KeysOf(acc); }
    next := if v == Undefined then acc else acc + [Prop(name, v)];
    KeysOfAppend(acc, [Prop(name, v)]);
    KeysOfSingleton(name, v);
    assert forall i :: 1 <= i < |es| ==> es[i] == rest[i - 1];
  }

  lemma FailureShift(env: Env, es: seq<Entry>, d: Json, i: nat)
    requires IsObject(d) && i + 1 < |es|
    requires !es[0].field.NoField? && FieldValue(env, es[0], d).Ok?
    requires FieldsSucceed(env, es[1..][..i], d)
    ensures FieldsSucceed(env, es[..i + 1], d) && es[i + 1] == es[1..][i]
  {
    assert es[..i + 1][0] == es[0];
    assert es[..i + 1][1..] == es[1..][..i];
    FieldsSucceedCons(env, es[..i + 1], d);
  }

  lemma FieldsSucceedCons(env: Env, es: seq<Entry>, d: Json)
    requires IsObject(d) && es != []
    ensures FieldsSucceed(env, es, d) <==>
      !es[0].field.NoField? && FieldValue(env, es[0], d).Ok? && FieldsSucceed(env, es[1..], d)
  {
    assert forall i :: 1 <= i < |es| ==> es[i] == es[1..][i - 1];
  }

  /**
   * What a successful parse of an object holds, for a schema whose output keys
   * are distinct: each entry's value under its key when the value is present,
   * no key for it when it is not, and no other new keys.
   */
  lemma {:induction false} ParseEntriesStores(env: Env, es: seq<Entry>, d: Json, acc: seq<Prop>)
    requires IsObject(d) && DistinctNames(es) && NamesFresh(es, acc)
    requires ParseEntries(env, es, d, acc).Ok?
    ensures KeysOf(ParseEntries(env, es, d, acc).value) <= KeysOf(acc) + NamesOf(es)
    ensures AllStored(env, es, d, ParseEntries(env, es, d, acc).value)
  {
    if es != [] {
      var e, rest := es[0], es[1..];
      var name := OutputName(e);
      assert name !in KeysOf(acc) by { assert OutputName(es[0]) !in KeysOf(acc); }
      var v, next := StoredStep(env, es, d, acc);
      RestNamesFresh(es, acc, v);
      ParseEntriesStores(env, rest, d, next);
      StoresAfterStep(env, es, d, acc, v, next, ParseEntries(env, rest, d, next).value);
    }
  }

  /**
   * The inductive step of `ParseEntriesStores`: the head's step gave `next`,
   * and the rest of the parse extended `next` to `ps` with the rest's keys.
   */
  lemma StoresAfterStep(env: Env, es: seq<Entry>, d: Json, acc: seq<Prop>, v: Json, next: seq<Prop>, ps: seq<Prop>)
    requires IsObject(d) && es != [] && DistinctNames(es) && OutputName(es[0]) !in KeysOf(acc)
    requires !es[0].field.NoField? && FieldValue(env, es[0], d) == Ok(v)
    requires next == if v == Undefined then acc else acc + [Prop(OutputName(es[0]), v)]
    requires next <= ps && KeysOf(ps) <= KeysOf(next) + NamesOf(es[1..])
    requires AllStored(env, es[1..], d, ps)
    ensures KeysOf(ps) <= KeysOf(acc) + NamesOf(es)
    ensures AllStored(env, es, d, ps)
  {
    var name := OutputName(es[0]);
    assert name !in NamesOf(es[1..]);
    NamesOfCons(es);
    KeysOfAppend(acc, [Prop(name, v)]);
    KeysOfSingleton(name, v);
    HeadStored(acc, ps, name, v, NamesOf(es[1..]));
    StoresCons(env, es, d, ps);
  }

  /** No entry's output key is among the keys already stored. */
  ghost predicate NamesFresh(es: seq<Entry>, acc: seq<Prop>)
  {
    forall i :: 0 <= i < |es| ==> OutputName(es[i]) !in KeysOf(acc)
  }

  /** Every entry has a field, its value does not throw, and `ps` stores it. */
  ghost predicate AllStored(env: Env, es: seq<Entry>, d: Json, ps: seq<Prop>)
  {
    IsObject(d) && forall i :: 0 <= i < |es| ==>
      !es[i].field.NoField? && FieldValue(env, es[i], d).Ok? &&
      Stores(ps, OutputName(es[i]), FieldValue(env, es[i], d).value)
  }

  /** Each entry's value is stored, once the head's and the rest's are. */
  lemma StoresCons(env: Env, es: seq<Entry>, d: Json, ps: seq<Prop>)
    requires IsObject(d) && es != []
    requires !es[0].field.NoField? && FieldValue(env, es[0], d).Ok?
    requires Stores(ps, OutputName(es[0]), FieldValue(env, es[0], d).value)
    requires AllStored(env, es[1..], d, ps)
    ensures AllStored(env, es, d, ps)
  {
    forall i | 0 <= i < |es|
      ensures !es[i].field.NoField? && FieldValue(env, es[i], d).Ok? &&
              Stores(ps, OutputName(es[i]), FieldValue(env, es[i], d).value)
    {
      if i > 0 {
        assert es[i] == es[1..][i - 1];
      }
    }
  }

  /** The first step of a successful parse: the head entry's value, and what it leaves stored. */
  lemma StoredStep(env: Env, es: seq<Entry>, d: Json, acc: seq<Prop>) returns (v: Json, next: seq<Prop>)
    requires IsObject(d) && es != [] && ParseEntries(env, es, d, acc).Ok?
    requires OutputName(es[0]) !in KeysOf(acc)
    ensures !es[0].field.NoField? && FieldValue(env, es[0], d) == Ok(v)
    ensures next == if v == Undefined then acc else acc + [Prop(OutputName(es[0]), v)]
    ensures ParseEntries(env, es, d, acc) == ParseEntries(env, es[1..], d, next)
  {
    ParseEntriesCons(env, es, d, acc);
    assert !es[0].field.NoField?;
    PropertyStepOnObject(env, es[0], d, acc);
    v := FieldValue(env, es[0], d).value;
    next := if v == Undefined then acc else acc + [Prop(OutputName(es[0]), v)];
  }

  /** After the first entry's step, the remaining entries' names are still unused. */
  lemma RestNamesFresh(es: seq<Entry>, acc: seq<Prop>, v: Json)
    requires es != [] && DistinctNames(es) && NamesFresh(es, acc)
    ensures NamesFresh(es[1..], if v == Undefined then acc else acc + [Prop(OutputName(es[0]), v)])
  {
    var name := OutputName(es[0]);
    KeysOfAppend(acc, [Prop(name, v)]);
    KeysOfSingleton(name, v);
    forall i | 0 <= i < |es[1..]|
      ensures OutputName(es[1..][i]) !in KeysOf(acc) && OutputName(es[1..][i]) != name
    {
      assert es[1..][i] == es[i + 1];
    }
  }

  lemma NamesOfCons(es: seq<Entry>)
    requires es != []
    ensures NamesOf(es) == {OutputName(es[0])} + NamesOf(es[1..])
  {
    forall x | x in NamesOf(es) ensures x in {OutputName(es[0])} + NamesOf(es[1..]) {
      var i :| 0 <= i < |es| && OutputName(es[i]) == x;
      if i > 0 { assert OutputName(es[1..][i - 1]) == x; }
    }
    forall x | x in NamesOf(es[1..]) ensures x in NamesOf(es) {
      var i :| 0 <= i < |es[1..]| && OutputName(es[1..][i]) == x;
      assert OutputName(es[i + 1]) == x;
    }
  }

  /**
   * The step that stores (or skips) one entry's value survives the rest of
   * the parse, which only appends keys from `others`.
   */
  lemma HeadStored(acc: seq<Prop>, ps: seq<Prop>, name: string, v: Json, others: set<string>)
    requires name !in KeysOf(acc) && name !in others
    requires var next := if v == Undefined then acc else acc + [Prop(name, v)];
             next <= ps && KeysOf(ps) <= KeysOf(next) + others
    ensures Stores(ps, name, v)
  {
    var next := if v == Undefined then acc else acc + [Prop(name, v)];
    KeysOfAppend(acc, [Prop(name, v)]);
    KeysOfSingleton(name, v);
    assert next + ps[|next|..] == ps;
    KeysOfAppend(next, ps[|next|..]);
    PropValueAppend(next, ps[|next|..], name);
    PropValueAppend(acc, [Prop(name, v)], name);
    assert PropValue([Prop(name, v)], name) == v;
  }

  /**
   * A schema with distinct output keys throws only what one of its entries
   * throws (a missing field or a failing value), never its own "Duplicate".
   */
  lemma ParseFailsAtFirstFailingEntry(env: Env, m: Model, d: Json)
    requires DistinctNames(m.entries) && d != Str("") && Preprocess(m, d).Ok? && IsObject(Preprocess(m, d).value)
    ensures var r := Parse(env, m, d);
            r.Err? ==> exists i :: 0 <= i < |m.entries| && FieldsSucceed(env, m.entries[..i], Preprocess(m, d).value) &&
                                   EntryError(env, m.entries[i], Preprocess(m, d).value) == Some(r.error)
  {
    ParseEntriesSucceeds(env, m.entries, Preprocess(m, d).value, []);
  }

  /**
   * The output object of `createParser(m)(d)` for a schema with distinct keys:
   * each entry's value under its key when present, and nothing else.
   */
  lemma ParsedObject(env: Env, m: Model, d: Json)
    requires DistinctNames(m.entries) && d != Str("") && Preprocess(m, d).Ok? && IsObject(Preprocess(m, d).value)
    ensures var r := Parse(env, m, d);
            && (r.Ok? <==> FieldsSucceed(env, m.entries, Preprocess(m, d).value))
            && (r.Ok? ==> KeysOf(r.value.props) <= NamesOf(m.entries))
            && (r.Ok? ==> forall i :: 0 <= i < |m.entries| ==>
                  Stores(r.value.props, OutputName(m.entries[i]), FieldValue(env, m.entries[i], Preprocess(m, d).value).value))
  {
    ParseEntriesSucceeds(env, m.entries, Preprocess(m, d).value, []);
    if Parse(env, m, d).Ok? {
      ParseEntriesStores(env, m.entries, Preprocess(m, d).value, []);
    }
  }

  /**
   * Two entries with the same output key: the second throws "Duplicate" only
   * when the first stored a value; when the first is absent, the second's
   * value is stored under the shared key.
   */
  lemma DuplicateNeedsStoredValue(env: Env, d: Json, a: string, b: string, x: string)
    requires IsObject(d) && a != "" && b != "" && x != ""
    ensures var r := Parse(env, Model(None, [Plain(a, x), Plain(b, x)]), d);
            var va := GetValue(d, [a]);
            var vb := GetValue(d, [b]);
            && (va != Undefined ==> r == Err(Duplicate(x)))
            && (va == Undefined ==> r == Ok(Obj(if vb == Undefined then [] else [Prop(x, vb)])))
  {
    var ea, eb := Plain(a, x), Plain(b, x);
    var va, vb := GetValue(d, [a]), GetValue(d, [b]);
    assert FieldPath(ea.field) == [a] && FieldPath(eb.field) == [b];
    assert OutputName(ea) == x && OutputName(eb) == x;
    assert FieldValue(env, ea, d) == Ok(va);
    assert FieldValue(env, eb, d) == Ok(vb);
    var es := [ea, eb];
    var acc1 := if va == Undefined then [] else [Prop(x, va)];
    PropertyStepOnObject(env, ea, d, []);
    assert PropertyStep(env, ea, d, []) == Ok(acc1);
    ParseEntriesCons(env, es, d, []);
    assert es[1..] == [eb];
    ParseEntriesCons(env, [eb], d, acc1);
    PropertyStepOnObject(env, eb, d, acc1);
    KeysOfSingleton(x, va);
    if va == Undefined {
      var acc2 := if vb == Undefined then [] else [Prop(x, vb)];
      assert PropertyStep(env, eb, d, acc1) == Ok(acc2);
      assert ParseEntries(env, [eb][1..], d, acc2) == Ok(acc2);
    }
  }

  // ------------------------------------------------------- common entry kinds

  /** An entry with a key and nothing else copies the value found under the key. */
  lemma PlainFieldValue(env: Env, k: string, name: string, d: Json)
    requires IsObject(d) && k != ""
    ensures FieldValue(env, Plain(k, name), d) == Ok(GetValue(d, [k]))
    ensures OutputName(Plain(k, name)) == if name != "" then name else k
  {
  }

  /** An entry with a `'boolean'` transform: a present value becomes its `to.boolean`. */
  lemma BooleanFieldValue(env: Env, k: string, name: string, d: Json)
    requires IsObject(d) && k != ""
    ensures var raw := GetValue(d, [k]);
            FieldValue(env, Entry(Key(k), name, false, Coerce("boolean"), None), d) ==
              Ok(if raw == Undefined then Undefined else Bool(ToBoolean(raw)))
  {
  }

  /** An entry whose transform is a bare nested schema parses the present value with it. */
  lemma NestedFieldValue(env: Env, k: string, name: string, m: Model, d: Json)
    requires IsObject(d) && k != "" && m.pre.None?
    ensures var raw := GetValue(d, [k]);
            FieldValue(env, Entry(Key(k), name, false, Nested(m), None), d) ==
              if raw == Undefined then Ok(Undefined) else Parse(env, m, raw)
  {
    assert Model(None, m.entries) == m;
  }
}
