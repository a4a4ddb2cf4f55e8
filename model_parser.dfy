/**
 * The schema-driven response normaliser (`modelParser`): a schema is a list of
 * entries `{field, name, isArray, transform, constructTransform}`, optionally
 * wrapped as `{preProcessor, model}`, and parsing walks it over the data,
 * filling one flat output object.
 *
 * Recursion through nested and self-referential schemas stops because every
 * nested parse reads a strict part of the data: the functions below decrease
 * on `Size` of the data they are given.
 */
module ModelParser {
  import opened Wrappers
  import opened Text
  import opened JsonValues
  import opened Coercers

  /** Everything `createParser(model)(data)` can throw. */
  datatype ParseError =
    | NonObject                           // TypeError 'Cannot parse a non-object'
    | MissingField                        // TypeError: an entry without `field`
    | Duplicate(name: string)             // 'Duplicate "<name>" in parsing model'
    | Coercion(failure: CoercionFailure)  // a named coercer threw
    | UnknownCoercer(name: string)        // `modelParser.to[name]` is not a function
    | InvalidTransform                    // 'Invalid value used for the transform parameter ...'
    | TransformThrew(message: string)     // a function of the schema threw: a transform,
                                          // a constructTransform or a preProcessor
    | UnresolvedSchema(id: string)        // a schema reference with no definition

  /**
   * A `preProcessor`: it reshapes the data before a schema reads it, or
   * throws. What it returns is never larger than its argument (it selects a
   * part of it, or replaces it by a leaf).
   */
  type Preprocessor = f: Json -> Result<Json, string> | forall j :: f(j).Ok? ==> Size(f(j).value) <= Size(j)
    witness (j: Json) => Result<Json, string>.Ok(j)

  /** The `field` of an entry: absent, one key, or a path of keys. */
  datatype Field = NoField | Key(key: string) | Path(segments: seq<string>)

  /** The `transform` of an entry (or what its `constructTransform` returned). */
  datatype Transform =
    | NoTransform                              // undefined or any other falsy value
    | Coerce(coercer: string)                  // the name of a member of `modelParser.to`
    | Apply(fn: Json -> Result<Json, string>)  // a transform function
    | Nested(model: Model)                     // a nested schema, bare or wrapped
    | Ref(id: string)                          // a schema constant referred to by name
    | Invalid                                  // any other truthy value

  /** A schema: `pre == None` is a bare entry array, `Some(p)` a `{preProcessor: p, model}` wrapper. */
  datatype Model = Model(pre: Option<Preprocessor>, entries: seq<Entry>)

  /** One schema entry; `name == ""` stands for a missing (falsy) name. */
  datatype Entry = Entry(
    field: Field,
    name: string,
    isArray: bool,
    transform: Transform,
    construct: Option<Json -> Result<Transform, string>>)

  /**
   * What the interpreter needs beyond schema and data: the schema constants
   * that `Ref` names (this is how a schema refers to itself), and the host's
   * `Date` parsing used by the `date` coercer.
   */
  datatype Env = Env(
    schemas: map<string, Model>,
    toDate: Json -> Result<Json, CoercionFailure>)

  /** An entry with only a field and a name. */
  function Plain(key: string, name: string): Entry
  {
    Entry(Key(key), name, false, NoTransform, None)
  }

  /** JavaScript truthiness of a transform value. */
  predicate Truthy(t: Transform)
  {
    match t
    case NoTransform => false
    case Coerce(c) => c != ""
    case _ => true
  }

  /** `modelParser.isValid`: the value is not `undefined`. */
  predicate IsValid(v: Json)
  {
    v != Undefined
  }

  /** `modelParser.forceArray`. */
  function ForceArray(v: Json): (r: seq<Json>)
    ensures SumSizes(r) <= Size(v)
    ensures v == Undefined || v == Str("") ==> r == []
    ensures v.Arr? ==> r == v.items
    ensures v != Undefined && v != Str("") && !v.Arr? ==> r == [v]
  {
    if !IsValid(v) || v == Str("") then []
    else if v.Arr? then v.items
    else [v]
  }

  /** `forceArray(field)`: the path of keys an entry reads. */
  function FieldPath(f: Field): seq<string>
  {
    match f
    case NoField => []
    case Key(k) => if k == "" then [] else [k]
    case Path(ps) => ps
  }

  /** The key JavaScript uses for `fields[0]`: an empty path gives `undefined`. */
  function FirstKey(fields: seq<string>): string
  {
    if |fields| == 0 then "undefined" else fields[0]
  }

  /** `name || fields[0]`: the output key of an entry. */
  function OutputName(e: Entry): string
  {
    if e.name != "" then e.name else FirstKey(FieldPath(e.field))
  }

  /**
   * `modelParser.getValue(obj, ...fields)`: walk the path one key at a time.
   * A non-object or a missing key gives `undefined`. When the only key left is
   * `'#text'` and the current value is a string, that string is the answer.
   */
  function GetValue(obj: Json, fields: seq<string>): (r: Json)
    ensures IsObject(obj) ==> Size(r) < Size(obj)
    ensures !IsObject(obj) ==> r == Undefined
    ensures IsObject(obj) && !HasKey(obj, FirstKey(fields)) ==> r == Undefined
    ensures IsObject(obj) && |fields| == 1 ==> r == Member(obj, fields[0])
    decreases |fields|
  {
    if !IsObject(obj) then Undefined
    else
      var current := FirstKey(fields);
      var rest := if |fields| == 0 then [] else fields[1..];
      if !HasKey(obj, current) then Undefined
      else
        var v := Member(obj, current);
        var textParentIsString := |rest| == 1 && rest[0] == "#text" && v.Str?;
        if |rest| == 0 || textParentIsString then v
        else GetValue(v, rest)
  }

  /**
   * The data a schema reads after its `preProcessor` ran: the data itself
   * when there is none, and the preprocessor's throw when it throws.
   */
  function Preprocess(m: Model, d: Json): (r: Result<Json, ParseError>)
    ensures r.Ok? ==> Size(r.value) <= Size(d)
    ensures m.pre.None? ==> r == Ok(d)
    ensures m.pre.Some? ==> (r.Ok? <==> m.pre.value(d).Ok?)
    ensures r.Err? ==> r == Err(TransformThrew(m.pre.value(d).error))
  {
    match m.pre
    case None => Ok(d)
    case Some(p) =>
      match p(d)
      case Ok(w) => Ok(w)
      case Err(msg) => Err(TransformThrew(msg))
  }

  /**
   * `processModelAndData(transform, value)` as `parseProperty` applies it to
   * a constructed transform: a wrapper is replaced by its bare entries and
   * its `preProcessor` is applied to the whole raw value. Afterwards no
   * preprocessor is left to run a second time.
   */
  function Unwrap(env: Env, t: Transform, v: Json): (r: Result<(Transform, Json), ParseError>)
    ensures r.Ok? ==> Size(r.value.1) <= Size(v)
    ensures r.Ok? && r.value.0.Nested? ==> r.value.0.model.pre.None?
    ensures !t.Ref? && !(t.Nested? && t.model.pre.Some?) ==> r == Ok((t, v))
    ensures r.Err? ==> r.error.TransformThrew?
  {
    var resolved := if t.Ref? && t.id in env.schemas then Nested(env.schemas[t.id]) else t;
    if resolved.Nested? && resolved.model.pre.Some? then
      var data :- Preprocess(resolved.model, v);
      Ok((Nested(Model(None, resolved.model.entries)), data))
    else Ok((t, v))
  }

  /**
   * The transform and value an entry works with: its own transform and the
   * raw value, or what its `constructTransform` returns for the raw value,
   * unwrapped. A throwing `constructTransform` makes the entry throw.
   */
  function Constructed(env: Env, e: Entry, raw: Json): (r: Result<(Transform, Json), ParseError>)
    ensures r.Ok? ==> Size(r.value.1) <= Size(raw)
    ensures e.construct.None? ==> r == Ok((e.transform, raw))
    ensures e.construct.Some? && e.construct.value(raw).Err? ==> r == Err(TransformThrew(e.construct.value(raw).error))
  {
    match e.construct
    case None => Ok((e.transform, raw))
    case Some(f) =>
      match f(raw)
      case Err(msg) => Err(TransformThrew(msg))
      case Ok(t) => Unwrap(env, t, raw)
  }

  /** `modelParser.to[name](v)`. */
  function CoerceNamed(env: Env, name: string, v: Json): (r: Result<Json, ParseError>)
    ensures name == "boolean" ==> r == Ok(Bool(ToBoolean(v)))
  {
    if name == "boolean" then Ok(Bool(ToBoolean(v)))
    else if name == "number" then
      (match ToNumber(v)
       case Ok(n) => Ok(n)
       case Err(f) => Err(Coercion(f)))
    else if name == "apiDate" then
      (match ToApiDate(v)
       case Ok(d) => Ok(d)
       case Err(f) => Err(Coercion(f)))
    else if name == "date" then
      (match env.toDate(v)
       case Ok(d) => Ok(d)
       case Err(f) => Err(Coercion(f)))
    else Err(UnknownCoercer(name))
  }

  /**
   * `modelParser.transformValue(value, transform)`: a coercer name, a nested
   * schema (parsed recursively, after its preProcessor) or a function.
   */
  function TransformValue(env: Env, v: Json, t: Transform): (r: Result<Json, ParseError>)
    ensures (t.Nested? || (t.Ref? && t.id in env.schemas)) && r.Ok? ==>
      r.value.Obj? && DistinctKeys(r.value.props)
    decreases Size(v), 2, 0, 0
  {
    match t
    case Coerce(name) => CoerceNamed(env, name, v)
    case Nested(m) =>
      var data :- Preprocess(m, v);
      Parse(env, Model(None, m.entries), data)
    case Ref(id) =>
      if id in env.schemas then
        var m := env.schemas[id];
        var data :- Preprocess(m, v);
        Parse(env, Model(None, m.entries), data)
      else Err(UnresolvedSchema(id))
    case Apply(f) =>
      (match f(v)
       case Ok(w) => Ok(w)
       case Err(msg) => Err(TransformThrew(msg)))
    case NoTransform => Err(InvalidTransform)
    case Invalid => Err(InvalidTransform)
  }

  /** `values.map((val) => transformValue(val, transform))`: stops at the first throw. */
  function MapTransform(env: Env, vs: seq<Json>, t: Transform): (r: Result<seq<Json>, ParseError>)
    ensures r.Ok? ==> |r.value| == |vs|
    decreases SumSizes(vs), 3, |vs|, 0
  {
    if vs == [] then Ok([])
    else
      var head :- TransformValue(env, vs[0], t);
      var tail :- MapTransform(env, vs[1..], t);
      Ok([head] + tail)
  }

  /** `createParser(model)(data)`. */
  function Parse(env: Env, m: Model, d: Json): (r: Result<Json, ParseError>)
    ensures d == Str("") ==> r == Ok(Obj([]))
    ensures r.Ok? ==> r.value.Obj? && DistinctKeys(r.value.props)
    ensures r.Ok? ==> forall i :: 0 <= i < |r.value.props| ==> r.value.props[i].value != Undefined
    ensures d != Str("") && Preprocess(m, d).Err? ==> r == Err(Preprocess(m, d).error)
    ensures d != Str("") && |m.entries| > 0 && Preprocess(m, d).Ok? && !IsObject(Preprocess(m, d).value) ==>
              r == Err(NonObject)
    decreases Size(d), 1, 0, 0
  {
    if d == Str("") then Ok(Obj([]))
    else
      var data :- Preprocess(m, d);
      var props :- ParseEntries(env, m.entries, data, []);
      Ok(Obj(props))
  }

  /** The `forEach` of `createParser`: every entry in order, into one accumulator. */
  function ParseEntries(env: Env, es: seq<Entry>, d: Json, acc: seq<Prop>): (r: Result<seq<Prop>, ParseError>)
    ensures r.Ok? ==> acc <= r.value
    ensures r.Ok? && DistinctKeys(acc) ==> DistinctKeys(r.value)
    ensures r.Ok? ==> forall i :: |acc| <= i < |r.value| ==> r.value[i].value != Undefined
    ensures |es| > 0 && !IsObject(d) ==> r == Err(NonObject)
    decreases Size(d), 0, |es|, 2
  {
    if es == [] then Ok(acc)
    else
      var next :- PropertyStep(env, es[0], d, acc);
      ParseEntries(env, es[1..], d, next)
  }

  /**
   * `parseProperty(data, parsedObj, entry)`: the accumulator after one entry.
   * A value that ends up `undefined` adds nothing; a key already stored throws.
   */
  function PropertyStep(env: Env, e: Entry, d: Json, acc: seq<Prop>): (r: Result<seq<Prop>, ParseError>)
    ensures !IsObject(d) ==> r == Err(NonObject)
    ensures r.Ok? ==> OutputName(e) !in KeysOf(acc)
    ensures r.Ok? ==>
              || r.value == acc
              || (&& |r.value| == |acc| + 1 && r.value[..|acc|] == acc
                  && r.value[|acc|].key == OutputName(e) && r.value[|acc|].value != Undefined)
    decreases Size(d), 0, 0, 1
  {
    if !IsObject(d) then Err(NonObject)
    else if e.field.NoField? then Err(MissingField)
    else
      var v :- FieldValue(env, e, d);
      var name := OutputName(e);
      if name in KeysOf(acc) then Err(Duplicate(name))
      else if v == Undefined then Ok(acc)
      else Ok(acc + [Prop(name, v)])
  }

  /**
   * The value `parseProperty` computes for one entry before storing it: the
   * resolved path, the constructed transform (unwrapped against the raw
   * value), `forceArray` for array entries, then the transform, which runs
   * when it is truthy and the value is present, or whenever it is a function.
   */
  function FieldValue(env: Env, e: Entry, d: Json): (r: Result<Json, ParseError>)
    requires IsObject(d) && !e.field.NoField?
    ensures e.isArray && r.Ok? ==> r.value.Arr?
    ensures e.construct.Some? && e.construct.value(GetValue(d, FieldPath(e.field))).Err? ==>
              r == Err(TransformThrew(e.construct.value(GetValue(d, FieldPath(e.field))).error))
    decreases Size(d), 0, 0, 0
  {
    var raw := GetValue(d, FieldPath(e.field));
    var tv :- Constructed(env, e, raw);
    var (t, v) := tv;
    if e.isArray then
      var vs := ForceArray(v);
      if Truthy(t) || t.Apply? then
        var out :- MapTransform(env, vs, t);
        Ok(Arr(out))
      else Ok(Arr(vs))
    else if (Truthy(t) && IsValid(v)) || t.Apply? then TransformValue(env, v, t)
    else Ok(v)
  }
}
