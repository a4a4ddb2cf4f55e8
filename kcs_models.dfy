/**
 * The two KCS schemas (the governance state of a page and the transitions
 * allowed from it) as values of the schema interpreter, and what parsing a
 * payload with them yields.
 */
module KcsModels {
  import opened Wrappers
  import opened JsonValues
  import opened Coercers
  import opened ModelParser
  import opened ParserProperties

  /** The `visibility` and `confidence` blocks: a label and two plain values. */
  const PlainBlock: Model :=
    Model(None, [Plain("@label", "label"), Plain("value", ""), Plain("value-label", "")])

  /** The `flagged` block: as the others, but `value` goes through `'boolean'`. */
  const FlaggedBlock: Model :=
    Model(None, [Plain("@label", "label"),
                 Entry(Key("value"), "", false, Coerce("boolean"), None),
                 Plain("value-label", "")])

  /** `kcsStateModel`. */
  const KcsStateModel: Model :=
    Model(None, [Entry(Key("visibility"), "", false, Nested(PlainBlock), None),
                 Entry(Key("confidence"), "", false, Nested(PlainBlock), None),
                 Entry(Key("flagged"), "", false, Nested(FlaggedBlock), None)])

  /** The nested schema of `transitions`: every `state`, as an array, named `states`. */
  const TransitionsBlock: Model :=
    Model(None, [Entry(Key("state"), "states", true, Nested(KcsStateModel), None)])

  /** `kcsTransitionsModel`. */
  const KcsTransitionsModel: Model :=
    Model(None, [Entry(Key("transitions"), "", false, Nested(TransitionsBlock), None),
                 Entry(Key("can-change-governance"), "canChangeGovernance", false, Coerce("boolean"), None),
                 Entry(Key("can-change-flag"), "canChangeFlag", false, Coerce("boolean"), None)])

  /** A payload a schema of keyed entries accepts: the empty string or an object. */
  predicate Parsable(v: Json)
  {
    v == Str("") || IsObject(v)
  }

  /** A nested block value that does not make the enclosing parse throw. */
  predicate BlockAccepts(raw: Json)
  {
    raw == Undefined || Parsable(raw)
  }

  /** What a `'boolean'` entry stores for a raw value: nothing when it is absent. */
  function BooleanOrAbsent(raw: Json): Json
  {
    if raw == Undefined then Undefined else Bool(ToBoolean(raw))
  }

  /** What a nested-schema entry stores for a raw value (nothing when absent or failing). */
  function StoredBlock(env: Env, m: Model, raw: Json): Json
  {
    if raw == Undefined then Undefined
    else match Parse(env, m, raw)
      case Ok(v) => v
      case Err(_) => Undefined
  }

  /** The `state` elements of a `transitions` value. */
  function StatesOf(t: Json): seq<Json>
  {
    ForceArray(GetValue(t, ["state"]))
  }

  // ------------------------------------------------------------ state blocks

  /** Parsing a `visibility` or `confidence` block. */
  lemma PlainBlockParse(env: Env, v: Json)
    ensures var r := Parse(env, PlainBlock, v);
            && (r.Ok? <==> Parsable(v))
            && (r.Err? ==> r.error == NonObject)
            && (r.Ok? ==> KeysOf(r.value.props) <= {"label", "value", "value-label"})
            && (r.Ok? ==> Stores(r.value.props, "label", GetValue(v, ["@label"])))
            && (r.Ok? ==> Stores(r.value.props, "value", GetValue(v, ["value"])))
            && (r.Ok? ==> Stores(r.value.props, "value-label", GetValue(v, ["value-label"])))
  {
    if IsObject(v) {
      PlainBlockFields(env, v);
      ParsedObject(env, PlainBlock, v);
    }
  }

  /** Three entries with three different output keys. */
  lemma ThreeNames(es: seq<Entry>, a: string, b: string, c: string)
    requires |es| == 3 && OutputName(es[0]) == a && OutputName(es[1]) == b && OutputName(es[2]) == c
    requires a != b && a != c && b != c
    ensures DistinctNames(es) && NamesOf(es) == {a, b, c}
  {
    assert forall x :: x in NamesOf(es) <==> x == OutputName(es[0]) || x == OutputName(es[1]) || x == OutputName(es[2]);
  }

  /** Three keyed entries all succeed exactly when each of them does. */
  lemma ThreeSucceed(env: Env, es: seq<Entry>, v: Json)
    requires IsObject(v) && |es| == 3
    requires !es[0].field.NoField? && !es[1].field.NoField? && !es[2].field.NoField?
    ensures FieldsSucceed(env, es, v) <==>
      FieldValue(env, es[0], v).Ok? && FieldValue(env, es[1], v).Ok? && FieldValue(env, es[2], v).Ok?
  {
    if FieldValue(env, es[0], v).Ok? && FieldValue(env, es[1], v).Ok? && FieldValue(env, es[2], v).Ok? {
      forall i | 0 <= i < |es| ensures !es[i].field.NoField? && FieldValue(env, es[i], v).Ok? {
        if i == 0 {
        } else if i == 1 {
        } else {
          assert i == 2;
        }
      }
    }
  }

  /** The entries of a `visibility` or `confidence` block on an object: their keys and values. */
  lemma PlainBlockFields(env: Env, v: Json)
    requires IsObject(v)
    ensures var es := PlainBlock.entries;
            && DistinctNames(es) && NamesOf(es) == {"label", "value", "value-label"}
            && FieldsSucceed(env, es, v)
            && OutputName(es[0]) == "label" && OutputName(es[1]) == "value" && OutputName(es[2]) == "value-label"
            && FieldValue(env, es[0], v) == Ok(GetValue(v, ["@label"]))
            && FieldValue(env, es[1], v) == Ok(GetValue(v, ["value"]))
            && FieldValue(env, es[2], v) == Ok(GetValue(v, ["value-label"]))
  {
    var es := PlainBlock.entries;
    PlainFieldValue(env, "@label", "label", v);
    PlainFieldValue(env, "value", "", v);
    PlainFieldValue(env, "value-label", "", v);
    ThreeNames(es, "label", "value", "value-label");
    ThreeSucceed(env, es, v);
  }

  /** Parsing a `flagged` block: the same keys, and `value` is a boolean when present. */
  lemma FlaggedBlockParse(env: Env, v: Json)
    ensures var r := Parse(env, FlaggedBlock, v);
            && (r.Ok? <==> Parsable(v))
            && (r.Err? ==> r.error == NonObject)
            && (r.Ok? ==> KeysOf(r.value.props) <= {"label", "value", "value-label"})
            && (r.Ok? ==> Stores(r.value.props, "label", GetValue(v, ["@label"])))
            && (r.Ok? ==> Stores(r.value.props, "value", BooleanOrAbsent(GetValue(v, ["value"]))))
            && (r.Ok? ==> Stores(r.value.props, "value-label", GetValue(v, ["value-label"])))
  {
    if IsObject(v) {
      FlaggedBlockFields(env, v);
      ParsedObject(env, FlaggedBlock, v);
    }
  }

  /** The entries of a `flagged` block on an object: their keys and values. */
  lemma FlaggedBlockFields(env: Env, v: Json)
    requires IsObject(v)
    ensures var es := FlaggedBlock.entries;
            && DistinctNames(es) && NamesOf(es) == {"label", "value", "value-label"}
            && FieldsSucceed(env, es, v)
            && OutputName(es[0]) == "label" && OutputName(es[1]) == "value" && OutputName(es[2]) == "value-label"
            && FieldValue(env, es[0], v) == Ok(GetValue(v, ["@label"]))
            && FieldValue(env, es[1], v) == Ok(BooleanOrAbsent(GetValue(v, ["value"])))
            && FieldValue(env, es[2], v) == Ok(GetValue(v, ["value-label"]))
  {
    var es := FlaggedBlock.entries;
    PlainFieldValue(env, "@label", "label", v);
    BooleanFieldValue(env, "value", "", v);
    PlainFieldValue(env, "value-label", "", v);
    ThreeNames(es, "label", "value", "value-label");
    ThreeSucceed(env, es, v);
  }

  // -------------------------------------------------------------- kcsState

  /**
   * An entry `{ field: k, transform: block }` whose block throws only
   * "non-object", exactly on values it does not accept.
   */
  lemma BlockEntry(env: Env, k: string, m: Model, d: Json)
    requires IsObject(d) && k != "" && m.pre.None?
    requires var raw := GetValue(d, [k]);
             && (Parse(env, m, raw).Ok? <==> Parsable(raw))
             && (Parse(env, m, raw).Err? ==> Parse(env, m, raw).error == NonObject)
    ensures var raw := GetValue(d, [k]);
            var e := Entry(Key(k), "", false, Nested(m), None);
            var fv := FieldValue(env, e, d);
            && OutputName(e) == k
            && (fv.Ok? <==> BlockAccepts(raw))
            && (fv.Err? ==> fv.error == NonObject)
            && (fv.Ok? ==> fv.value == StoredBlock(env, m, raw))
  {
    NestedFieldValue(env, k, "", m, d);
  }

  /**
   * Parsing with `kcsStateModel`: it throws only on a non-object (the payload
   * or one of its blocks), stores exactly the blocks the payload has, and
   * parses each with its block schema.
   */
  lemma KcsStateParse(env: Env, d: Json)
    ensures var r := Parse(env, KcsStateModel, d);
            var vis, conf, flag := GetValue(d, ["visibility"]), GetValue(d, ["confidence"]), GetValue(d, ["flagged"]);
            && (r.Ok? <==> Parsable(d) && BlockAccepts(vis) && BlockAccepts(conf) && BlockAccepts(flag))
            && (r.Err? ==> r.error == NonObject)
            && (r.Ok? ==> KeysOf(r.value.props) <= {"visibility", "confidence", "flagged"})
            && (r.Ok? ==> Stores(r.value.props, "visibility", StoredBlock(env, PlainBlock, vis)))
            && (r.Ok? ==> Stores(r.value.props, "confidence", StoredBlock(env, PlainBlock, conf)))
            && (r.Ok? ==> Stores(r.value.props, "flagged", StoredBlock(env, FlaggedBlock, flag)))
  {
    if IsObject(d) {
      KcsStateFields(env, d);
      KcsStateEntries(env, d);
    }
  }

  /** What each entry of `kcsStateModel` yields on an object payload. */
  predicate BlockEntryBehaves(env: Env, e: Entry, d: Json)
    requires IsObject(d) && e.field.Key? && e.transform.Nested?
  {
    var fv := FieldValue(env, e, d);
    var raw := GetValue(d, [OutputName(e)]);
    && OutputName(e) == e.field.key
    && (fv.Ok? <==> BlockAccepts(raw))
    && (fv.Err? ==> fv.error == NonObject)
    && (fv.Ok? ==> fv.value == StoredBlock(env, e.transform.model, raw))
  }

  lemma KcsStateFields(env: Env, d: Json)
    requires IsObject(d)
    ensures forall i :: 0 <= i < 3 ==> BlockEntryBehaves(env, KcsStateModel.entries[i], d)
  {
    forall i | 0 <= i < 3
      ensures BlockEntryBehaves(env, KcsStateModel.entries[i], d)
    {
      if i == 0 {
        PlainBlockParse(env, GetValue(d, ["visibility"]));
        BlockEntry(env, "visibility", PlainBlock, d);
      } else if i == 1 {
        PlainBlockParse(env, GetValue(d, ["confidence"]));
        BlockEntry(env, "confidence", PlainBlock, d);
      } else {
        FlaggedBlockParse(env, GetValue(d, ["flagged"]));
        BlockEntry(env, "flagged", FlaggedBlock, d);
      }
    }
  }

  /** The object case of `KcsStateParse`, once each entry's value is known. */
  lemma KcsStateEntries(env: Env, d: Json)
    requires IsObject(d)
    requires forall i :: 0 <= i < 3 ==> BlockEntryBehaves(env, KcsStateModel.entries[i], d)
    ensures var r := Parse(env, KcsStateModel, d);
            var vis, conf, flag := GetValue(d, ["visibility"]), GetValue(d, ["confidence"]), GetValue(d, ["flagged"]);
            && (r.Ok? <==> BlockAccepts(vis) && BlockAccepts(conf) && BlockAccepts(flag))
            && (r.Err? ==> r.error == NonObject)
            && (r.Ok? ==> KeysOf(r.value.props) <= {"visibility", "confidence", "flagged"})
            && (r.Ok? ==> Stores(r.value.props, "visibility", StoredBlock(env, PlainBlock, vis)))
            && (r.Ok? ==> Stores(r.value.props, "confidence", StoredBlock(env, PlainBlock, conf)))
            && (r.Ok? ==> Stores(r.value.props, "flagged", StoredBlock(env, FlaggedBlock, flag)))
  {
    KcsStateNames();
    KcsStateOutcome(env, d);
    if Parse(env, KcsStateModel, d).Ok? {
      ParsedObject(env, KcsStateModel, d);
    }
  }

  /** The output names of `kcsStateModel`: the three block keys, once each. */
  lemma KcsStateNames()
    ensures var es := KcsStateModel.entries;
            && OutputName(es[0]) == "visibility" && OutputName(es[1]) == "confidence" && OutputName(es[2]) == "flagged"
            && DistinctNames(es) && NamesOf(es) == {"visibility", "confidence", "flagged"}
  {
    var es := KcsStateModel.entries;
    assert OutputName(es[0]) == "visibility";
    assert OutputName(es[1]) == "confidence";
    assert OutputName(es[2]) == "flagged";
  }

  /** Whether parsing an object with `kcsStateModel` throws, and what. */
  lemma KcsStateOutcome(env: Env, d: Json)
    requires IsObject(d)
    requires forall i :: 0 <= i < 3 ==> BlockEntryBehaves(env, KcsStateModel.entries[i], d)
    ensures var r := Parse(env, KcsStateModel, d);
            var vis, conf, flag := GetValue(d, ["visibility"]), GetValue(d, ["confidence"]), GetValue(d, ["flagged"]);
            && (r.Ok? <==> BlockAccepts(vis) && BlockAccepts(conf) && BlockAccepts(flag))
            && (r.Err? ==> r.error == NonObject)
  {
    var es := KcsStateModel.entries;
    KcsStateNames();
    ParsedObject(env, KcsStateModel, d);
    ParseFailsAtFirstFailingEntry(env, KcsStateModel, d);
    assert FieldsSucceed(env, es, d) <==>
      FieldValue(env, es[0], d).Ok? && FieldValue(env, es[1], d).Ok? && FieldValue(env, es[2], d).Ok?;
  }

  /** A stored `visibility` or `confidence` block holds the payload's label and values. */
  lemma KcsStatePlainBlock(env: Env, d: Json, k: string)
    requires k == "visibility" || k == "confidence"
    requires Parse(env, KcsStateModel, d).Ok?
    requires k in KeysOf(Parse(env, KcsStateModel, d).value.props)
    ensures var b := PropValue(Parse(env, KcsStateModel, d).value.props, k);
            && b.Obj?
            && Stores(b.props, "label", GetValue(d, [k, "@label"]))
            && Stores(b.props, "value", GetValue(d, [k, "value"]))
            && Stores(b.props, "value-label", GetValue(d, [k, "value-label"]))
  {
    KcsStateParse(env, d);
    var raw := GetValue(d, [k]);
    assert PropValue(Parse(env, KcsStateModel, d).value.props, k) == StoredBlock(env, PlainBlock, raw);
    StoredPlainBlock(env, d, k);
  }

  lemma StoredPlainBlock(env: Env, d: Json, k: string)
    requires k != ""
    requires StoredBlock(env, PlainBlock, GetValue(d, [k])) != Undefined
    ensures var b := StoredBlock(env, PlainBlock, GetValue(d, [k]));
            && b.Obj?
            && Stores(b.props, "label", GetValue(d, [k, "@label"]))
            && Stores(b.props, "value", GetValue(d, [k, "value"]))
            && Stores(b.props, "value-label", GetValue(d, [k, "value-label"]))
  {
    var raw := GetValue(d, [k]);
    PlainBlockParse(env, raw);
    GetValueCompose(d, [k], ["@label"]);
    GetValueCompose(d, [k], ["value"]);
    GetValueCompose(d, [k], ["value-label"]);
  }

  /** A stored `flagged` block holds the payload's label, and its `value` is a boolean. */
  lemma KcsStateFlaggedBlock(env: Env, d: Json)
    requires Parse(env, KcsStateModel, d).Ok?
    requires "flagged" in KeysOf(Parse(env, KcsStateModel, d).value.props)
    ensures var b := PropValue(Parse(env, KcsStateModel, d).value.props, "flagged");
            && b.Obj?
            && Stores(b.props, "label", GetValue(d, ["flagged", "@label"]))
            && Stores(b.props, "value", BooleanOrAbsent(GetValue(d, ["flagged", "value"])))
            && Stores(b.props, "value-label", GetValue(d, ["flagged", "value-label"]))
            && ("value" in KeysOf(b.props) ==> PropValue(b.props, "value").Bool?)
  {
    KcsStateParse(env, d);
    var raw := GetValue(d, ["flagged"]);
    FlaggedBlockParse(env, raw);
    GetValueCompose(d, ["flagged"], ["@label"]);
    GetValueCompose(d, ["flagged"], ["value"]);
    GetValueCompose(d, ["flagged"], ["value-label"]);
  }

  // --------------------------------------------------------- kcsTransitions

  /** The `transitions` value the schema accepts: every state parses. */
  predicate TransitionsAccept(env: Env, t: Json)
  {
    || t == Undefined
    || t == Str("")
    || (IsObject(t) && forall i :: 0 <= i < |StatesOf(t)| ==> Parse(env, KcsStateModel, StatesOf(t)[i]).Ok?)
  }

  /**
   * The nested `transitions` schema on an object: one key, `states`, always an
   * array with one parsed state per `state` element, in order.
   */
  lemma TransitionsBlockParse(env: Env, t: Json)
    requires IsObject(t)
    ensures var r := Parse(env, TransitionsBlock, t);
            var ss := StatesOf(t);
            && (r.Ok? <==> forall i :: 0 <= i < |ss| ==> Parse(env, KcsStateModel, ss[i]).Ok?)
            && (r.Err? ==> r.error == NonObject)
            && (r.Ok? ==> KeysOf(r.value.props) == {"states"})
            && (r.Ok? ==> var states := PropValue(r.value.props, "states");
                          && states.Arr? && |states.items| == |ss|
                          && forall i :: 0 <= i < |ss| ==> Parse(env, KcsStateModel, ss[i]) == Ok(states.items[i]))
  {
    var es := TransitionsBlock.entries;
    var e := es[0];
    var ss := StatesOf(t);
    assert OutputName(e) == "states";
    assert NamesOf(es) == {"states"};
    assert DistinctNames(es);
    ParsedObject(env, TransitionsBlock, t);
    ParseFailsAtFirstFailingEntry(env, TransitionsBlock, t);
    ArrayEntryShape(env, e, t);
    assert Model(None, KcsStateModel.entries) == KcsStateModel;
    assert forall i :: 0 <= i < |ss| ==> TransformValue(env, ss[i], e.transform) == Parse(env, KcsStateModel, ss[i]);
    if FieldValue(env, e, t).Err? {
      var i :| 0 <= i < |ss| && TransformValue(env, ss[i], e.transform) == Err(FieldValue(env, e, t).error);
      KcsStateParse(env, ss[i]);
    }
    assert FieldsSucceed(env, es, t) <==> FieldValue(env, e, t).Ok?;
  }

  /**
   * Parsing with `kcsTransitionsModel`: it throws only on a non-object, stores
   * the two flags as booleans when present, and the transitions through their
   * nested schema.
   */
  lemma KcsTransitionsParse(env: Env, d: Json)
    ensures var r := Parse(env, KcsTransitionsModel, d);
            var t := GetValue(d, ["transitions"]);
            && (r.Ok? <==> Parsable(d) && TransitionsAccept(env, t))
            && (r.Err? ==> r.error == NonObject)
            && (r.Ok? ==> KeysOf(r.value.props) <= {"transitions", "canChangeGovernance", "canChangeFlag"})
            && (r.Ok? ==> Stores(r.value.props, "transitions", StoredBlock(env, TransitionsBlock, t)))
            && (r.Ok? ==> Stores(r.value.props, "canChangeGovernance", BooleanOrAbsent(GetValue(d, ["can-change-governance"]))))
            && (r.Ok? ==> Stores(r.value.props, "canChangeFlag", BooleanOrAbsent(GetValue(d, ["can-change-flag"]))))
  {
    if IsObject(d) {
      KcsTransitionsNames();
      KcsTransitionsFields(env, d);
      KcsTransitionsOutcome(env, d);
      if Parse(env, KcsTransitionsModel, d).Ok? {
        ParsedObject(env, KcsTransitionsModel, d);
      }
    }
  }

  /** The output names of `kcsTransitionsModel`, once each. */
  lemma KcsTransitionsNames()
    ensures var es := KcsTransitionsModel.entries;
            && OutputName(es[0]) == "transitions" && OutputName(es[1]) == "canChangeGovernance"
            && OutputName(es[2]) == "canChangeFlag"
            && DistinctNames(es) && NamesOf(es) == {"transitions", "canChangeGovernance", "canChangeFlag"}
  {
    var es := KcsTransitionsModel.entries;
    assert OutputName(es[0]) == "transitions";
    assert OutputName(es[1]) == "canChangeGovernance";
    assert OutputName(es[2]) == "canChangeFlag";
    ThreeNames(es, "transitions", "canChangeGovernance", "canChangeFlag");
  }

  /** Whether parsing an object with `kcsTransitionsModel` throws, and what. */
  lemma KcsTransitionsOutcome(env: Env, d: Json)
    requires IsObject(d)
    ensures var r := Parse(env, KcsTransitionsModel, d);
            && (r.Ok? <==> TransitionsAccept(env, GetValue(d, ["transitions"])))
            && (r.Err? ==> r.error == NonObject)
  {
    var es := KcsTransitionsModel.entries;
    KcsTransitionsNames();
    KcsTransitionsFields(env, d);
    ThreeSucceed(env, es, d);
    ParsedObject(env, KcsTransitionsModel, d);
    ParseFailsAtFirstFailingEntry(env, KcsTransitionsModel, d);
  }

  /** What each entry of `kcsTransitionsModel` yields on an object payload. */
  lemma KcsTransitionsFields(env: Env, d: Json)
    requires IsObject(d)
    ensures var es := KcsTransitionsModel.entries;
            var t := GetValue(d, ["transitions"]);
            var fv := FieldValue(env, es[0], d);
            && (fv.Ok? <==> TransitionsAccept(env, t))
            && (fv.Err? ==> fv.error == NonObject)
            && (fv.Ok? ==> fv.value == StoredBlock(env, TransitionsBlock, t))
            && FieldValue(env, es[1], d) == Ok(BooleanOrAbsent(GetValue(d, ["can-change-governance"])))
            && FieldValue(env, es[2], d) == Ok(BooleanOrAbsent(GetValue(d, ["can-change-flag"])))
  {
    var t := GetValue(d, ["transitions"]);
    NestedFieldValue(env, "transitions", "", TransitionsBlock, d);
    BooleanFieldValue(env, "can-change-governance", "canChangeGovernance", d);
    BooleanFieldValue(env, "can-change-flag", "canChangeFlag", d);
    if IsObject(t) {
      TransitionsBlockParse(env, t);
    }
  }

  /**
   * The stored transitions of an object payload: `states` is an array with
   * one parsed state per `transitions.state` element, in order, and the two
   * flags are booleans.
   */
  lemma KcsTransitionsStates(env: Env, d: Json)
    requires Parse(env, KcsTransitionsModel, d).Ok? && IsObject(GetValue(d, ["transitions"]))
    ensures var ps := Parse(env, KcsTransitionsModel, d).value.props;
            var ss := ForceArray(GetValue(d, ["transitions", "state"]));
            && "transitions" in KeysOf(ps)
            && PropValue(ps, "transitions").Obj?
            && var states := PropValue(PropValue(ps, "transitions").props, "states");
               && states.Arr? && |states.items| == |ss|
               && (forall i :: 0 <= i < |ss| ==> Parse(env, KcsStateModel, ss[i]) == Ok(states.items[i]))
    ensures var ps := Parse(env, KcsTransitionsModel, d).value.props;
            && ("canChangeGovernance" in KeysOf(ps) ==> PropValue(ps, "canChangeGovernance").Bool?)
            && ("canChangeFlag" in KeysOf(ps) ==> PropValue(ps, "canChangeFlag").Bool?)
  {
    var t := GetValue(d, ["transitions"]);
    KcsTransitionsParse(env, d);
    TransitionsBlockParse(env, t);
    GetValueCompose(d, ["transitions"], ["state"]);
  }
}
