/**
 * `_buildSearchConstraints(params)`: the `constraint` argument of a site
 * search, built from the optional `path`, `tags`, `type` and `namespaces`
 * parameters. Every value is passed through `searchEscape` and the
 * constraints are joined into one `+( ... )` group.
 */
module SearchConstraints {
  import opened Wrappers
  import opened Text
  import opened Utility

  /** A parameter value: a string, an array of strings, or anything else. */
  datatype Param = Str(s: string) | Items(items: seq<string>) | OtherValue

  /**
   * The `params` object: `None` when the key is not `in` it. A key that is
   * present with the value `undefined` is `Some(OtherValue)`.
   */
  datatype SearchParams = SearchParams(path: Option<Param>, tags: Option<Param>, types: Option<Param>, namespaces: Option<Param>)

  /** The TypeError thrown, with the key whose value caused it. */
  datatype SearchError = TypeError(key: string)

  function Escape(s: string): string
  {
    EscapeWith(s, SearchSpecials)
  }

  /** `prefix + searchEscape(item) + suffix` for each item, in order. */
  function Prefixed(prefix: string, items: seq<string>, suffix: string): (cs: seq<string>)
    ensures |cs| == |items|
  {
    if items == [] then [] else [prefix + Escape(items[0]) + suffix] + Prefixed(prefix, items[1..], suffix)
  }

  /** The path with at most one leading `/` removed. */
  function Relative(path: string): string
  {
    if |path| > 0 && path[0] == '/' then path[1..] else path
  }

  /** The `path` constraint: `path.substr` exists on strings only. */
  function PathConstraints(p: Option<Param>): Result<seq<string>, SearchError>
  {
    match p
    case None => Ok([])
    case Some(Str(s)) => Ok(["+path.ancestor:" + Escape(Relative(s))])
    case Some(_) => Err(TypeError("path"))
  }

  /**
   * The list a parameter's `forEach` runs over. A string is split at commas,
   * except that `tags` and `type` leave the empty string unsplit, and
   * `''.forEach` throws.
   */
  function ListOf(key: string, p: Param, splitEmpty: bool): Result<seq<string>, SearchError>
  {
    match p
    case Str(s) => if s != "" || splitEmpty then Ok(Split(s, ',')) else Err(TypeError(key))
    case Items(items) => Ok(items)
    case OtherValue => Err(TypeError(key))
  }

  /** The constraints of one list parameter. */
  function ListConstraints(key: string, p: Option<Param>, splitEmpty: bool, prefix: string, suffix: string)
    : Result<seq<string>, SearchError>
  {
    match p
    case None => Ok([])
    case Some(v) =>
      var items :- ListOf(key, v, splitEmpty);
      Ok(Prefixed(prefix, items, suffix))
  }

  /** The `constraints` array, or the TypeError of the first parameter that throws. */
  function Constraints(params: SearchParams): Result<seq<string>, SearchError>
  {
    var path :- PathConstraints(params.path);
    var tags :- ListConstraints("tags", params.tags, false, "+tag:\"", "\"");
    var types :- ListConstraints("type", params.types, false, "+type:", "");
    var namespaces :- ListConstraints("namespaces", params.namespaces, true, "+namespace:", "");
    Ok(path + tags + types + namespaces)
  }

  /** The returned string. */
  function ConstraintString(params: SearchParams): Result<string, SearchError>
  {
    var cs :- Constraints(params);
    Ok(if |cs| > 0 then "+(" + Join(cs, " ") + ")" else "")
  }

  /** `items.forEach((x) => constraints.push(prefix + utility.searchEscape(x) + suffix))`. */
  method PushEach(constraints: seq<string>, prefix: string, items: seq<string>, suffix: string)
    returns (result: seq<string>)
    ensures result == constraints + Prefixed(prefix, items, suffix)
  {
    result := constraints;
    var i := 0;
    while i < |items|
      invariant 0 <= i <= |items|
      invariant result + Prefixed(prefix, items[i..], suffix) == constraints + Prefixed(prefix, items, suffix)
    {
      assert items[i..][0] == items[i] && items[i..][1..] == items[i + 1..];
      var escaped := SearchEscape(items[i]);
      result := result + [prefix + escaped + suffix];
      i := i + 1;
    }
    assert items[i..] == [];
  }

  /** The `if('path' in params)` block: pushes the path constraint. */
  method PushPath(constraints: seq<string>, p: Option<Param>) returns (r: Result<seq<string>, SearchError>)
    ensures PathConstraints(p).Ok? ==> r == Ok(constraints + PathConstraints(p).value)
    ensures PathConstraints(p).Err? ==> r == Err(PathConstraints(p).error)
  {
    if p.None? {
      assert constraints + [] == constraints;
      return Ok(constraints);
    }
    if !p.value.Str? {
      return Err(TypeError("path"));
    }
    var path := p.value.s;
    if |path| > 0 && path[0] == '/' {
      path := path[1..];
    }
    assert path == Relative(p.value.s);
    var escaped := SearchEscape(path);
    return Ok(constraints + ["+path.ancestor:" + escaped]);
  }

  /** One of the `tags`, `type` and `namespaces` blocks. */
  method PushList(constraints: seq<string>, key: string, p: Option<Param>, splitEmpty: bool, prefix: string, suffix: string)
    returns (r: Result<seq<string>, SearchError>)
    ensures ListConstraints(key, p, splitEmpty, prefix, suffix).Ok? ==>
              r == Ok(constraints + ListConstraints(key, p, splitEmpty, prefix, suffix).value)
    ensures ListConstraints(key, p, splitEmpty, prefix, suffix).Err? ==>
              r == Err(ListConstraints(key, p, splitEmpty, prefix, suffix).error)
  {
    if p.None? {
      assert constraints + [] == constraints;
      return Ok(constraints);
    }
    var items := ListOf(key, p.value, splitEmpty);
    if items.Err? {
      return Err(items.error);
    }
    var pushed := PushEach(constraints, prefix, items.value, suffix);
    return Ok(pushed);
  }

  /** `_buildSearchConstraints(params)`. */
  method BuildSearchConstraints(params: SearchParams) returns (r: Result<string, SearchError>)
    ensures r == ConstraintString(params)
  {
    var constraints := PushPath([], params.path);
    if constraints.Err? {
      return Err(constraints.error);
    }
    constraints := PushList(constraints.value, "tags", params.tags, false, "+tag:\"", "\"");
    if constraints.Err? {
      return Err(constraints.error);
    }
    constraints := PushList(constraints.value, "type", params.types, false, "+type:", "");
    if constraints.Err? {
      return Err(constraints.error);
    }
    constraints := PushList(constraints.value, "namespaces", params.namespaces, true, "+namespace:", "");
    if constraints.Err? {
      return Err(constraints.error);
    }
    var cs := constraints.value;
    assert cs == PathConstraints(params.path).value
      + ListConstraints("tags", params.tags, false, "+tag:\"", "\"").value
      + ListConstraints("type", params.types, false, "+type:", "").value
      + ListConstraints("namespaces", params.namespaces, true, "+namespace:", "").value;
    r := Ok(if |cs| > 0 then "+(" + Join(cs, " ") + ")" else "");
  }

  // ------------------------------------------------------------ properties

  /** A parameter value on which the builder throws. */
  predicate Throws(p: Option<Param>, splitEmpty: bool)
  {
    p.Some? && (p.value.OtherValue? || (p.value == Str("") && !splitEmpty))
  }

  /**
   * The builder throws exactly when `path` is present but not a string, or
   * `tags` or `type` is present but neither a non-empty string nor an array,
   * or `namespaces` is present but neither a string nor an array; the error
   * names the first such key in the order the code reads them.
   */
  lemma ConstraintsThrow(params: SearchParams)
    ensures Constraints(params).Err? <==>
              (params.path.Some? && !params.path.value.Str?) || Throws(params.tags, false)
              || Throws(params.types, false) || Throws(params.namespaces, true)
    ensures params.path.Some? && !params.path.value.Str? ==> Constraints(params) == Err(TypeError("path"))
    ensures (params.path.None? || params.path.value.Str?) && Throws(params.tags, false) ==>
              Constraints(params) == Err(TypeError("tags"))
  {
  }

  /** The number of values a list parameter contributes. */
  function CountOf(p: Option<Param>): nat
  {
    match p
    case None => 0
    case Some(Str(s)) => |Split(s, ',')|
    case Some(Items(items)) => |items|
    case Some(OtherValue) => 0
  }

  /**
   * One constraint for a path and one per value of each list; and the
   * result is empty exactly when there is none.
   */
  lemma ConstraintsCount(params: SearchParams)
    requires Constraints(params).Ok?
    ensures |Constraints(params).value| ==
              (if params.path.Some? then 1 else 0) + CountOf(params.tags) + CountOf(params.types) + CountOf(params.namespaces)
    ensures ConstraintString(params) == Ok("") <==>
              params.path.None? && CountOf(params.tags) == 0 && CountOf(params.types) == 0 && CountOf(params.namespaces) == 0
  {
    ListCount("tags", params.tags, false, "+tag:\"", "\"");
    ListCount("type", params.types, false, "+type:", "");
    ListCount("namespaces", params.namespaces, true, "+namespace:", "");
    var cs := Constraints(params).value;
    assert |cs| == |PathConstraints(params.path).value|
      + |ListConstraints("tags", params.tags, false, "+tag:\"", "\"").value|
      + |ListConstraints("type", params.types, false, "+type:", "").value|
      + |ListConstraints("namespaces", params.namespaces, true, "+namespace:", "").value|;
    ConstraintStringEmpty(params);
  }

  lemma ListCount(key: string, p: Option<Param>, splitEmpty: bool, prefix: string, suffix: string)
    requires ListConstraints(key, p, splitEmpty, prefix, suffix).Ok?
    ensures |ListConstraints(key, p, splitEmpty, prefix, suffix).value| == CountOf(p)
  {
  }

  lemma ConstraintStringEmpty(params: SearchParams)
    requires Constraints(params).Ok?
    ensures ConstraintString(params) == Ok("") <==> Constraints(params).value == []
  {
    var cs := Constraints(params).value;
    if |cs| > 0 {
      assert ("+(" + Join(cs, " ") + ")")[0] == '+';
    }
  }

  /** `Split` never yields an empty list, so a string parameter always adds a constraint. */
  lemma StringListNotEmpty(s: string)
    ensures CountOf(Some(Str(s))) >= 1
  {
  }

  /**
   * The empty string is treated differently by the lists: `namespaces: ''`
   * gives the constraint `+namespace:` while `tags: ''` and `type: ''`
   * throw.
   */
  lemma EmptyStringAsymmetry()
    ensures ConstraintString(SearchParams(None, None, None, Some(Str("")))) == Ok("+(+namespace:)")
    ensures ConstraintString(SearchParams(None, Some(Str("")), None, None)) == Err(TypeError("tags"))
    ensures ConstraintString(SearchParams(None, None, Some(Str("")), None)) == Err(TypeError("type"))
  {
    assert Split("", ',') == [""];
    assert Escape("") == "";
    assert [""][1..] == [];
    assert Prefixed("+namespace:", [""], "") == ["+namespace:" + "" + ""] + Prefixed("+namespace:", [], "");
    assert "+namespace:" + "" + "" == "+namespace:";
    var cs := [] + [] + [] + ["+namespace:"];
    assert cs == ["+namespace:"];
    assert Join(cs, " ") == "+namespace:";
    assert "+(" + "+namespace:" + ")" == "+(+namespace:)";
  }

  /** One leading slash of the path makes no difference. */
  lemma PathLeadingSlash(params: SearchParams, path: string)
    requires |path| == 0 || path[0] != '/'
    ensures Constraints(params.(path := Some(Str("/" + path)))) == Constraints(params.(path := Some(Str(path))))
  {
    assert ("/" + path)[1..] == path;
  }

  /** The comma-joined parts, split again. */
  lemma SplitJoined(parts: seq<string>)
    requires |parts| >= 1 && (|parts| > 1 || parts[0] != "")
    requires forall i :: 0 <= i < |parts| ==> ',' !in parts[i]
    ensures Join(parts, ",") != "" && Split(Join(parts, ","), ',') == parts
  {
    SplitJoin(parts, ',');
    if |parts| > 1 {
      assert |Join(parts, ",")| >= 1;
    }
  }

  /** A comma-separated tags string gives the same constraints as the array of its parts. */
  lemma CommaTagsAreList(params: SearchParams, parts: seq<string>)
    requires |parts| >= 1 && (|parts| > 1 || parts[0] != "")
    requires forall i :: 0 <= i < |parts| ==> ',' !in parts[i]
    ensures Constraints(params.(tags := Some(Str(Join(parts, ","))))) == Constraints(params.(tags := Some(Items(parts))))
  {
    SplitJoined(parts);
    SameTags(params, Str(Join(parts, ",")), Items(parts));
  }

  /** A comma-separated type string gives the same constraints as the array of its parts. */
  lemma CommaTypesAreList(params: SearchParams, parts: seq<string>)
    requires |parts| >= 1 && (|parts| > 1 || parts[0] != "")
    requires forall i :: 0 <= i < |parts| ==> ',' !in parts[i]
    ensures Constraints(params.(types := Some(Str(Join(parts, ","))))) == Constraints(params.(types := Some(Items(parts))))
  {
    SplitJoined(parts);
    SameTypes(params, Str(Join(parts, ",")), Items(parts));
  }

  lemma SameTags(params: SearchParams, a: Param, b: Param)
    requires ListOf("tags", a, false) == ListOf("tags", b, false)
    ensures Constraints(params.(tags := Some(a))) == Constraints(params.(tags := Some(b)))
  {
  }

  lemma SameTypes(params: SearchParams, a: Param, b: Param)
    requires ListOf("type", a, false) == ListOf("type", b, false)
    ensures Constraints(params.(types := Some(a))) == Constraints(params.(types := Some(b)))
  {
  }

  /**
   * Each constraint carries its value escaped so that it reads back: the
   * unescaped text is the value, and every special character in it is
   * behind a backslash.
   */
  lemma {:induction false} PrefixedReadBack(prefix: string, items: seq<string>, suffix: string)
    ensures forall i :: 0 <= i < |items| ==>
              exists e :: Prefixed(prefix, items, suffix)[i] == prefix + e + suffix
                && UnescapeSearch(e) == items[i] && Guarded(e, SearchSpecials)
  {
    if items != [] {
      PrefixedReadBack(prefix, items[1..], suffix);
      assert '\\' in SearchSpecials by { assert SearchSpecials[0] == '\\'; }
      SearchEscapeRoundTrip(items[0], SearchSpecials);
      SearchEscapeGuardsSpecials(items[0], SearchSpecials);
      forall i | 0 <= i < |items|
        ensures exists e :: Prefixed(prefix, items, suffix)[i] == prefix + e + suffix
                  && UnescapeSearch(e) == items[i] && Guarded(e, SearchSpecials)
      {
        if i == 0 {
          var e := Escape(items[0]);
          assert Prefixed(prefix, items, suffix)[0] == prefix + e + suffix;
        } else {
          assert Prefixed(prefix, items, suffix)[i] == Prefixed(prefix, items[1..], suffix)[i - 1];
          assert items[i] == items[1..][i - 1];
        }
      }
    }
  }

  /** With only tags given as an array, constraint `i` is tag `i`, quoted and escaped. */
  lemma TagsReadBack(tags: seq<string>)
    ensures var r := Constraints(SearchParams(None, Some(Items(tags)), None, None));
            && r.Ok? && |r.value| == |tags|
            && forall i :: 0 <= i < |tags| ==>
                 exists e :: r.value[i] == "+tag:\"" + e + "\""
                   && UnescapeSearch(e) == tags[i] && Guarded(e, SearchSpecials)
  {
    PrefixedReadBack("+tag:\"", tags, "\"");
    var cs := Prefixed("+tag:\"", tags, "\"");
    assert [] + cs + [] + [] == cs;
  }
}
