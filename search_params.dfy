/**
 * `UriSearchParams`: an ordered list of `[name, value]` pairs, where a name may
 * repeat. The class keeps the list in a `seq` field that its methods rebuild;
 * the functions of this module say what each rebuild yields.
 */
module SearchParams {
  import opened Wrappers
  import opened Text

  /** A parameter value: a string, or `undefined` for an entry written without `=`. */
  datatype ParamValue = Missing | Text(text: string)

  type Pair = (string, ParamValue)

  /** The value as a template literal prints it. */
  function ValueString(v: ParamValue): string
  {
    match v
    case Missing => "undefined"
    case Text(s) => s
  }

  /** One pair as `toString` prints it: `name=value`. */
  function PairString(p: Pair): string
  {
    p.0 + "=" + ValueString(p.1)
  }

  function PairStrings(ps: seq<Pair>): (r: seq<string>)
    ensures |r| == |ps| && forall i :: 0 <= i < |ps| ==> r[i] == PairString(ps[i])
  {
    seq(|ps|, i requires 0 <= i < |ps| => PairString(ps[i]))
  }

  /** The `reduce` of `toString`: each pair appended, with `&` before all but the first. */
  function Render(ps: seq<Pair>): string
  {
    if ps == [] then ""
    else Render(ps[..|ps| - 1]) + (if |ps| == 1 then "" else "&") + PairString(ps[|ps| - 1])
  }

  // ----------------------------------------------------------------- parsing

  /** One `&`-separated entry: the text before the first `=`, and the text up to a second one. */
  function EntryPair(entry: string): Pair
  {
    var kvp := Split(entry, '=');
    (kvp[0], if |kvp| > 1 then Text(kvp[1]) else Missing)
  }

  /** `_searchStringToParams(search)`. */
  function SearchPairs(search: string): (r: seq<Pair>)
    ensures |r| == |Split(search, '&')| >= 1
  {
    var entries := Split(search, '&');
    seq(|entries|, i requires 0 <= i < |entries| => EntryPair(entries[i]))
  }

  /** The pairs the constructor starts from: none for no string or `''`, else the string without one leading `?`. */
  function InitialParams(search: Option<string>): seq<Pair>
  {
    if search.None? || search.value == "" then []
    else SearchPairs(if search.value[0] == '?' then search.value[1..] else search.value)
  }

  // ------------------------------------------------------ list operations

  /** Some pair has this name. */
  predicate Named(ps: seq<Pair>, name: string)
  {
    exists i :: 0 <= i < |ps| && ps[i].0 == name
  }

  /** The position of the first pair with this name. */
  function FirstIndex(ps: seq<Pair>, name: string): (i: nat)
    requires Named(ps, name)
    ensures i < |ps| && ps[i].0 == name
    ensures forall j :: 0 <= j < i ==> ps[j].0 != name
  {
    if ps[0].0 == name then 0
    else
      assert Named(ps[1..], name) by {
        var k :| 0 <= k < |ps| && ps[k].0 == name;
        assert ps[1..][k - 1] == ps[k];
      }
      1 + FirstIndex(ps[1..], name)
  }

  /** The pairs whose name differs, in their order (what `delete` keeps). */
  function Without(ps: seq<Pair>, name: string): seq<Pair>
  {
    if ps == [] then []
    else (if ps[0].0 != name then [ps[0]] else []) + Without(ps[1..], name)
  }

  /** The values of the pairs with this name, in order (`getAll`). */
  function ValuesOf(ps: seq<Pair>, name: string): seq<ParamValue>
  {
    if ps == [] then []
    else (if ps[0].0 == name then [ps[0].1] else []) + ValuesOf(ps[1..], name)
  }

  /** The value of the first pair with this name; `None` stands for `null` (`get`). */
  function FirstValue(ps: seq<Pair>, name: string): Option<ParamValue>
  {
    if ps == [] then None
    else if ps[0].0 == name then Some(ps[0].1)
    else FirstValue(ps[1..], name)
  }

  /**
   * What `set` leaves: the first pair with the name, now holding the new
   * value, at its place; the later pairs with the name dropped; an absent
   * name adds nothing.
   */
  function Replaced(ps: seq<Pair>, name: string, value: ParamValue): seq<Pair>
  {
    if !Named(ps, name) then ps
    else
      var k := FirstIndex(ps, name);
      ps[..k] + [(name, value)] + Without(ps[k + 1..], name)
  }

  // ---------------------------------------------------------------- the class

  class UriSearchParams {
    var params: seq<Pair>

    /** `new UriSearchParams(searchString)`; `None` is an `undefined` search string. */
    constructor (search: Option<string>)
      ensures params == InitialParams(search)
    {
      if search.Some? && search.value != "" {
        var s := search.value;
        if s[0] == '?' {
          s := s[1..];
        }
        var parsed := SearchStringToParams(s);
        params := parsed;
      } else {
        params := [];
      }
    }

    /** `get entries`. */
    function Entries(): seq<Pair>
      reads this
    {
      params
    }

    /** `get count`: the number of pairs, repeated names included. */
    function Count(): (n: nat)
      reads this
      ensures n == 0 <==> params == []
    {
      |params|
    }

    /** `append(name, value)`: a new last pair. */
    method Append(name: string, value: ParamValue)
      modifies this
      ensures params == old(params) + [(name, value)]
    {
      params := params + [(name, value)];
    }

    /** `delete(name)`: rebuilds the list without the pairs of that name. */
    method Delete(name: string)
      modifies this
      ensures params == Without(old(params), name)
    {
      var ps := params;
      var newParams: seq<Pair> := [];
      var i := 0;
      while i < |ps|
        invariant 0 <= i <= |ps|
        invariant newParams == Without(ps[..i], name)
      {
        assert ps[..i + 1] == ps[..i] + [ps[i]];
        WithoutAppend(ps[..i], [ps[i]], name);
        if ps[i].0 != name {
          newParams := newParams + [ps[i]];
        }
        i := i + 1;
      }
      assert ps[..i] == ps;
      params := newParams;
    }

    /** `get(name)`: the value of the first pair with that name, or `null`. */
    method Get(name: string) returns (found: Option<ParamValue>)
      ensures found == FirstValue(params, name)
    {
      var i := 0;
      while i < |params|
        invariant 0 <= i <= |params|
        invariant forall j :: 0 <= j < i ==> params[j].0 != name
      {
        if params[i].0 == name {
          GetFirstMatch(params, name);
          return Some(params[i].1);
        }
        i := i + 1;
      }
      GetFirstMatch(params, name);
      return None;
    }

    /** `getAll(name)`: every value with that name, in order. */
    method GetAll(name: string) returns (found: seq<ParamValue>)
      ensures found == ValuesOf(params, name)
    {
      found := [];
      var i := 0;
      while i < |params|
        invariant 0 <= i <= |params|
        invariant found == ValuesOf(params[..i], name)
      {
        assert params[..i + 1] == params[..i] + [params[i]];
        ValuesOfAppend(params[..i], [params[i]], name);
        if params[i].0 == name {
          found := found + [params[i].1];
        }
        i := i + 1;
      }
      assert params[..i] == params;
    }

    /** `has(name)`. */
    method Has(name: string) returns (found: bool)
      ensures found <==> Named(params, name)
    {
      found := false;
      var i := 0;
      while i < |params|
        invariant 0 <= i <= |params|
        invariant forall j :: 0 <= j < i ==> params[j].0 != name
      {
        if params[i].0 == name {
          found := true;
          break;
        }
        i := i + 1;
      }
    }

    /**
     * `set(name, value)`: one pass that keeps the first pair with the name
     * (its value replaced), drops the later ones and keeps all others.
     */
    method Set(name: string, value: ParamValue)
      modifies this
      ensures params == Replaced(old(params), name, value)
    {
      var ps := params;
      var found := false;
      var result: seq<Pair> := [];
      ghost var k := 0;
      var i := 0;
      while i < |ps|
        invariant 0 <= i <= |ps|
        invariant !found ==> (forall j :: 0 <= j < i ==> ps[j].0 != name) && result == ps[..i]
        invariant found ==> && 0 <= k < i && ps[k].0 == name
                            && (forall j :: 0 <= j < k ==> ps[j].0 != name)
                            && result == ps[..k] + [(name, value)] + Without(ps[k + 1..i], name)
      {
        if ps[i].0 == name && !found {
          k := i;
          found := true;
          result := result + [(name, value)];
          assert ps[k + 1..i + 1] == [];
        } else {
          if found {
            assert ps[k + 1..i + 1] == ps[k + 1..i] + [ps[i]];
            WithoutAppend(ps[k + 1..i], [ps[i]], name);
          } else {
            assert ps[..i + 1] == ps[..i] + [ps[i]];
          }
          if ps[i].0 != name {
            result := result + [ps[i]];
          }
        }
        i := i + 1;
      }
      if found {
        assert ps[k + 1..i] == ps[k + 1..];
        FirstIndexUnique(ps, name, k);
        assert result == Replaced(ps, name, value);
      } else {
        assert ps[..i] == ps;
        assert !Named(ps, name);
        assert result == Replaced(ps, name, value);
      }
      params := result;
    }

    /** `toString()`: the pairs as `name=value`, joined by `&`. */
    function ToString(): (s: string)
      reads this
      ensures s == Join(PairStrings(params), "&")
    {
      RenderJoin(params);
      Render(params)
    }
  }

  /** `_searchStringToParams(search)`: one pair per `&`-separated entry, pushed in order. */
  method SearchStringToParams(search: string) returns (params: seq<Pair>)
    ensures params == SearchPairs(search)
  {
    var queryEntries := Split(search, '&');
    params := [];
    var i := 0;
    while i < |queryEntries|
      invariant 0 <= i <= |queryEntries| && |params| == i
      invariant forall j :: 0 <= j < i ==> params[j] == EntryPair(queryEntries[j])
    {
      var kvp := Split(queryEntries[i], '=');
      params := params + [(kvp[0], if |kvp| > 1 then Text(kvp[1]) else Missing)];
      i := i + 1;
    }
  }

  // ----------------------------------------------------------------- lemmas

  lemma {:induction false} WithoutAppend(a: seq<Pair>, b: seq<Pair>, name: string)
    ensures Without(a + b, name) == Without(a, name) + Without(b, name)
  {
    if a != [] {
      assert (a + b)[1..] == a[1..] + b;
      WithoutAppend(a[1..], b, name);
    } else {
      assert a + b == b;
    }
  }

  lemma {:induction false} ValuesOfAppend(a: seq<Pair>, b: seq<Pair>, name: string)
    ensures ValuesOf(a + b, name) == ValuesOf(a, name) + ValuesOf(b, name)
  {
    if a != [] {
      assert (a + b)[1..] == a[1..] + b;
      ValuesOfAppend(a[1..], b, name);
    } else {
      assert a + b == b;
    }
  }

  /** The first position of a name is the only one with nothing of that name before it. */
  lemma FirstIndexUnique(ps: seq<Pair>, name: string, k: nat)
    requires k < |ps| && ps[k].0 == name
    requires forall j :: 0 <= j < k ==> ps[j].0 != name
    ensures Named(ps, name) && FirstIndex(ps, name) == k
  {
    var f := FirstIndex(ps, name);
    assert !(f < k) && !(k < f);
  }

  /**
   * `get` finds the first match: `Some(v)` exactly when some pair is
   * `(name, v)` with no pair of that name before it, and `null` exactly when
   * no pair has the name.
   */
  lemma {:induction false} GetFirstMatch(ps: seq<Pair>, name: string)
    ensures FirstValue(ps, name).None? <==> !Named(ps, name)
    ensures Named(ps, name) ==> FirstValue(ps, name) == Some(ps[FirstIndex(ps, name)].1)
  {
    if ps != [] && ps[0].0 != name {
      GetFirstMatch(ps[1..], name);
      if Named(ps, name) {
        var k :| 0 <= k < |ps| && ps[k].0 == name;
        assert ps[1..][k - 1] == ps[k];
        FirstIndexUnique(ps[1..], name, FirstIndex(ps, name) - 1);
      }
      if Named(ps[1..], name) {
        var k :| 0 <= k < |ps[1..]| && ps[1..][k].0 == name;
        assert ps[k + 1].0 == name;
      }
    }
  }

  /** `getAll` and `get` agree: the first of all values is the one `get` returns. */
  lemma {:induction false} GetAllStartsWithGet(ps: seq<Pair>, name: string)
    ensures |ValuesOf(ps, name)| > 0 <==> Named(ps, name)
    ensures Named(ps, name) ==> FirstValue(ps, name) == Some(ValuesOf(ps, name)[0])
  {
    if ps != [] {
      GetAllStartsWithGet(ps[1..], name);
      if Named(ps, name) && ps[0].0 != name {
        var k :| 0 <= k < |ps| && ps[k].0 == name;
        assert ps[1..][k - 1] == ps[k];
      }
      if Named(ps[1..], name) {
        var k :| 0 <= k < |ps[1..]| && ps[1..][k].0 == name;
        assert ps[k + 1].0 == name;
      }
    }
  }

  /** After `append(name, v)`, `getAll(name)` ends with `v` and other names are unaffected. */
  lemma AppendAddsLastValue(ps: seq<Pair>, name: string, v: ParamValue, other: string)
    ensures ValuesOf(ps + [(name, v)], name) == ValuesOf(ps, name) + [v]
    ensures other != name ==> ValuesOf(ps + [(name, v)], other) == ValuesOf(ps, other)
  {
    ValuesOfAppend(ps, [(name, v)], name);
    ValuesOfAppend(ps, [(name, v)], other);
  }

  /**
   * After `delete(name)`: no pair has the name, every other pair survives
   * with its value, and the survivors keep their relative order.
   */
  lemma DeleteRemovesOnlyName(ps: seq<Pair>, name: string, other: string)
    ensures !Named(Without(ps, name), name)
    ensures other != name ==> ValuesOf(Without(ps, name), other) == ValuesOf(ps, other)
    ensures !Named(ps, name) ==> Without(ps, name) == ps
    ensures multiset(Without(ps, name)) <= multiset(ps)
  {
    WithoutDropsName(ps, name);
    if other != name {
      WithoutKeepsOthers(ps, name, other);
    }
    if !Named(ps, name) {
      WithoutNothingNamed(ps, name);
    }
    WithoutSubMultiset(ps, name);
  }

  lemma {:induction false} WithoutDropsName(ps: seq<Pair>, name: string)
    ensures forall k :: 0 <= k < |Without(ps, name)| ==> Without(ps, name)[k].0 != name
  {
    if ps != [] {
      WithoutDropsName(ps[1..], name);
      var head := if ps[0].0 != name then [ps[0]] else [];
      var w := Without(ps, name);
      assert w == head + Without(ps[1..], name);
      forall k | 0 <= k < |w|
        ensures w[k].0 != name
      {
        if k >= |head| {
          assert w[k] == Without(ps[1..], name)[k - |head|];
        }
      }
    }
  }

  lemma {:induction false} WithoutKeepsOthers(ps: seq<Pair>, name: string, other: string)
    requires other != name
    ensures ValuesOf(Without(ps, name), other) == ValuesOf(ps, other)
  {
    if ps != [] {
      WithoutKeepsOthers(ps[1..], name, other);
      var head := if ps[0].0 != name then [ps[0]] else [];
      ValuesOfAppend(head, Without(ps[1..], name), other);
      if ps[0].0 != name {
        assert [ps[0]][1..] == [];
      }
    }
  }

  lemma {:induction false} WithoutNothingNamed(ps: seq<Pair>, name: string)
    requires !Named(ps, name)
    ensures Without(ps, name) == ps
  {
    if ps != [] {
      assert ps[0].0 != name;
      assert !Named(ps[1..], name) by {
        forall k | 0 <= k < |ps[1..]|
          ensures ps[1..][k].0 != name
        {
          assert ps[1..][k] == ps[k + 1];
        }
      }
      WithoutNothingNamed(ps[1..], name);
      assert ps == [ps[0]] + ps[1..];
    }
  }

  lemma {:induction false} WithoutSubMultiset(ps: seq<Pair>, name: string)
    ensures multiset(Without(ps, name)) <= multiset(ps)
  {
    if ps != [] {
      WithoutSubMultiset(ps[1..], name);
      assert ps == [ps[0]] + ps[1..];
    }
  }

  /**
   * After `set(name, v)` on a list holding the name: exactly one pair has the
   * name, at the position of the first original one, with value `v`; the
   * pairs before it are untouched and the other names keep their values.
   * On a list without the name, `set` changes nothing.
   */
  lemma SetKeepsFirstPosition(ps: seq<Pair>, name: string, v: ParamValue, other: string)
    ensures !Named(ps, name) ==> Replaced(ps, name, v) == ps
    ensures Named(ps, name) ==>
              var k := FirstIndex(ps, name);
              var r := Replaced(ps, name, v);
              && ValuesOf(r, name) == [v]
              && k < |r| && r[k] == (name, v) && r[..k] == ps[..k]
    ensures other != name ==> ValuesOf(Replaced(ps, name, v), other) == ValuesOf(ps, other)
    ensures Without(Replaced(ps, name, v), name) == Without(ps, name)
  {
    if Named(ps, name) {
      var k := FirstIndex(ps, name);
      assert ps == ps[..k] + [ps[k]] + ps[k + 1..];
      SetSingleValue(ps, name, v, k);
      if other != name {
        SetKeepsOtherValues(ps, name, v, other, k);
      }
      SetSameWithout(ps, name, v, k);
    }
  }

  lemma SetSingleValue(ps: seq<Pair>, name: string, v: ParamValue, k: nat)
    requires Named(ps, name) && k == FirstIndex(ps, name)
    ensures var r := Replaced(ps, name, v);
            ValuesOf(r, name) == [v] && k < |r| && r[k] == (name, v) && r[..k] == ps[..k]
  {
    var rest := Without(ps[k + 1..], name);
    NoNameBefore(ps[..k], name, name);
    WithoutDropsName(ps[k + 1..], name);
    NoNameValues(rest, name);
    ValuesOfAppend(ps[..k] + [(name, v)], rest, name);
    ValuesOfAppend(ps[..k], [(name, v)], name);
    assert [(name, v)][1..] == [];
  }

  lemma SetKeepsOtherValues(ps: seq<Pair>, name: string, v: ParamValue, other: string, k: nat)
    requires Named(ps, name) && k == FirstIndex(ps, name) && other != name
    ensures ValuesOf(Replaced(ps, name, v), other) == ValuesOf(ps, other)
  {
    var rest := Without(ps[k + 1..], name);
    assert ps == ps[..k] + [ps[k]] + ps[k + 1..];
    WithoutKeepsOthers(ps[k + 1..], name, other);
    ValuesOfAppend(ps[..k] + [(name, v)], rest, other);
    ValuesOfAppend(ps[..k], [(name, v)], other);
    ValuesOfAppend(ps[..k] + [ps[k]], ps[k + 1..], other);
    ValuesOfAppend(ps[..k], [ps[k]], other);
    assert [(name, v)][1..] == [] && [ps[k]][1..] == [];
  }

  lemma SetSameWithout(ps: seq<Pair>, name: string, v: ParamValue, k: nat)
    requires Named(ps, name) && k == FirstIndex(ps, name)
    ensures Without(Replaced(ps, name, v), name) == Without(ps, name)
  {
    var rest := Without(ps[k + 1..], name);
    assert ps == ps[..k] + [ps[k]] + ps[k + 1..];
    WithoutAppend(ps[..k] + [(name, v)], rest, name);
    WithoutAppend(ps[..k], [(name, v)], name);
    WithoutAppend(ps[..k] + [ps[k]], ps[k + 1..], name);
    WithoutAppend(ps[..k], [ps[k]], name);
    WithoutIdempotent(ps[k + 1..], name);
    assert [(name, v)][1..] == [] && [ps[k]][1..] == [];
  }

  lemma {:induction false} NoNameBefore(ps: seq<Pair>, name: string, other: string)
    requires forall j :: 0 <= j < |ps| ==> ps[j].0 != name
    ensures ValuesOf(ps, name) == [] && Without(ps, name) == ps
  {
    if ps != [] {
      NoNameBefore(ps[1..], name, other);
      assert ps == [ps[0]] + ps[1..];
    }
  }

  lemma NoNameValues(ps: seq<Pair>, name: string)
    requires !Named(ps, name)
    ensures ValuesOf(ps, name) == []
  {
    NoNameBefore(ps, name, name);
  }

  lemma {:induction false} WithoutIdempotent(ps: seq<Pair>, name: string)
    ensures Without(Without(ps, name), name) == Without(ps, name)
  {
    if ps != [] {
      WithoutIdempotent(ps[1..], name);
      var head := if ps[0].0 != name then [ps[0]] else [];
      WithoutAppend(head, Without(ps[1..], name), name);
    }
  }

  // ----------------------------------------------------------- round trip

  lemma {:induction false} JoinSnoc(parts: seq<string>, x: string, sep: string)
    requires parts != []
    ensures Join(parts + [x], sep) == Join(parts, sep) + sep + x
  {
    if |parts| > 1 {
      assert (parts + [x])[1..] == parts[1..] + [x];
      JoinSnoc(parts[1..], x, sep);
    }
  }

  /** The `reduce` of `toString` is the `&`-join of the printed pairs. */
  lemma {:induction false} RenderJoin(ps: seq<Pair>)
    ensures Render(ps) == Join(PairStrings(ps), "&")
  {
    if |ps| > 1 {
      var init := ps[..|ps| - 1];
      RenderJoin(init);
      assert PairStrings(ps) == PairStrings(init) + [PairString(ps[|ps| - 1])];
      JoinSnoc(PairStrings(init), PairString(ps[|ps| - 1]), "&");
    }
  }

  /** A name or value that survives printing and re-parsing: no `&` and no `=`. */
  predicate PlainText(s: string)
  {
    '&' !in s && '=' !in s
  }

  lemma NoAmpersand(a: string, b: string)
    requires '&' !in a && '&' !in b
    ensures '&' !in a + "=" + b
  {
    assert forall i :: 0 <= i < |a + "=" + b| ==>
      (a + "=" + b)[i] == if i < |a| then a[i] else if i == |a| then '=' else b[i - |a| - 1];
  }

  /** A printed pair reads back as the same pair. */
  lemma EntryPairOfPairString(name: string, value: string)
    requires PlainText(name) && PlainText(value)
    ensures EntryPair(PairString((name, Text(value)))) == (name, Text(value))
  {
    SplitNoSeparator(value, '=');
    SplitAtFirstSeparator(name, '=', value);
    assert PairString((name, Text(value))) == name + ['='] + value;
  }

  /**
   * The search string a `Uri` prints, `'?' + toString()`, parses back into
   * the same pairs when every value is a string and no name or value holds
   * `&` or `=`.
   */
  lemma SearchRoundTrip(ps: seq<Pair>)
    requires ps != []
    requires forall i :: 0 <= i < |ps| ==> ps[i].1.Text? && PlainText(ps[i].0) && PlainText(ps[i].1.text)
    ensures InitialParams(Some("?" + Render(ps))) == ps
  {
    var text := Render(ps);
    QueryPrefixStripped(text);
    SplitRender(ps);
    EntriesReadBack(ps, text);
  }

  /** Entries that are printed pairs read back as those pairs. */
  lemma EntriesReadBack(ps: seq<Pair>, text: string)
    requires forall i :: 0 <= i < |ps| ==> ps[i].1.Text? && PlainText(ps[i].0) && PlainText(ps[i].1.text)
    requires Split(text, '&') == PairStrings(ps)
    ensures SearchPairs(text) == ps
  {
    var entries := Split(text, '&');
    var r := SearchPairs(text);
    forall i | 0 <= i < |ps|
      ensures r[i] == ps[i]
    {
      assert r[i] == EntryPair(entries[i]);
      EntryPairOfPairString(ps[i].0, ps[i].1.text);
    }
  }

  /** The constructor drops one leading `?`. */
  lemma QueryPrefixStripped(text: string)
    ensures InitialParams(Some("?" + text)) == SearchPairs(text)
  {
    assert ("?" + text)[0] == '?' && ("?" + text)[1..] == text;
  }

  /** Splitting a printed list at `&` gives the printed pairs back. */
  lemma SplitRender(ps: seq<Pair>)
    requires ps != []
    requires forall i :: 0 <= i < |ps| ==> ps[i].1.Text? && PlainText(ps[i].0) && PlainText(ps[i].1.text)
    ensures Split(Render(ps), '&') == PairStrings(ps)
  {
    var strs := PairStrings(ps);
    RenderJoin(ps);
    forall i | 0 <= i < |strs|
      ensures '&' !in strs[i]
    {
      assert strs[i] == ps[i].0 + "=" + ps[i].1.text;
      NoAmpersand(ps[i].0, ps[i].1.text);
    }
    SplitJoin(strs, '&');
  }
}
