/**
 * The query-string and path-segment operations of `Uri`. A `Uri` holds the
 * raw `pathname` its parser found and the `UriSearchParams` built from the
 * parsed search string; the methods below change one or the other.
 */
module Uris {
  import opened Wrappers
  import opened Text
  import opened SearchParams

  /** A value handed to `addQueryParam`: a string, an integer, a boolean, `null` or `undefined`. */
  datatype QueryValue = Undefined | Null | Str(s: string) | Number(n: int) | Flag(b: bool)

  /** `String(value)` for the present values. */
  function Stringify(v: QueryValue): string
    requires !v.Undefined? && !v.Null?
  {
    match v
    case Str(s) => s
    case Number(n) => IntToDecimal(n)
    case Flag(b) => if b then "true" else "false"
  }

  /** The stored value: `''` for `null` or `undefined`, the encoded string otherwise. */
  function EncodedValue(v: QueryValue, encode: string -> string): ParamValue
  {
    if v.Undefined? || v.Null? then Text("") else Text(encode(Stringify(v)))
  }

  /** The pairs `addQueryParams(queryMap)` appends, in key order. */
  function AddedPairs(queryMap: seq<(string, QueryValue)>, encode: string -> string): (r: seq<Pair>)
    ensures |r| == |queryMap|
    ensures forall i :: 0 <= i < |queryMap| ==> r[i] == (queryMap[i].0, EncodedValue(queryMap[i].1, encode))
  {
    seq(|queryMap|, i requires 0 <= i < |queryMap| => (queryMap[i].0, EncodedValue(queryMap[i].1, encode)))
  }

  /** `setQueryParam(key, value)`: every pair of that key removed, then the new one appended. */
  function SetPair(ps: seq<Pair>, key: string, value: QueryValue, encode: string -> string): seq<Pair>
  {
    Without(ps, key) + [(key, EncodedValue(value, encode))]
  }

  /** `setQueryParams(queryMap)`: `setQueryParam` for each key in order. */
  function SetPairs(ps: seq<Pair>, queryMap: seq<(string, QueryValue)>, encode: string -> string): seq<Pair>
    decreases |queryMap|
  {
    if queryMap == [] then ps
    else SetPairs(SetPair(ps, queryMap[0].0, queryMap[0].1, encode), queryMap[1..], encode)
  }

  /** The keys of a query map are distinct, as `Object.keys` gives them. */
  predicate DistinctQueryKeys(queryMap: seq<(string, QueryValue)>)
  {
    forall i, j :: 0 <= i < j < |queryMap| ==> queryMap[i].0 != queryMap[j].0
  }

  /** The `search` of a `Uri`: `''` for no pairs, else `'?'` and the printed pairs. */
  function SearchString(ps: seq<Pair>): (s: string)
    ensures s == "" <==> ps == []
    ensures s != "" ==> s[0] == '?' && s[1..] == Join(PairStrings(ps), "&")
  {
    RenderJoin(ps);
    if ps == [] then "" else "?" + Render(ps)
  }

  // ------------------------------------------------------------- segments

  /** An argument of `addSegments`: one segment, or an array of segments. */
  datatype Segment = One(segment: string) | Many(segments: seq<string>)

  /** `segment.slice(1)` when the segment starts with `/`. */
  function StripSlash(s: string): string
  {
    if |s| > 0 && s[0] == '/' then s[1..] else s
  }

  /** The segments of every argument, in order. */
  function Flatten(args: seq<Segment>): seq<string>
  {
    if args == [] then []
    else (match args[0] case One(s) => [s] case Many(ss) => ss) + Flatten(args[1..])
  }

  /** Each segment, without one leading `/`, behind a `/`. */
  function PartsPath(parts: seq<string>): string
  {
    if parts == [] then "" else "/" + StripSlash(parts[0]) + PartsPath(parts[1..])
  }

  /** The path `addSegments` builds before prefixing the current path. */
  function SegmentsPath(args: seq<Segment>): string
  {
    PartsPath(Flatten(args))
  }

  class Uri {
    /** `parts.pathname` as the URI parser found it; `''` stands for none. */
    var pathname: string
    var searchParams: UriSearchParams

    /** A `Uri` from the parts its parser found: the path and the search string. */
    constructor (pathname: string, search: Option<string>)
      ensures this.pathname == pathname
      ensures fresh(searchParams) && searchParams.params == InitialParams(search)
    {
      this.pathname := pathname;
      searchParams := new UriSearchParams(search);
    }

    /** `get path`: the parsed path, or `/` when there is none. */
    function Path(): (p: string)
      reads this
      ensures p != ""
      ensures pathname != "" ==> p == pathname
    {
      if pathname == "" then "/" else pathname
    }

    /** `get search`. */
    function Search(): string
      reads this, searchParams
    {
      SearchString(searchParams.params)
    }

    /** `getQueryParam(key)`: the first value of that key, or `null`. */
    method GetQueryParam(key: string) returns (v: Option<ParamValue>)
      ensures v == FirstValue(searchParams.params, key)
    {
      v := searchParams.Get(key);
    }

    /** `removeQueryParam(key)`. */
    method RemoveQueryParam(key: string)
      modifies searchParams
      ensures searchParams.params == Without(old(searchParams.params), key)
    {
      searchParams.Delete(key);
    }

    /** `addQueryParam(key, value)`; `encode` stands for `encodeURIComponent`. */
    method AddQueryParam(key: string, value: QueryValue, encode: string -> string)
      modifies searchParams
      ensures searchParams.params == old(searchParams.params) + [(key, EncodedValue(value, encode))]
    {
      var paramVal := if value.Undefined? || value.Null? then "" else encode(Stringify(value));
      searchParams.Append(key, Text(paramVal));
    }

    /** `addQueryParams(queryMap)`: one `addQueryParam` per key, in key order. */
    method AddQueryParams(queryMap: seq<(string, QueryValue)>, encode: string -> string)
      modifies searchParams
      ensures searchParams.params == old(searchParams.params) + AddedPairs(queryMap, encode)
    {
      var i := 0;
      while i < |queryMap|
        invariant 0 <= i <= |queryMap|
        invariant searchParams.params == old(searchParams.params) + AddedPairs(queryMap[..i], encode)
      {
        AddQueryParam(queryMap[i].0, queryMap[i].1, encode);
        assert AddedPairs(queryMap[..i + 1], encode) ==
               AddedPairs(queryMap[..i], encode) + [(queryMap[i].0, EncodedValue(queryMap[i].1, encode))];
        i := i + 1;
      }
      assert queryMap[..i] == queryMap;
    }

    /** `setQueryParam(key, value)`: remove, then add. */
    method SetQueryParam(key: string, value: QueryValue, encode: string -> string)
      modifies searchParams
      ensures searchParams.params == SetPair(old(searchParams.params), key, value, encode)
    {
      RemoveQueryParam(key);
      AddQueryParam(key, value, encode);
    }

    /** `setQueryParams(queryMap)`: one `setQueryParam` per key, in key order. */
    method SetQueryParams(queryMap: seq<(string, QueryValue)>, encode: string -> string)
      modifies searchParams
      ensures searchParams.params == SetPairs(old(searchParams.params), queryMap, encode)
    {
      var i := 0;
      while i < |queryMap|
        invariant 0 <= i <= |queryMap|
        invariant SetPairs(old(searchParams.params), queryMap, encode) ==
                  SetPairs(searchParams.params, queryMap[i..], encode)
      {
        assert queryMap[i..][0] == queryMap[i] && queryMap[i..][1..] == queryMap[i + 1..];
        SetQueryParam(queryMap[i].0, queryMap[i].1, encode);
        i := i + 1;
      }
    }

    /**
     * `addSegments(...segments)`: each segment, without one leading `/`, is
     * appended behind a `/`; a current path of `/` counts as empty.
     */
    method AddSegments(args: seq<Segment>)
      modifies this
      ensures pathname == (if old(Path()) == "/" then "" else old(Path())) + SegmentsPath(args)
      ensures searchParams == old(searchParams)
    {
      var path := BuildSegmentsPath(args);
      var pathName := Path();
      if pathName == "/" {
        pathName := "";
      }
      pathname := pathName + path;
    }
  }

  /** The `path` string `addSegments` builds from its arguments, one segment at a time. */
  method BuildSegmentsPath(args: seq<Segment>) returns (path: string)
    ensures path == SegmentsPath(args)
  {
    path := "";
    var i := 0;
    while i < |args|
      invariant 0 <= i <= |args|
      invariant path == PartsPath(Flatten(args[..i]))
    {
      assert args[..i + 1] == args[..i] + [args[i]];
      FlattenAppend(args[..i], [args[i]]);
      match args[i] {
        case Many(segments) =>
          assert Flatten([args[i]]) == segments;
          PartsPathAppend(Flatten(args[..i]), segments);
          path := AppendArraySegments(path, segments);
        case One(segment) =>
          var s := segment;
          if |s| > 0 && s[0] == '/' {
            s := s[1..];
          }
          assert Flatten([args[i]]) == [segment];
          PartsPathSnoc(Flatten(args[..i]), segment);
          path := path + "/" + s;
      }
      i := i + 1;
    }
    assert args[..i] == args;
  }

  /** The inner `forEach` over an array argument. */
  method AppendArraySegments(path: string, segments: seq<string>) returns (result: string)
    ensures result == path + PartsPath(segments)
  {
    result := path;
    var j := 0;
    while j < |segments|
      invariant 0 <= j <= |segments|
      invariant result == path + PartsPath(segments[..j])
    {
      var arraySegment := segments[j];
      if |arraySegment| > 0 && arraySegment[0] == '/' {
        arraySegment := arraySegment[1..];
      }
      assert segments[..j + 1] == segments[..j] + [segments[j]];
      PartsPathSnoc(segments[..j], segments[j]);
      result := result + "/" + arraySegment;
      j := j + 1;
    }
    assert segments[..j] == segments;
  }

  // ----------------------------------------------------------------- lemmas

  lemma {:induction false} FlattenAppend(a: seq<Segment>, b: seq<Segment>)
    ensures Flatten(a + b) == Flatten(a) + Flatten(b)
  {
    if a == [] {
      assert a + b == b;
    } else {
      assert (a + b)[1..] == a[1..] + b;
      FlattenAppend(a[1..], b);
    }
  }

  lemma {:induction false} PartsPathSnoc(parts: seq<string>, p: string)
    ensures PartsPath(parts + [p]) == PartsPath(parts) + "/" + StripSlash(p)
  {
    if parts != [] {
      assert (parts + [p])[1..] == parts[1..] + [p];
      PartsPathSnoc(parts[1..], p);
    }
  }

  lemma {:induction false} PartsPathAppend(a: seq<string>, b: seq<string>)
    ensures PartsPath(a + b) == PartsPath(a) + PartsPath(b)
  {
    if a == [] {
      assert a + b == b;
    } else {
      assert (a + b)[1..] == a[1..] + b;
      PartsPathAppend(a[1..], b);
    }
  }

  /** The stripped segments, in order. */
  function Stripped(parts: seq<string>): (r: seq<string>)
    ensures |r| == |parts| && forall i :: 0 <= i < |parts| ==> r[i] == StripSlash(parts[i])
  {
    seq(|parts|, i requires 0 <= i < |parts| => StripSlash(parts[i]))
  }

  lemma {:induction false} PartsPathJoin(parts: seq<string>)
    requires parts != []
    ensures PartsPath(parts) == "/" + Join(Stripped(parts), "/")
  {
    if |parts| > 1 {
      PartsPathJoin(parts[1..]);
      assert Stripped(parts)[1..] == Stripped(parts[1..]);
    }
  }

  /**
   * The segments added by `addSegments` are the `/`-separated components of
   * the added path, after an empty one for the leading `/`, as long as no
   * segment holds a `/` past its first character.
   */
  lemma AddedPathComponents(args: seq<Segment>)
    requires Flatten(args) != []
    requires forall i :: 0 <= i < |Flatten(args)| ==> '/' !in StripSlash(Flatten(args)[i])
    ensures Split(SegmentsPath(args), '/') == [""] + Stripped(Flatten(args))
  {
    var parts := Flatten(args);
    var st := Stripped(parts);
    PartsPathJoin(parts);
    assert Join([""] + st, "/") == "" + "/" + Join(st, "/") by {
      assert ([""] + st)[1..] == st;
    }
    forall i | 0 <= i < |[""] + st|
      ensures '/' !in ([""] + st)[i]
    {
      if i > 0 {
        assert ([""] + st)[i] == st[i - 1];
      }
    }
    SplitJoin([""] + st, '/');
  }

  /**
   * `addQueryParam` keeps every earlier pair and adds the key's value last:
   * the values of the key gain the new one at the end, other keys keep theirs.
   */
  lemma AddQueryParamAppends(ps: seq<Pair>, key: string, value: QueryValue, encode: string -> string, other: string)
    ensures ValuesOf(ps + [(key, EncodedValue(value, encode))], key) == ValuesOf(ps, key) + [EncodedValue(value, encode)]
    ensures other != key ==> ValuesOf(ps + [(key, EncodedValue(value, encode))], other) == ValuesOf(ps, other)
    ensures (value.Undefined? || value.Null?) ==> EncodedValue(value, encode) == Text("")
  {
    AppendAddsLastValue(ps, key, EncodedValue(value, encode), other);
  }

  /**
   * `setQueryParam` leaves exactly one pair of the key, holding the new value,
   * as the last pair; every other key keeps its values. Unlike
   * `UriSearchParams.set`, the pair moves to the end and is added when absent.
   */
  lemma SetQueryParamReplaces(ps: seq<Pair>, key: string, value: QueryValue, encode: string -> string, other: string)
    ensures var r := SetPair(ps, key, value, encode);
            && ValuesOf(r, key) == [EncodedValue(value, encode)]
            && r[|r| - 1] == (key, EncodedValue(value, encode))
            && (other != key ==> ValuesOf(r, other) == ValuesOf(ps, other))
  {
    var w := Without(ps, key);
    DeleteRemovesOnlyName(ps, key, other);
    NoNameValues(w, key);
    AppendAddsLastValue(w, key, EncodedValue(value, encode), other);
  }

  /**
   * `setQueryParams` with distinct keys: each key of the map ends with
   * exactly its new value, and every key outside the map keeps its values.
   */
  lemma {:induction false} SetQueryParamsReplaces(ps: seq<Pair>, queryMap: seq<(string, QueryValue)>, encode: string -> string)
    requires DistinctQueryKeys(queryMap)
    decreases |queryMap|
    ensures forall i :: 0 <= i < |queryMap| ==>
              ValuesOf(SetPairs(ps, queryMap, encode), queryMap[i].0) == [EncodedValue(queryMap[i].1, encode)]
    ensures forall other :: (forall i :: 0 <= i < |queryMap| ==> queryMap[i].0 != other) ==>
              ValuesOf(SetPairs(ps, queryMap, encode), other) == ValuesOf(ps, other)
  {
    if queryMap != [] {
      var key, value := queryMap[0].0, queryMap[0].1;
      var next := SetPair(ps, key, value, encode);
      var rest := queryMap[1..];
      assert DistinctQueryKeys(rest) by {
        forall i, j | 0 <= i < j < |rest| ensures rest[i].0 != rest[j].0 {
          assert rest[i] == queryMap[i + 1] && rest[j] == queryMap[j + 1];
        }
      }
      SetQueryParamsReplaces(next, rest, encode);
      var r := SetPairs(ps, queryMap, encode);
      assert r == SetPairs(next, rest, encode);
      forall i | 0 <= i < |queryMap|
        ensures ValuesOf(r, queryMap[i].0) == [EncodedValue(queryMap[i].1, encode)]
      {
        if i == 0 {
          SetQueryParamReplaces(ps, key, value, encode, key);
          forall j | 0 <= j < |rest| ensures rest[j].0 != key {
            assert rest[j] == queryMap[j + 1];
          }
        } else {
          assert queryMap[i] == rest[i - 1];
        }
      }
      forall other | (forall i :: 0 <= i < |queryMap| ==> queryMap[i].0 != other)
        ensures ValuesOf(r, other) == ValuesOf(ps, other)
      {
        assert queryMap[0].0 != other;
        forall j | 0 <= j < |rest| ensures rest[j].0 != other {
          assert rest[j] == queryMap[j + 1];
        }
        SetQueryParamReplaces(ps, key, value, encode, other);
      }
    }
  }

  /**
   * The `search` of a `Uri` parses back into its pairs, for string values
   * and names and values without `&` or `=`.
   */
  lemma SearchStringRoundTrip(ps: seq<Pair>)
    requires forall i :: 0 <= i < |ps| ==> ps[i].1.Text? && PlainText(ps[i].0) && PlainText(ps[i].1.text)
    ensures InitialParams(Some(SearchString(ps))) == ps
  {
    if ps != [] {
      SearchRoundTrip(ps);
    }
  }
}
