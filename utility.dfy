/**
 * The string helpers of `utility`: HTML escaping, escaping of the search
 * syntax's special characters, and the API's compact date format.
 */
module Utility {
  import opened Wrappers
  import opened Text
  import opened JsonValues
  import opened Coercers

  predicate StartsWith(s: string, prefix: string)
  {
    |prefix| <= |s| && s[..|prefix|] == prefix
  }

  // ------------------------------------------------------------- escapeHTML

  /** The entity name `escapeHTML` uses for each of its five characters. */
  function HtmlEntity(c: char): Option<string>
  {
    if c == '<' then Some("lt")
    else if c == '>' then Some("gt")
    else if c == '"' then Some("quot")
    else if c == '&' then Some("amp")
    else if c == '\'' then Some("#39")
    else None
  }

  /** One character as `escapeHTML` writes it. */
  function EscapeHtmlChar(c: char): (r: string)
    ensures 1 <= |r|
    ensures forall i :: 0 <= i < |r| ==> r[i] != '<' && r[i] != '>' && r[i] != '"' && r[i] != '\''
    ensures r == [c] <==> HtmlEntity(c).None?
  {
    match HtmlEntity(c)
    case Some(name) => "&" + name + ";"
    case None => [c]
  }

  /** `utility.escapeHTML(unescaped)`: one global replacement over the five characters. */
  function EscapeHtml(unescaped: string): (r: string)
    ensures forall i :: 0 <= i < |r| ==> r[i] != '<' && r[i] != '>' && r[i] != '"' && r[i] != '\''
    ensures |r| >= |unescaped|
  {
    if unescaped == [] then [] else EscapeHtmlChar(unescaped[0]) + EscapeHtml(unescaped[1..])
  }

  /** Decoding of the five entities `escapeHTML` writes, leaving everything else as it is. */
  function UnescapeHtml(s: string): string
    decreases |s|
  {
    if s == [] then []
    else if StartsWith(s, "&lt;") then "<" + UnescapeHtml(s[4..])
    else if StartsWith(s, "&gt;") then ">" + UnescapeHtml(s[4..])
    else if StartsWith(s, "&quot;") then "\"" + UnescapeHtml(s[6..])
    else if StartsWith(s, "&amp;") then "&" + UnescapeHtml(s[5..])
    else if StartsWith(s, "&#39;") then "'" + UnescapeHtml(s[5..])
    else [s[0]] + UnescapeHtml(s[1..])
  }

  lemma UnescapeHtmlStep(c: char, rest: string)
    ensures UnescapeHtml(EscapeHtmlChar(c) + rest) == [c] + UnescapeHtml(rest)
  {
    if c == '<' {
      assert EscapeHtmlChar(c) == "&lt;";
      UnescapeEntity("&lt;", rest);
    } else if c == '>' {
      assert EscapeHtmlChar(c) == "&gt;";
      UnescapeEntity("&gt;", rest);
    } else if c == '"' {
      assert EscapeHtmlChar(c) == "&quot;";
      UnescapeEntity("&quot;", rest);
    } else if c == '&' {
      assert EscapeHtmlChar(c) == "&amp;";
      UnescapeEntity("&amp;", rest);
    } else if c == '\'' {
      assert EscapeHtmlChar(c) == "&#39;";
      UnescapeEntity("&#39;", rest);
    } else {
      var s := [c] + rest;
      assert s[0] == c && s[1..] == rest;
      assert forall p :: StartsWith(s, p) && |p| > 0 ==> s[0] == p[0];
    }
  }

  /** Decoding one entity at the front. */
  lemma UnescapeEntity(e: string, rest: string)
    requires e in {"&lt;", "&gt;", "&quot;", "&amp;", "&#39;"}
    ensures UnescapeHtml(e + rest) ==
              [if e == "&lt;" then '<' else if e == "&gt;" then '>' else if e == "&quot;" then '"'
               else if e == "&amp;" then '&' else '\''] + UnescapeHtml(rest)
  {
    var s := e + rest;
    assert s[..|e|] == e && s[|e|..] == rest;
    assert s[1] == e[1] && s[2] == e[2];
    assert forall p :: StartsWith(s, p) && |p| > 2 ==> s[1] == p[1] && s[2] == p[2];
  }

  /** Escaping loses nothing: decoding the five entities gives the input back. */
  lemma {:induction false} EscapeHtmlRoundTrip(s: string)
    ensures UnescapeHtml(EscapeHtml(s)) == s
  {
    if s != [] {
      EscapeHtmlRoundTrip(s[1..]);
      UnescapeHtmlStep(s[0], EscapeHtml(s[1..]));
      assert [s[0]] + s[1..] == s;
    }
  }

  // ----------------------------------------------------------- searchEscape

  /** The characters `searchEscape` puts a backslash before, in the order it treats them. */
  const SearchSpecials: seq<char> :=
    ['\\', '+', '-', '&', '|', '!', '(', ')', '{', '}', '[', ']', '^', '"', '~', '*', '?', ':']

  /** `s.replace(new RegExp('\\' + c, 'g'), replacement)`: every `c`, in one pass. */
  function ReplaceAll(s: string, c: char, replacement: string): string
  {
    if s == [] then [] else (if s[0] == c then replacement else [s[0]]) + ReplaceAll(s[1..], c, replacement)
  }

  /** Each character of `s` that is in `cs`, behind a backslash. */
  function EscapeWith(s: string, cs: seq<char>): string
  {
    if s == [] then [] else (if s[0] in cs then ['\\', s[0]] else [s[0]]) + EscapeWith(s[1..], cs)
  }

  /** `utility.searchEscape(query)`: one global replacement per special character, in order. */
  method SearchEscape(query: string) returns (result: string)
    ensures result == EscapeWith(query, SearchSpecials)
  {
    result := query;
    EscapeWithNothing(query);
    SearchSpecialsDistinct();
    var k := 0;
    while k < |SearchSpecials|
      invariant 0 <= k <= |SearchSpecials|
      invariant result == EscapeWith(query, SearchSpecials[..k])
    {
      var c := SearchSpecials[k];
      assert c !in SearchSpecials[..k];
      assert c == '\\' ==> k == 0;
      ReplaceAfterEscapes(query, SearchSpecials[..k], c);
      result := ReplaceAll(result, c, ['\\', c]);
      assert SearchSpecials[..k + 1] == SearchSpecials[..k] + [c];
      k := k + 1;
    }
    assert SearchSpecials[..k] == SearchSpecials;
  }

  lemma SearchSpecialsDistinct()
    ensures forall i, j :: 0 <= i < j < |SearchSpecials| ==> SearchSpecials[i] != SearchSpecials[j]
  {
  }

  lemma {:induction false} EscapeWithNothing(s: string)
    ensures EscapeWith(s, []) == s
  {
    if s != [] {
      EscapeWithNothing(s[1..]);
      assert [s[0]] + s[1..] == s;
    }
  }

  lemma {:induction false} ReplaceAllAppend(a: string, b: string, c: char, r: string)
    ensures ReplaceAll(a + b, c, r) == ReplaceAll(a, c, r) + ReplaceAll(b, c, r)
  {
    if a == [] {
      assert a + b == b;
    } else {
      assert (a + b)[1..] == a[1..] + b;
      ReplaceAllAppend(a[1..], b, c, r);
    }
  }

  /**
   * One more replacement, for a character not escaped yet, escapes it too;
   * the backslashes already written are left alone as long as the backslash
   * itself was the first character treated.
   */
  lemma {:induction false} ReplaceAfterEscapes(s: string, cs: seq<char>, c: char)
    requires c !in cs
    requires c == '\\' ==> cs == []
    ensures ReplaceAll(EscapeWith(s, cs), c, ['\\', c]) == EscapeWith(s, cs + [c])
  {
    if s != [] {
      var head := if s[0] in cs then ['\\', s[0]] else [s[0]];
      ReplaceAllAppend(head, EscapeWith(s[1..], cs), c, ['\\', c]);
      ReplaceAfterEscapes(s[1..], cs, c);
      ReplaceOneEscape(s[0], cs, c);
    }
  }

  /** `ReplaceAfterEscapes` for one character. */
  lemma ReplaceOneEscape(x: char, cs: seq<char>, c: char)
    requires c !in cs
    requires c == '\\' ==> cs == []
    ensures var head := if x in cs then ['\\', x] else [x];
            ReplaceAll(head, c, ['\\', c]) == if x in cs + [c] then ['\\', x] else [x]
  {
    assert x in cs + [c] <==> x in cs || x == c;
    if x in cs {
      assert x != c && c != '\\';
      assert ['\\', x][1..] == [x];
      assert [x][1..] == [];
      assert ReplaceAll([x], c, ['\\', c]) == [x];
    } else {
      assert [x][1..] == [];
    }
  }

  /** Reading an escaped string back: a backslash takes the next character literally. */
  function UnescapeSearch(s: string): string
    decreases |s|
  {
    if s == [] then []
    else if s[0] == '\\' && |s| >= 2 then [s[1]] + UnescapeSearch(s[2..])
    else [s[0]] + UnescapeSearch(s[1..])
  }

  /**
   * `searchEscape` loses nothing. This needs the backslash among the escaped
   * characters: a raw backslash left as it is would swallow its successor.
   */
  lemma {:induction false} SearchEscapeRoundTrip(s: string, cs: seq<char>)
    requires '\\' in cs
    ensures UnescapeSearch(EscapeWith(s, cs)) == s
  {
    if s != [] {
      SearchEscapeRoundTrip(s[1..], cs);
      var e := EscapeWith(s, cs);
      if s[0] in cs {
        assert e[2..] == EscapeWith(s[1..], cs);
      } else {
        assert e[1..] == EscapeWith(s[1..], cs);
      }
      assert [s[0]] + s[1..] == s;
    }
  }

  /** Every character of `e` in `cs`, other than the backslash, has a backslash before it. */
  predicate Guarded(e: string, cs: seq<char>)
  {
    forall i :: 0 <= i < |e| && e[i] in cs && e[i] != '\\' ==> 0 < i && e[i - 1] == '\\'
  }

  /** Every special character of the output has a backslash before it. */
  lemma {:induction false} SearchEscapeGuardsSpecials(s: string, cs: seq<char>)
    ensures Guarded(EscapeWith(s, cs), cs)
  {
    if s != [] {
      SearchEscapeGuardsSpecials(s[1..], cs);
      var head := if s[0] in cs then ['\\', s[0]] else [s[0]];
      var e := EscapeWith(s, cs);
      var tail := EscapeWith(s[1..], cs);
      assert e == head + tail;
      forall i | 0 <= i < |e| && e[i] in cs && e[i] != '\\'
        ensures 0 < i && e[i - 1] == '\\'
      {
        if i < |head| {
          assert e[i] == head[i];
          if s[0] in cs {
            assert i == 1 && e[0] == '\\';
          }
        } else {
          assert e[i] == tail[i - |head|];
          var j := i - |head|;
          assert tail[j] in cs && tail[j] != '\\';
          assert 0 < j && tail[j - 1] == '\\';
          if i - |head| > 0 {
            assert e[i - 1] == tail[i - |head| - 1];
          }
        }
      }
    }
  }

  // ------------------------------------------------------- getApiDateString

  /** `` `0${n}`.slice(-2) ``: the last two characters of `'0'` and the decimal. */
  function Pad2(n: int): (s: string)
    ensures |s| == 2
    ensures 0 <= n ==> AllDigits(s)
  {
    var t := "0" + IntToDecimal(n);
    if 0 <= n then
      ZeroPrefixedDigits(n);
      t[|t| - 2..]
    else t[|t| - 2..]
  }

  lemma ZeroPrefixedDigits(n: nat)
    ensures AllDigits("0" + IntToDecimal(n))
  {
    var t := "0" + IntToDecimal(n);
    forall i | 1 <= i < |t| ensures IsDigit(t[i]) {
      assert t[i] == NatToDecimal(n)[i - 1];
    }
  }

  /** A number below 100 reads back from its two characters. */
  lemma Pad2Value(n: int)
    requires 0 <= n < 100
    ensures AllDigits(Pad2(n)) && DigitsValue(Pad2(n)) == n
  {
    DigitsValueOfDecimal(n);
    if n >= 10 {
      assert NatToDecimal(n) == NatToDecimal(n / 10) + [DigitChar(n % 10)];
    }
  }

  /**
   * `utility.getApiDateString(date)` for the components of a date (month
   * zero-based): the year in decimal, then month + 1, day, hours, minutes
   * and seconds as two characters each.
   */
  function GetApiDateString(date: Json): (s: string)
    requires date.Date?
    ensures |s| == |IntToDecimal(date.year)| + 10
    ensures s[..|s| - 10] == IntToDecimal(date.year)
    ensures date.month >= -1 && date.day >= 0 && date.hours >= 0 && date.minutes >= 0 && date.seconds >= 0
            ==> AllDigits(s[|s| - 10..])
  {
    var year, tail := IntToDecimal(date.year), TimeText(date);
    assert (year + tail)[..|year|] == year && (year + tail)[|year|..] == tail;
    year + tail
  }

  /** The ten characters after the year: month + 1, day, hours, minutes, seconds. */
  function TimeText(date: Json): (t: string)
    requires date.Date?
    ensures |t| == 10
    ensures date.month >= -1 && date.day >= 0 && date.hours >= 0 && date.minutes >= 0 && date.seconds >= 0
            ==> AllDigits(t)
  {
    var mo, d, h, mi, se := Pad2(date.month + 1), Pad2(date.day), Pad2(date.hours),
      Pad2(date.minutes), Pad2(date.seconds);
    if date.month >= -1 && date.day >= 0 && date.hours >= 0 && date.minutes >= 0 && date.seconds >= 0 then
      AllDigitsConcat(mo, d);
      AllDigitsConcat(mo + d, h);
      AllDigitsConcat(mo + d + h, mi);
      AllDigitsConcat(mo + d + h + mi, se);
      mo + d + h + mi + se
    else mo + d + h + mi + se
  }

  /** A four-digit year prints in four characters. */
  lemma YearDigits(year: int)
    requires 1000 <= year <= 9999
    ensures |IntToDecimal(year)| == 4 && AllDigits(IntToDecimal(year))
  {
    assert NatToDecimal(year) == NatToDecimal(year / 10) + [DigitChar(year % 10)];
    assert NatToDecimal(year / 10) == NatToDecimal(year / 100) + [DigitChar(year / 10 % 10)];
    assert NatToDecimal(year / 100) == NatToDecimal(year / 1000) + [DigitChar(year / 100 % 10)];
  }

  lemma AllDigitsConcat(a: string, b: string)
    requires AllDigits(a) && AllDigits(b)
    ensures AllDigits(a + b)
  {
    forall i | 0 <= i < |a + b| ensures IsDigit((a + b)[i]) {
      if i >= |a| { assert (a + b)[i] == b[i - |a|]; }
    }
  }

  /** The groups of the printed date, for a four-digit year. */
  lemma ApiDateStringGroups(date: Json)
    requires date.Date? && 1000 <= date.year <= 9999
    requires 0 <= date.month + 1 < 100 && 0 <= date.day < 100
    requires 0 <= date.hours < 100 && 0 <= date.minutes < 100 && 0 <= date.seconds < 100
    ensures var s := GetApiDateString(date);
            && IsApiDateString(s) && |s| == 14
            && s[0..4] == IntToDecimal(date.year)
            && s[4..6] == Pad2(date.month + 1) && s[6..8] == Pad2(date.day)
            && s[8..10] == Pad2(date.hours) && s[10..12] == Pad2(date.minutes) && s[12..14] == Pad2(date.seconds)
  {
    YearDigits(date.year);
    Pad2Value(date.month + 1);
    Pad2Value(date.day);
    Pad2Value(date.hours);
    Pad2Value(date.minutes);
    Pad2Value(date.seconds);
    var y, mo, d, h, mi, se := IntToDecimal(date.year), Pad2(date.month + 1), Pad2(date.day),
      Pad2(date.hours), Pad2(date.minutes), Pad2(date.seconds);
    assert GetApiDateString(date) == y + mo + d + h + mi + se by {
      assert TimeText(date) == mo + d + h + mi + se;
      Associate(y, mo, d, h, mi, se);
    }
    DateGroups(y, mo, d, h, mi, se);
  }

  lemma Associate(y: string, mo: string, d: string, h: string, mi: string, se: string)
    ensures y + (mo + d + h + mi + se) == y + mo + d + h + mi + se
  {
  }

  /** Six digit groups of widths 4, 2, 2, 2, 2, 2 laid end to end. */
  lemma DateGroups(y: string, mo: string, d: string, h: string, mi: string, se: string)
    requires |y| == 4 && |mo| == 2 && |d| == 2 && |h| == 2 && |mi| == 2 && |se| == 2
    requires AllDigits(y) && AllDigits(mo) && AllDigits(d) && AllDigits(h) && AllDigits(mi) && AllDigits(se)
    ensures var s := y + mo + d + h + mi + se;
            && IsApiDateString(s) && |s| == 14
            && s[0..4] == y && s[4..6] == mo && s[6..8] == d
            && s[8..10] == h && s[10..12] == mi && s[12..14] == se
  {
    AllDigitsConcat(y, mo);
    AllDigitsConcat(y + mo, d);
    AllDigitsConcat(y + mo + d, h);
    AllDigitsConcat(y + mo + d + h, mi);
    AllDigitsConcat(y + mo + d + h + mi, se);
  }

  /**
   * `to.apiDate(getApiDateString(d))` gives back the same components for a
   * four-digit year and components that print in two digits, which every
   * real date meets.
   */
  lemma ApiDateRoundTrip(date: Json)
    requires date.Date? && 1000 <= date.year <= 9999
    requires 0 <= date.month + 1 < 100 && 0 <= date.day < 100
    requires 0 <= date.hours < 100 && 0 <= date.minutes < 100 && 0 <= date.seconds < 100
    ensures ToApiDate(Str(GetApiDateString(date))) == Ok(date)
  {
    var s := GetApiDateString(date);
    ApiDateStringGroups(date);
    assert DigitsAt(s, 0, 4) == date.year by { DigitsValueOfDecimal(date.year); }
    assert DigitsAt(s, 4, 6) == date.month + 1 by { Pad2Value(date.month + 1); }
    assert DigitsAt(s, 6, 8) == date.day by { Pad2Value(date.day); }
    assert DigitsAt(s, 8, 10) == date.hours by { Pad2Value(date.hours); }
    assert DigitsAt(s, 10, 12) == date.minutes by { Pad2Value(date.minutes); }
    assert DigitsAt(s, 12, 14) == date.seconds by { Pad2Value(date.seconds); }
  }
}
