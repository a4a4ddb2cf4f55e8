/**
 * The named value coercers of the model parser (`modelParser.to`): `boolean`,
 * `number` and `apiDate`. The fourth, `date`, hands its argument to the host's
 * `Date` constructor and is a parameter of the interpreter instead.
 */
module Coercers {
  import opened Wrappers
  import opened Text
  import opened JsonValues

  /** Why a coercer threw. */
  datatype CoercionFailure =
    | NotAnInteger   // 'Failed converting to integer'
    | NotAnApiDate   // 'Failed converting an API date: ...'
    | NoSlice        // TypeError: a number that passes the digit test has no `slice`
    | NotADate       // 'Failed converting to date'

  /** `to.boolean`: true only for `true`, `'true'` and `'True'`; it never throws. */
  function ToBoolean(v: Json): (r: bool)
    ensures v.Bool? ==> r == v.b
    ensures v.Str? ==> (r <==> v.s == "true" || v.s == "True")
    ensures !v.Bool? && !v.Str? ==> !r
  {
    v == Bool(true) || v == Str("true") || v == Str("True")
  }

  /**
   * `to.number`: a number is returned as it is, `''` becomes `null`, and any
   * other value must satisfy `String(Number(v)) === v`.
   */
  function ToNumber(v: Json): (r: Result<Json, CoercionFailure>)
    ensures r.Ok? ==> r.value.Num? || r.value.Null?
    ensures r.Ok? && r.value.Null? <==> v == Str("")
    ensures v.Num? ==> r == Ok(v)
    ensures !v.Num? && !v.Str? ==> r == Err(NotAnInteger)
  {
    match v
    case Num(_) => Ok(v)
    case Str(s) =>
      if s == "" then Ok(Null)
      else if IsCanonicalInteger(s) then Ok(Num(NumberOf(s).value))
      else Err(NotAnInteger)
    case _ => Err(NotAnInteger)
  }

  /** A string accepted by `to.number` stands for exactly the integer it spells canonically. */
  lemma ToNumberOfString(s: string, n: int)
    ensures ToNumber(Str(s)) == Ok(Num(n)) <==> s == IntToDecimal(n)
  {
    CanonicalIntegerIff(s, n);
  }

  /** `/^\d{8}$|^\d{14}$/`: eight or fourteen ASCII digits. */
  predicate IsApiDateString(s: string)
  {
    (|s| == 8 || |s| == 14) && AllDigits(s)
  }

  function DigitsAt(s: string, from: nat, to: nat): nat
    requires from <= to <= |s| && AllDigits(s)
  {
    DigitsValue(s[from..to])
  }

  /** `new Date(year, ...)` reads a year from 0 to 99 as 1900 to 1999. */
  function FullYear(year: nat): (y: nat)
    ensures year < 100 ==> y == 1900 + year
    ensures 100 <= year ==> y == year
  {
    if year < 100 then 1900 + year else year
  }

  /**
   * `to.apiDate`: the regular expression tests the value's string form, so a
   * number spelling eight or fourteen digits passes it and then throws at
   * `value.slice`. A string of `YYYYMMDD` or `YYYYMMDDhhmmss` is split into
   * its groups, the missing time groups defaulting to zero, the month made
   * zero-based and a two-digit year read as 19xx.
   */
  function ToApiDate(v: Json): (r: Result<Json, CoercionFailure>)
    ensures r.Ok? <==> v.Str? && IsApiDateString(v.s)
    ensures r.Ok? ==> r.value.Date? && -1 <= r.value.month <= 98 && 0 <= r.value.day <= 99
    ensures r.Ok? ==> r.value.year >= 100
    ensures r.Ok? && |v.s| == 8 ==> r.value.hours == r.value.minutes == r.value.seconds == 0
    ensures r.Err? ==> r.error == if v.Num? && IsApiDateString(IntToDecimal(v.n)) then NoSlice else NotAnApiDate
  {
    if v.Str? && IsApiDateString(v.s) then
      var s := v.s;
      var long := |s| == 14;
      Ok(Date(FullYear(DigitsAt(s, 0, 4)), DigitsAt(s, 4, 6) - 1, DigitsAt(s, 6, 8),
              if long then DigitsAt(s, 8, 10) else 0,
              if long then DigitsAt(s, 10, 12) else 0,
              if long then DigitsAt(s, 12, 14) else 0))
    else if v.Num? && IsApiDateString(IntToDecimal(v.n)) then Err(NoSlice)
    else Err(NotAnApiDate)
  }

  /** Examples of `to.number`: a canonical integer, the empty string, and a string that is no number. */
  lemma NumberExamples()
    ensures ToNumber(Str("42")) == Ok(Num(42))
    ensures ToNumber(Str("")) == Ok(Null)
    ensures ToNumber(Str("4a")).Err?
  {
    ToNumberOfString("42", 42);
    assert !AllDigits("4a") by { assert !IsDigit("4a"[1]); }
  }

  /** `to.number` throws on numbers written other than as `String` prints them. */
  lemma NonCanonicalNumbers()
    ensures ToNumber(Str("042")).Err?
    ensures ToNumber(Str("-0")).Err?
  {
    assert "042"[1..] == "42" && "042"[..2] == "04" && "04"[..1] == "0";
    assert DigitsValue("042") == 42;
    assert NumberOf("042") == Some(42);
    assert IntToDecimal(42) == "42";
    assert NumberOf("-0") == Some(0);
  }

  /** Examples of `to.boolean`: only the exact spellings are true. */
  lemma BooleanExamples()
    ensures ToBoolean(Str("True")) && ToBoolean(Bool(true))
    ensures !ToBoolean(Str("0")) && !ToBoolean(Bool(false)) && !ToBoolean(Str("TRUE"))
  {
    assert Str("TRUE") != Str("True");
  }

  /** Examples of `to.apiDate`. */
  lemma ApiDateExamples()
    ensures ToApiDate(Str("20230115")) == Ok(Date(2023, 0, 15, 0, 0, 0))
    ensures ToApiDate(Str("2023011")).Err?
  {
    var d := "20230115";
    assert d[0..4] == "2023";
    assert d[4..6] == "01";
    assert d[6..8] == "15";
    assert "2023"[..3] == "202" && "202"[..2] == "20" && "20"[..1] == "2";
    assert "01"[..1] == "0" && "15"[..1] == "1";
    assert DigitsAt(d, 0, 4) == 2023 && DigitsAt(d, 4, 6) == 1 && DigitsAt(d, 6, 8) == 15;
  }

  /** A two-digit year is read as 19xx. */
  lemma ApiDateTwoDigitYear()
    ensures ToApiDate(Str("00500101")) == Ok(Date(1950, 0, 1, 0, 0, 0))
  {
    var d := "00500101";
    assert d[0..4] == "0050";
    assert d[4..6] == "01";
    assert d[6..8] == "01";
    assert "0050"[..3] == "005" && "005"[..2] == "00" && "00"[..1] == "0";
    assert "01"[..1] == "0";
    assert DigitsAt(d, 0, 4) == 50 && DigitsAt(d, 4, 6) == 1 && DigitsAt(d, 6, 8) == 1;
  }

  /** A number spelling eight digits passes the test and then throws at `slice`. */
  lemma ApiDateOfNumber()
    ensures ToApiDate(Num(20230115)) == Err(NoSlice)
    ensures ToApiDate(Num(2023011)) == Err(NotAnApiDate)
  {
    assert |NatToDecimal(2)| == 1;
    assert |NatToDecimal(20)| == 2;
    assert |NatToDecimal(202)| == 3;
    assert |NatToDecimal(2023)| == 4;
    assert |NatToDecimal(20230)| == 5;
    assert |NatToDecimal(202301)| == 6;
    assert |NatToDecimal(2023011)| == 7;
    assert |NatToDecimal(20230115)| == 8;
  }
}
