/** The pieces of JavaScript's built-in behaviour the menus and helpers rely on:
    `parseInt` (ECMA-262 section 19.2.5), `Number` applied to a string
    (ECMA-262 section 7.1.4.1.1), `String.prototype.split` with a one-character
    separator, number-to-string for integers, and the `Date(y, m, d)`
    constructor built on MakeDay (ECMA-262 section 21.4.1). Numbers here are
    integers; NaN and undefined are `None`. */
module JsSemantics {
  import opened Wrappers

  // ---------------------------------------------------------------- digits

  predicate IsDigit(c: char) { '0' <= c <= '9' }

  predicate AllDigits(s: string) { forall i :: 0 <= i < |s| ==> IsDigit(s[i]) }

  function DigitValue(c: char): nat
    requires IsDigit(c)
  {
    c as int - '0' as int
  }

  function DigitChar(d: nat): (c: char)
    requires d < 10
    ensures IsDigit(c) && DigitValue(c) == d
  {
    ('0' as int + d) as char
  }

  /** Value of a digit in radix 10 or 16 (`None` when `c` is not one). */
  function RadixDigit(c: char, radix: nat): Option<nat>
  {
    if IsDigit(c) then Some(DigitValue(c))
    else if radix == 16 && 'a' <= c <= 'f' then Some(c as int - 'a' as int + 10)
    else if radix == 16 && 'A' <= c <= 'F' then Some(c as int - 'A' as int + 10)
    else None
  }

  predicate AllRadixDigits(s: string, radix: nat)
  {
    forall i :: 0 <= i < |s| ==> RadixDigit(s[i], radix).Some?
  }

  /** The number written by a string of radix digits, most significant first. */
  function DigitsValue(s: string, radix: nat): nat
    requires AllRadixDigits(s, radix)
  {
    if s == [] then 0
    else radix * DigitsValue(s[..|s| - 1], radix) + RadixDigit(s[|s| - 1], radix).value
  }

  function DecimalValue(s: string): nat
    requires AllDigits(s)
  {
    DigitsValue(s, 10)
  }

  /** The longest prefix of `s` made of radix digits. */
  function DigitPrefix(s: string, radix: nat): (z: string)
    ensures |z| <= |s| && z == s[..|z|]
    ensures AllRadixDigits(z, radix)
    ensures |z| == |s| || RadixDigit(s[|z|], radix).None?
  {
    if s != [] && RadixDigit(s[0], radix).Some? then [s[0]] + DigitPrefix(s[1..], radix) else []
  }

  /** Decimal rendering of a natural number, without leading zeros; its contract
      is the round trip back through `DecimalValue`. */
  function NatToDecimal(n: nat): (s: string)
    ensures s != [] && AllDigits(s)
    ensures DecimalValue(s) == n
    ensures |s| == 1 || s[0] != '0'
  {
    if n < 10 then
      var s := [DigitChar(n)];
      assert s[..|s| - 1] == [];
      assert DigitsValue(s, 10) == 10 * DigitsValue([], 10) + RadixDigit(s[0], 10).value;
      s
    else
      var init := NatToDecimal(n / 10);
      var s := init + [DigitChar(n % 10)];
      assert s[..|s| - 1] == init;
      s
  }

  /** `${n}` for an integer-valued number: a '-' exactly for a negative
      number, then the decimal digits of its magnitude. */
  function IntToDecimal(i: int): (s: string)
    ensures s != [] && (s[0] == '-' <==> i < 0)
    ensures i >= 0 ==> AllDigits(s) && DecimalValue(s) == i
    ensures i < 0 ==> |s| >= 2 && AllDigits(s[1..]) && DecimalValue(s[1..]) == -i
  {
    if i < 0 then "-" + NatToDecimal(-i) else NatToDecimal(i)
  }

  // ------------------------------------------------------------ whitespace

  /** WhiteSpace and LineTerminator code points (ECMA-262 sections 12.2, 12.3). */
  predicate IsWhiteSpace(c: char)
  {
    c == '\t' || c == '\n' || c == '\r' || c == '\U{000B}' || c == '\U{000C}' || c == ' '
    || c == '\U{00A0}' || c == '\U{1680}' || ('\U{2000}' <= c <= '\U{200A}')
    || c == '\U{2028}' || c == '\U{2029}' || c == '\U{202F}' || c == '\U{205F}'
    || c == '\U{3000}' || c == '\U{FEFF}'
  }

  function TrimStart(s: string): (r: string)
    ensures |r| <= |s| && r == s[|s| - |r|..]
    ensures r == [] || !IsWhiteSpace(r[0])
    ensures s != [] && !IsWhiteSpace(s[0]) ==> r == s
  {
    if s != [] && IsWhiteSpace(s[0]) then TrimStart(s[1..]) else s
  }

  function TrimEnd(s: string): (r: string)
    ensures |r| <= |s| && r == s[..|r|]
    ensures r == [] || !IsWhiteSpace(r[|r| - 1])
    ensures s != [] && !IsWhiteSpace(s[|s| - 1]) ==> r == s
  {
    if s != [] && IsWhiteSpace(s[|s| - 1]) then TrimEnd(s[..|s| - 1]) else s
  }

  // -------------------------------------------------------------- parseInt

  /** The digits of parseInt after white space and sign: a `0x`/`0X` prefix
      selects radix 16, and the longest run of digits that follows is read;
      no digit at all gives NaN. */
  function ParseUnsigned(u: string): (r: Option<nat>)
    ensures r.Some? ==> u != [] && IsDigit(u[0])
  {
    var hex := |u| >= 2 && u[0] == '0' && (u[1] == 'x' || u[1] == 'X');
    var radix := if hex then 16 else 10;
    var z := DigitPrefix(if hex then u[2..] else u, radix);
    if z == [] then None else Some(DigitsValue(z, radix))
  }

  /** `parseInt(s)` with the radix argument absent: leading white space is
      skipped, then one sign is read, then the digits. A number is read only
      when a digit follows the white space and the sign, and it is negative
      only after a '-'. */
  function ParseInt(s: string): (r: Option<int>)
    ensures r.Some? ==>
              var t := TrimStart(s);
              t != [] && (IsDigit(t[0]) || (|t| >= 2 && (t[0] == '-' || t[0] == '+') && IsDigit(t[1])))
    ensures r.Some? && r.value < 0 ==> TrimStart(s)[0] == '-'
  {
    var t := TrimStart(s);
    var negative := t != [] && t[0] == '-';
    var u := if t != [] && (t[0] == '-' || t[0] == '+') then t[1..] else t;
    match ParseUnsigned(u)
    case None => None
    case Some(m) => Some(if negative then -(m as int) else m)
  }

  lemma {:induction false} DigitPrefixOfDigits(d: string, rest: string)
    requires AllDigits(d)
    requires rest == [] || RadixDigit(rest[0], 10).None?
    ensures DigitPrefix(d + rest, 10) == d
  {
    if d != [] {
      assert (d + rest)[1..] == d[1..] + rest;
      DigitPrefixOfDigits(d[1..], rest);
    } else {
      assert d + rest == rest;
    }
  }

  lemma ParseUnsignedReadsDigitPrefix(d: string, rest: string)
    requires d != [] && AllDigits(d)
    requires rest == [] || (!IsDigit(rest[0]) && (d == "0" ==> rest[0] != 'x' && rest[0] != 'X'))
    ensures ParseUnsigned(d + rest) == Some(DecimalValue(d))
  {
    var s := d + rest;
    assert !(|s| >= 2 && s[0] == '0' && (s[1] == 'x' || s[1] == 'X')) by {
      if |s| >= 2 && s[0] == '0' {
        if |d| >= 2 { assert s[1] == d[1]; } else { assert d == "0" && s[1] == rest[0]; }
      }
    }
    DigitPrefixOfDigits(d, rest);
  }

  /** parseInt reads a leading run of decimal digits and ignores what follows
      it, unless the run is a lone 0 followed by the `x` of a hexadecimal
      prefix. */
  lemma ParseIntReadsDigitPrefix(d: string, rest: string)
    requires d != [] && AllDigits(d)
    requires rest == [] || (!IsDigit(rest[0]) && (d == "0" ==> rest[0] != 'x' && rest[0] != 'X'))
    ensures ParseInt(d + rest) == Some(DecimalValue(d))
  {
    var s := d + rest;
    assert s[0] == d[0];
    assert TrimStart(s) == s;
    ParseUnsignedReadsDigitPrefix(d, rest);
  }

  lemma ParseIntOfDigits(d: string)
    requires d != [] && AllDigits(d)
    ensures ParseInt(d) == Some(DecimalValue(d))
  {
    ParseIntReadsDigitPrefix(d, []);
    assert d + [] == d;
  }

  /** A string without any decimal digit is NaN to parseInt. */
  lemma ParseIntWithoutDigits(s: string)
    requires forall i :: 0 <= i < |s| ==> !IsDigit(s[i])
    ensures ParseInt(s) == None
  {
    var t := TrimStart(s);
    assert forall i :: 0 <= i < |t| ==> t[i] == s[|s| - |t| + i];
    var u := if t != [] && (t[0] == '-' || t[0] == '+') then t[1..] else t;
    assert u == [] || !IsDigit(u[0]);
    ParseUnsignedWithoutLeadingDigit(u);
  }

  /** Without a leading digit there is no number to read. */
  lemma ParseUnsignedWithoutLeadingDigit(u: string)
    requires u == [] || !IsDigit(u[0])
    ensures ParseUnsigned(u) == None
  {
    assert !(|u| >= 2 && u[0] == '0');
    assert DigitPrefix(u, 10) == [];
  }

  /** parseInt inverts the decimal rendering of every integer. */
  lemma ParseIntRoundTrip(i: int)
    ensures ParseInt(IntToDecimal(i)) == Some(i)
  {
    var s := IntToDecimal(i);
    if i < 0 {
      var d := s[1..];
      assert s[0] == '-' && !IsWhiteSpace(s[0]);
      assert TrimStart(s) == s;
      ParseUnsignedReadsDigitPrefix(d, []);
      assert d + [] == d;
    } else {
      ParseIntOfDigits(s);
    }
  }

  // ------------------------------------------------------- Number(string)

  function Trim(s: string): string { TrimEnd(TrimStart(s)) }

  /** `Number(s)` for the forms a date part takes: surrounding white space is
      ignored, the empty string is 0, and an optionally signed run of decimal
      digits is its value. Every other string is NaN here. */
  function StringToNumber(s: string): (r: Option<int>)
    ensures s == [] ==> r == Some(0)
    ensures AllDigits(s) && s != [] ==> r == Some(DecimalValue(s))
  {
    var t := Trim(s);
    assert AllDigits(s) && s != [] ==> t == s by {
      if AllDigits(s) && s != [] {
        TrimDigits(s);
      }
    }
    if t == [] then Some(0)
    else if AllDigits(t) then Some(DecimalValue(t))
    else if |t| >= 2 && (t[0] == '+' || t[0] == '-') && AllDigits(t[1..]) then
      var m: int := DecimalValue(t[1..]);
      Some(if t[0] == '-' then -m else m)
    else None
  }

  /** A minus sign before decimal digits negates their value. */
  lemma NegativeNumber(s: string)
    requires |s| >= 2 && s[0] == '-' && AllDigits(s[1..])
    ensures StringToNumber(s) == Some(-(DecimalValue(s[1..]) as int))
  {
    assert s[|s| - 1] == s[1..][|s| - 2];
    assert TrimStart(s) == s;
    assert Trim(s) == s;
  }

  /** A character that is neither a digit, white space nor a sign makes the
      string NaN, wherever it stands. */
  lemma StrayCharIsNaN(s: string, k: int)
    requires 0 <= k < |s|
    requires !IsDigit(s[k]) && !IsWhiteSpace(s[k]) && s[k] != '+' && s[k] != '-'
    ensures StringToNumber(s).None?
  {
    var u := TrimStart(s);
    var t := TrimEnd(u);
    TrimStartDropsWhiteSpace(s);
    TrimEndDropsWhiteSpace(u);
    var off := |s| - |u|;
    assert k >= off;
    assert u[k - off] == s[k];
    assert k - off < |t|;
    var j := k - off;
    assert t[j] == s[k];
    if j > 0 {
      assert t[1..][j - 1] == s[k];
    }
  }

  /** What TrimStart drops is white space. */
  lemma {:induction false} TrimStartDropsWhiteSpace(s: string)
    ensures forall i :: 0 <= i < |s| - |TrimStart(s)| ==> IsWhiteSpace(s[i])
  {
    if s != [] && IsWhiteSpace(s[0]) {
      TrimStartDropsWhiteSpace(s[1..]);
      forall i | 1 <= i < |s| - |TrimStart(s)|
        ensures IsWhiteSpace(s[i])
      {
        assert s[i] == s[1..][i - 1];
      }
    }
  }

  /** What TrimEnd drops is white space. */
  lemma {:induction false} TrimEndDropsWhiteSpace(s: string)
    ensures forall i :: |TrimEnd(s)| <= i < |s| ==> IsWhiteSpace(s[i])
  {
    if s != [] && IsWhiteSpace(s[|s| - 1]) {
      var p := s[..|s| - 1];
      TrimEndDropsWhiteSpace(p);
      forall i | |TrimEnd(s)| <= i < |s| - 1
        ensures IsWhiteSpace(s[i])
      {
        assert s[i] == p[i];
      }
    }
  }

  /** A digit string has no white space to trim. */
  lemma TrimDigits(s: string)
    requires AllDigits(s) && s != []
    ensures Trim(s) == s
  {
    assert IsDigit(s[0]) && IsDigit(s[|s| - 1]);
  }

  // --------------------------------------------------------------- split

  /** `s.split(sep)` for a one-character separator. */
  function Split(s: string, sep: char): (parts: seq<string>)
    ensures |parts| >= 1
    ensures forall k, i :: 0 <= k < |parts| && 0 <= i < |parts[k]| ==> parts[k][i] != sep
  {
    if s == [] then [[]]
    else
      var rest := Split(s[1..], sep);
      if s[0] == sep then [[]] + rest
      else [[s[0]] + rest[0]] + rest[1..]
  }

  function Join(parts: seq<string>, sep: char): string
    requires |parts| >= 1
  {
    if |parts| == 1 then parts[0] else parts[0] + [sep] + Join(parts[1..], sep)
  }

  /** Splitting loses nothing: joining the parts again gives back the input. */
  lemma {:induction false} SplitJoin(s: string, sep: char)
    ensures Join(Split(s, sep), sep) == s
  {
    if s != [] {
      var rest := Split(s[1..], sep);
      SplitJoin(s[1..], sep);
      if s[0] != sep {
        var parts := [[s[0]] + rest[0]] + rest[1..];
        if |rest| == 1 {
          assert parts == [[s[0]] + rest[0]];
        } else {
          assert parts[1..] == rest[1..];
          assert Join(rest, sep) == rest[0] + [sep] + Join(rest[1..], sep);
        }
      } else {
        assert ([[]] + rest)[1..] == rest;
      }
    }
  }

  /** Splitting a string with no separator in it gives the string itself. */
  lemma {:induction false} SplitWithoutSeparator(s: string, sep: char, tail: string)
    requires forall i :: 0 <= i < |s| ==> s[i] != sep
    ensures Split(s + tail, sep) == [s + Split(tail, sep)[0]] + Split(tail, sep)[1..]
  {
    if s == [] {
      var t := Split(tail, sep);
      assert s + tail == tail && s + t[0] == t[0];
      assert [t[0]] + t[1..] == t;
    } else {
      assert (s + tail)[0] == s[0] && (s + tail)[1..] == s[1..] + tail;
      SplitWithoutSeparator(s[1..], sep, tail);
      var t := Split(tail, sep);
      var r := Split(s[1..] + tail, sep);
      assert r == [s[1..] + t[0]] + t[1..];
      assert r[0] == s[1..] + t[0] && r[1..] == t[1..];
      assert Split(s + tail, sep) == [[s[0]] + r[0]] + r[1..];
      assert [s[0]] + (s[1..] + t[0]) == s + t[0];
    }
  }

  /** A string with no separator in it is a single part. */
  lemma SplitNoSeparator(s: string, sep: char)
    requires forall i :: 0 <= i < |s| ==> s[i] != sep
    ensures Split(s, sep) == [s]
  {
    SplitWithoutSeparator(s, sep, []);
    assert s + [] == s;
  }

  /** The text before the first separator is the first part. */
  lemma SplitAtSeparator(s: string, sep: char, t: string)
    requires forall i :: 0 <= i < |s| ==> s[i] != sep
    ensures Split(s + [sep] + t, sep) == [s] + Split(t, sep)
  {
    var tail := [sep] + t;
    assert tail[0] == sep && tail[1..] == t;
    var st := Split(tail, sep);
    assert st == [[]] + Split(t, sep);
    assert st[0] == [] && st[1..] == Split(t, sep);
    SplitWithoutSeparator(s, sep, tail);
    assert s + [sep] + t == s + tail;
    assert s + st[0] == s;
  }

  // ---------------------------------------------------------------- dates

  const MsPerDay: int := 86400000
  /** Time values beyond this many milliseconds from the epoch are NaN
      (TimeClip, ECMA-262 section 21.4.1.31). */
  const MaxTimeValue: int := 8640000000000000

  predicate InLeapYear(y: int) { (y % 4 == 0 && y % 100 != 0) || y % 400 == 0 }

  function DaysInYear(y: int): int { if InLeapYear(y) then 366 else 365 }

  /** Day number of 1 January of year `y` (ECMA-262 section 21.4.1.3). */
  function DayFromYear(y: int): int
  {
    365 * (y - 1970) + (y - 1969) / 4 - (y - 1901) / 100 + (y - 1601) / 400
  }

  /** Days in month `m` (0 = January) of year `y`. */
  function DaysInMonth(y: int, m: int): int
    requires 0 <= m < 12
  {
    if m == 1 then (if InLeapYear(y) then 29 else 28)
    else if m == 3 || m == 5 || m == 8 || m == 10 then 30
    else 31
  }

  /** Days of year `y` before month `m` (0 = January). */
  function DaysBeforeMonth(y: int, m: int): int
    requires 0 <= m < 12
  {
    [0, 31, 59, 90, 120, 151, 181, 212, 243, 273, 304, 334][m]
      + if m >= 2 && InLeapYear(y) then 1 else 0
  }

  /** MakeDay (ECMA-262 section 21.4.1.28): month and date out of range roll
      over into the following or preceding months and years. */
  function MakeDay(year: int, month: int, date: int): int
  {
    var ym := year + month / 12;
    var mn := month % 12;
    DayFromYear(ym) + DaysBeforeMonth(ym, mn) + date - 1
  }

  /** A date that exists in its month is a day of its own year. */
  lemma MakeDayWithinYear(year: int, month: int, date: int)
    requires 0 <= month < 12 && 1 <= date <= DaysInMonth(year, month)
    ensures DayFromYear(year) <= MakeDay(year, month, date) < DayFromYear(year) + DaysInYear(year)
  {
    assert month / 12 == 0 && month % 12 == month;
    assert MakeDay(year, month, date) == DayFromYear(year) + DaysBeforeMonth(year, month) + date - 1;
    MonthEndsWithinYear(year, month);
  }

  /** No month runs past the end of its year. */
  lemma MonthEndsWithinYear(y: int, m: int)
    requires 0 <= m < 12
    ensures DaysBeforeMonth(y, m) + DaysInMonth(y, m) <= DaysInYear(y)
  {
  }

  /** Years 0 to 99 passed to the Date constructor mean 1900 to 1999. */
  function FullYear(year: int): int
  {
    if 0 <= year <= 99 then 1900 + year else year
  }

  /** `new Date(year, month, date)` read as a time value, for a local time zone
      `tzOffset` ms ahead of UTC: years 0 to 99 mean 1900 to 1999, the result
      is local midnight of that day, and NaN when an argument is NaN or the
      instant lies outside the representable range. */
  function LocalDate(year: Option<int>, month: Option<int>, date: Option<int>, tzOffset: int): (t: Option<int>)
    ensures t.Some? ==> -MaxTimeValue <= t.value <= MaxTimeValue
    ensures (year.None? || month.None? || date.None?) ==> t.None?
  {
    if year.None? || month.None? || date.None? then None
    else
      var t := MakeDay(FullYear(year.value), month.value, date.value) * MsPerDay - tzOffset;
      if -MaxTimeValue <= t <= MaxTimeValue then Some(t) else None
  }

  /** 1 January of a year from 100 to 9999 is local midnight of day
      DayFromYear(y) of the epoch, `tzOffset` ms before its UTC midnight. */
  lemma LocalDateNewYear(y: int, tzOffset: int)
    requires 100 <= y <= 9999
    requires -50400000 <= tzOffset <= 50400000
    ensures LocalDate(Some(y), Some(0), Some(1), tzOffset) == Some(DayFromYear(y) * MsPerDay - tzOffset)
  {
    LocalDateDefined(y, 0, 1, tzOffset);
    assert MakeDay(y, 0, 1) == DayFromYear(y);
  }

  /** The epoch, 1970, begins on day 0, and 2000 on day 10957. */
  lemma DayFromYearAnchors()
    ensures DayFromYear(1970) == 0
    ensures DayFromYear(2000) == 10957
  {
  }

  /** The next date is one day later. */
  lemma LocalDateNextDay(y: int, m: int, d: int, tzOffset: int)
    requires LocalDate(Some(y), Some(m), Some(d), tzOffset).Some?
    requires LocalDate(Some(y), Some(m), Some(d + 1), tzOffset).Some?
    ensures LocalDate(Some(y), Some(m), Some(d + 1), tzOffset).value
              == LocalDate(Some(y), Some(m), Some(d), tzOffset).value + MsPerDay
  {
  }

  /** The days of years 0 to 9999 lie within a few million days of the
      epoch. */
  lemma DayFromYearBounds(y: int)
    requires 0 <= y <= 9999
    ensures -720000 <= DayFromYear(y) <= 2933000
  {
    assert -493 <= (y - 1969) / 4 <= 2008;
    assert -20 <= (y - 1901) / 100 <= 81;
    assert -5 <= (y - 1601) / 400 <= 21;
  }

  /** A date of a four-digit year in its month, or a few days past it, is
      representable in every time zone: the time value is local midnight of
      that day. */
  lemma LocalDateDefined(y: int, m: int, d: int, tzOffset: int)
    requires 100 <= y <= 9999 && 0 <= m < 12 && 1 <= d <= 31
    requires -50400000 <= tzOffset <= 50400000
    ensures LocalDate(Some(y), Some(m), Some(d), tzOffset) == Some(MakeDay(y, m, d) * MsPerDay - tzOffset)
  {
    DayFromYearBounds(y);
    assert m / 12 == 0 && m % 12 == m;
    assert 0 <= DaysBeforeMonth(y, m) <= 335;
    assert -720000 <= MakeDay(y, m, d) <= 2933000 + 335 + 30;
  }

  function Pow10(n: nat): nat
  {
    if n == 0 then 1 else 10 * Pow10(n - 1)
  }

  /** n decimal digits write a number below 10^n. */
  lemma {:induction false} DecimalValueBelowPow10(s: string)
    requires AllDigits(s)
    ensures DecimalValue(s) < Pow10(|s|)
  {
    if s != [] {
      DecimalValueBelowPow10(s[..|s| - 1]);
    }
  }

  /** Consecutive years are DaysInYear apart: DayFromYear agrees with the
      leap-year rule. */
  lemma YearLength(y: int)
    ensures DayFromYear(y + 1) - DayFromYear(y) == DaysInYear(y)
  {
    QuadrennialStep(y);
    CenturyStep(y);
    QuadricentennialStep(y);
  }

  /** The count of years divisible by 4 grows by one exactly at such a year;
      likewise for 100 and 400 below. */
  lemma QuadrennialStep(y: int)
    ensures (y - 1968) / 4 == (y - 1969) / 4 + (if y % 4 == 0 then 1 else 0)
  {
  }

  lemma CenturyStep(y: int)
    ensures (y - 1900) / 100 == (y - 1901) / 100 + (if y % 100 == 0 then 1 else 0)
  {
  }

  lemma QuadricentennialStep(y: int)
    ensures (y - 1600) / 400 == (y - 1601) / 400 + (if y % 400 == 0 then 1 else 0)
  {
  }

  /** A date past the end of its month is the corresponding day of the next
      month, across a year boundary too. */
  lemma DateRollsOver(y: int, m: int, k: int)
    requires 0 <= m < 12
    ensures MakeDay(y, m, DaysInMonth(y, m) + k) == MakeDay(y, m + 1, k)
  {
    if m == 11 {
      YearLength(y);
      assert DaysBeforeMonth(y, 11) + DaysInMonth(y, 11) == DaysInYear(y);
      assert MakeDay(y, 12, k) == DayFromYear(y + 1) + k - 1;
    } else {
      MonthsFollowOn(y, m);
      assert (m + 1) / 12 == 0 && (m + 1) % 12 == m + 1;
      assert m / 12 == 0 && m % 12 == m;
    }
  }

  /** Each month starts where the one before it ends. */
  lemma MonthsFollowOn(y: int, m: int)
    requires 0 <= m < 11
    ensures DaysBeforeMonth(y, m + 1) == DaysBeforeMonth(y, m) + DaysInMonth(y, m)
  {
    var starts := [0, 31, 59, 90, 120, 151, 181, 212, 243, 273, 304, 334];
    assert DaysBeforeMonth(y, m) == starts[m] + if m >= 2 && InLeapYear(y) then 1 else 0;
    assert DaysBeforeMonth(y, m + 1) == starts[m + 1] + if m + 1 >= 2 && InLeapYear(y) then 1 else 0;
  }
}
