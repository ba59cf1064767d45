/** Calendar dates and the `YYYY-MM-DD` to `MM-DD-YYYY` conversion that both
    the Facebook profile and the crawl handler apply to request dates
    (`datetime.strptime(s, '%Y-%m-%d').strftime('%m-%d-%Y')`). Only
    zero-padded fields are accepted here. */
module Dates {
  import opened Wrappers
  import opened Strings

  datatype Date = Date(year: int, month: int, day: int)

  predicate IsLeap(y: int) {
    (y % 4 == 0 && y % 100 != 0) || y % 400 == 0
  }

  function DaysInMonth(y: int, m: int): int
    requires 1 <= m <= 12
  {
    if m == 2 then (if IsLeap(y) then 29 else 28)
    else if m == 4 || m == 6 || m == 9 || m == 11 then 30
    else 31
  }

  /** A date `datetime` accepts: years 1 to 9999 and a real day of the month. */
  predicate ValidDate(d: Date) {
    1 <= d.year <= 9999 && 1 <= d.month <= 12 && 1 <= d.day <= DaysInMonth(d.year, d.month)
  }

  /** `strptime(s, '%Y-%m-%d')` on zero-padded input. */
  function ParseIso(s: string): (r: Option<Date>)
    ensures r.Some? ==> ValidDate(r.value) && |s| == 10 && s[4] == '-' && s[7] == '-'
  {
    if |s| == 10 && s[4] == '-' && s[7] == '-' && AllDigits(s[..4]) && AllDigits(s[5..7]) && AllDigits(s[8..]) then
      var d := Date(DigitsValue(s[..4]), DigitsValue(s[5..7]), DigitsValue(s[8..]));
      if ValidDate(d) then Some(d) else None
    else None
  }

  /** `strftime('%Y-%m-%d')`. */
  function FormatIso(d: Date): (r: string)
    requires ValidDate(d)
    ensures |r| == 10
  {
    Pad4(d.year) + "-" + Pad2(d.month) + "-" + Pad2(d.day)
  }

  /** `strftime('%m-%d-%Y')`; the year is written without padding, as the C
      library does for years below 1000. */
  function FormatUs(d: Date): (r: string)
    requires ValidDate(d)
    ensures |r| >= 7 && r[2] == '-' && r[5] == '-'
  {
    Pad2(d.month) + "-" + Pad2(d.day) + "-" + NatToString(d.year)
  }

  /** The conversion: a parseable date is rewritten, anything else is
      returned unchanged. */
  function ConvertIsoToUs(s: string): (r: string)
    ensures ParseIso(s).None? ==> r == s
    ensures ParseIso(s).Some? ==> r == FormatUs(ParseIso(s).value)
  {
    match ParseIso(s)
    case Some(d) => FormatUs(d)
    case None => s
  }

  /** `MM-DD-YYYY` read back, the partner of the conversion. */
  function ParseUs(s: string): (r: Option<Date>)
    ensures r.Some? ==> ValidDate(r.value)
  {
    if |s| == 10 && s[2] == '-' && s[5] == '-' && AllDigits(s[..2]) && AllDigits(s[3..5]) && AllDigits(s[6..]) then
      var d := Date(DigitsValue(s[6..]), DigitsValue(s[..2]), DigitsValue(s[3..5]));
      if ValidDate(d) then Some(d) else None
    else None
  }

  /** Converting twice is converting once: a converted date has a `-` in
      its third character and so no longer parses as `YYYY-MM-DD`. */
  lemma ConvertIdempotent(s: string)
    ensures ConvertIsoToUs(ConvertIsoToUs(s)) == ConvertIsoToUs(s)
  {
    var r := ConvertIsoToUs(s);
    if ParseIso(s).Some? {
      assert !IsDigit(r[2]);
      assert r[..4][2] == r[2];
      assert !AllDigits(r[..4]);
    }
  }

  lemma Pad4Value(n: nat)
    requires n < 10000
    ensures DigitsValue(Pad4(n)) == n
  {
    var r := Pad4(n);
    DigitsAppend(Pad2(n / 100), Pad2(n % 100));
    Pad2Value(n / 100);
    Pad2Value(n % 100);
  }

  /** The value of two digit strings written one after the other. */
  lemma {:induction false} DigitsAppend(a: string, b: string)
    requires AllDigits(a) && AllDigits(b) && |b| == 2
    ensures AllDigits(a + b)
    ensures DigitsValue(a + b) == DigitsValue(a) * 100 + DigitsValue(b)
  {
    var ab := a + b;
    var a1 := a + b[..1];
    assert AllDigits(ab);
    assert ab[..|ab| - 1] == a1;
    assert a1[..|a1| - 1] == a;
    assert b[..1][..0] == [];
    var d0 := b[0] as int - '0' as int;
    var d1 := b[1] as int - '0' as int;
    assert DigitsValue(a1) == DigitsValue(a) * 10 + d0;
    assert DigitsValue(ab) == DigitsValue(a1) * 10 + d1;
    assert DigitsValue(b[..1]) == d0;
    assert b[..|b| - 1] == b[..1];
    assert DigitsValue(b) == d0 * 10 + d1;
  }

  /** A formatted date parses back to itself. */
  lemma ParseFormatIso(d: Date)
    requires ValidDate(d)
    ensures ParseIso(FormatIso(d)) == Some(d)
  {
    var s := FormatIso(d);
    assert s[..4] == Pad4(d.year);
    assert s[5..7] == Pad2(d.month);
    assert s[8..] == Pad2(d.day);
    Pad4Value(d.year);
    Pad2Value(d.month);
    Pad2Value(d.day);
  }

  /** For four-digit years the conversion loses nothing: the `MM-DD-YYYY`
      text of a `YYYY-MM-DD` date reads back as the same date. */
  lemma ConvertRoundTrip(d: Date)
    requires ValidDate(d) && d.year >= 1000
    ensures ParseUs(ConvertIsoToUs(FormatIso(d))) == Some(d)
  {
    ParseFormatIso(d);
    var r := FormatUs(d);
    assert NatToString(d.year) == Pad4(d.year) by {
      YearDigits(d.year);
    }
    assert r[..2] == Pad2(d.month);
    assert r[3..5] == Pad2(d.day);
    assert r[6..] == Pad4(d.year);
    Pad2Value(d.month);
    Pad2Value(d.day);
    Pad4Value(d.year);
  }

  /** A four-digit year is written the same with and without padding. */
  lemma YearDigits(y: nat)
    requires 1000 <= y < 10000
    ensures NatToString(y) == Pad4(y)
  {
    DigitSplit(y);
    assert NatToString(y / 1000) == [DigitChar(y / 1000)];
    assert NatToString(y / 100) == [DigitChar(y / 1000), DigitChar((y / 100) % 10)];
    assert NatToString(y / 10) == NatToString(y / 100) + [DigitChar((y / 10) % 10)];
    assert Pad4(y) == [DigitChar(y / 1000), DigitChar((y / 100) % 10), DigitChar((y / 10) % 10), DigitChar(y % 10)];
  }

  /** The decimal digits of a number below 10000, taken two ways. */
  lemma DigitSplit(y: nat)
    requires y < 10000
    ensures (y / 100) / 10 == y / 1000 && (y / 10) / 10 == y / 100
    ensures (y % 100) / 10 == (y / 10) % 10 && (y % 100) % 10 == y % 10
  {
    var q, r := y / 100, y % 100;
    assert y == 100 * q + r;
    var q1, r1 := q / 10, q % 10;
    assert q == 10 * q1 + r1;
    var t, u := r / 10, r % 10;
    assert r == 10 * t + u;
    assert y == 1000 * q1 + 100 * r1 + 10 * t + u;
    assert y / 10 == 100 * q1 + 10 * r1 + t;
    assert y / 1000 == q1;
  }
}
