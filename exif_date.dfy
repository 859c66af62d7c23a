/**
  The EXIF date formatter: a fixed, all-numeric layout `yyyy:MM:dd HH:mm:ss`
  (for example `2015:07:09 18:43:04`). Because every field of the layout is
  numeric, the formatter's locale (German) plays no part in what it accepts.

  Dates are calendar components, not instants: the conversion of the parsed
  wall-clock time into an absolute instant by the formatter's time zone is not
  part of this model.
*/
module ExifDate {
  import opened Wrappers

  datatype DateTime = DateTime(year: int, month: int, day: int, hour: int, minute: int, second: int)

  predicate IsLeapYear(year: int) {
    year % 4 == 0 && (year % 100 != 0 || year % 400 == 0)
  }

  function DaysInMonth(year: int, month: int): (n: int)
    requires 1 <= month <= 12
    ensures 28 <= n <= 31
    ensures n == 29 <==> month == 2 && IsLeapYear(year)
  {
    if month == 2 then (if IsLeapYear(year) then 29 else 28)
    else if month == 4 || month == 6 || month == 9 || month == 11 then 30
    else 31
  }

  /** A date and time the layout can express: a four-digit year and a real day of the Gregorian calendar. */
  predicate Valid(d: DateTime) {
    && 0 <= d.year <= 9999
    && 1 <= d.month <= 12
    && 1 <= d.day <= DaysInMonth(d.year, d.month)
    && 0 <= d.hour < 24
    && 0 <= d.minute < 60
    && 0 <= d.second < 60
  }

  // ---------------------------------------------------------------------------
  // Fixed-width decimal fields

  predicate IsDigit(c: char) { '0' <= c <= '9' }

  predicate AllDigits(s: string) {
    forall i :: 0 <= i < |s| ==> IsDigit(s[i])
  }

  function Pow10(n: nat): (p: nat)
    ensures p >= 1
  {
    if n == 0 then 1 else 10 * Pow10(n - 1)
  }

  /** The value of a string of decimal digits, most significant first. */
  function Number(s: string): (n: nat)
    requires AllDigits(s)
    ensures n < Pow10(|s|)
  {
    if s == [] then 0
    else 10 * Number(s[..|s| - 1]) + (s[|s| - 1] as int - '0' as int)
  }

  /** `n` written with exactly `width` digits, zero-padded on the left. */
  function Digits(n: nat, width: nat): (s: string)
    ensures |s| == width && AllDigits(s)
  {
    if width == 0 then []
    else Digits(n / 10, width - 1) + [('0' as int + n % 10) as char]
  }

  lemma {:induction false} NumberOfDigits(n: nat, width: nat)
    requires n < Pow10(width)
    ensures Number(Digits(n, width)) == n
  {
    if width > 0 {
      var s := Digits(n, width);
      NumberOfDigits(n / 10, width - 1);
      assert s[..|s| - 1] == Digits(n / 10, width - 1);
    }
  }

  lemma {:induction false} DigitsOfNumber(s: string)
    requires AllDigits(s)
    ensures Digits(Number(s), |s|) == s
  {
    if s != [] {
      var init := s[..|s| - 1];
      DigitsOfNumber(init);
      var n := Number(s);
      assert n / 10 == Number(init) && n % 10 == s[|s| - 1] as int - '0' as int;
      assert s == init + [s[|s| - 1]];
    }
  }

  // ---------------------------------------------------------------------------
  // The layout `yyyy:MM:dd HH:mm:ss`

  const LayoutLength: nat := 19

  /** The character positions of the separators, and what stands there. */
  predicate SeparatorsAt(s: string)
    requires |s| == LayoutLength
  {
    s[4] == ':' && s[7] == ':' && s[10] == ' ' && s[13] == ':' && s[16] == ':'
  }

  predicate FieldsAreDigits(s: string)
    requires |s| == LayoutLength
  {
    && AllDigits(s[0..4]) && AllDigits(s[5..7]) && AllDigits(s[8..10])
    && AllDigits(s[11..13]) && AllDigits(s[14..16]) && AllDigits(s[17..19])
  }

  /** The date and time written in the layout. */
  function Format(d: DateTime): (s: string)
    requires Valid(d)
    ensures |s| == LayoutLength && SeparatorsAt(s) && FieldsAreDigits(s)
  {
    Digits(d.year, 4) + ":" + Digits(d.month, 2) + ":" + Digits(d.day, 2) + " "
      + Digits(d.hour, 2) + ":" + Digits(d.minute, 2) + ":" + Digits(d.second, 2)
  }

  /**
    The formatter's `date(from:)`: the string must follow the layout exactly and
    name a real date and time, or there is no result.
  */
  function Parse(s: string): (r: Option<DateTime>)
    ensures r.Some? ==> Valid(r.value)
  {
    if |s| == LayoutLength && SeparatorsAt(s) && FieldsAreDigits(s) then
      var d := DateTime(Number(s[0..4]), Number(s[5..7]), Number(s[8..10]),
                        Number(s[11..13]), Number(s[14..16]), Number(s[17..19]));
      if Valid(d) then Some(d) else None
    else None
  }

  /** `parseEXIFDate(from:)`: no string, no date; otherwise the formatter decides. */
  function ParseExifDate(s: Option<string>): (r: Option<DateTime>)
    ensures s.None? ==> r.None?
    ensures s.Some? ==> r == Parse(s.value)
    ensures r.Some? ==> Valid(r.value)
  {
    match s
    case None => None
    case Some(text) => Parse(text)
  }

  /** Reading back a written date gives that date. */
  lemma ParseFormat(d: DateTime)
    requires Valid(d)
    ensures Parse(Format(d)) == Some(d)
  {
    var s := Format(d);
    assert s[0..4] == Digits(d.year, 4);
    assert s[5..7] == Digits(d.month, 2);
    assert s[8..10] == Digits(d.day, 2);
    assert s[11..13] == Digits(d.hour, 2);
    assert s[14..16] == Digits(d.minute, 2);
    assert s[17..19] == Digits(d.second, 2);
    NumberOfDigits(d.year, 4);
    NumberOfDigits(d.month, 2);
    NumberOfDigits(d.day, 2);
    NumberOfDigits(d.hour, 2);
    NumberOfDigits(d.minute, 2);
    NumberOfDigits(d.second, 2);
  }

  /** The parser accepts nothing but the layout: an accepted string is the written form of its result. */
  lemma FormatParse(s: string)
    requires Parse(s).Some?
    ensures Format(Parse(s).value) == s
  {
    DigitsOfNumber(s[0..4]);
    DigitsOfNumber(s[5..7]);
    DigitsOfNumber(s[8..10]);
    DigitsOfNumber(s[11..13]);
    DigitsOfNumber(s[14..16]);
    DigitsOfNumber(s[17..19]);
    assert s == s[0..4] + [s[4]] + s[5..7] + [s[7]] + s[8..10] + [s[10]]
              + s[11..13] + [s[13]] + s[14..16] + [s[16]] + s[17..19];
  }

  /** The example date of the source, component by component. */
  lemma ExampleDate()
    ensures ParseExifDate(Some("2015:07:09 18:43:04")) == Some(DateTime(2015, 7, 9, 18, 43, 4))
  {
    var d := DateTime(2015, 7, 9, 18, 43, 4);
    assert Digits(2015, 4) == "2015";
    assert Digits(7, 2) == "07";
    assert Digits(9, 2) == "09";
    assert Digits(18, 2) == "18";
    assert Digits(43, 2) == "43";
    assert Digits(4, 2) == "04";
    assert Format(d) == "2015:07:09 18:43:04";
    ParseFormat(d);
  }
}
