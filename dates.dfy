/**
 * The date step of every dialogue: `datetime.strptime(text, "%d/%m/%Y").strftime("%Y-%m-%d")`.
 * The output is the `full-date` form of section 5.6 of RFC 3339 (4DIGIT "-" 2DIGIT "-" 2DIGIT),
 * with the month-day limits of section 5.7 (the Gregorian leap-year rule).
 */
module Dates {
  import opened Wrappers
  import opened Text

  datatype Date = Date(year: int, month: int, day: int)

  predicate IsLeapYear(y: int) {
    y % 4 == 0 && (y % 100 != 0 || y % 400 == 0)
  }

  function DaysInMonth(y: int, m: int): (n: int)
    requires 1 <= m <= 12
    ensures 28 <= n <= 31
    ensures n == 29 <==> m == 2 && IsLeapYear(y)
  {
    if m == 2 then (if IsLeapYear(y) then 29 else 28)
    else if m == 4 || m == 6 || m == 9 || m == 11 then 30
    else 31
  }

  /** A calendar date that Python's `datetime` accepts (years 1 to 9999). */
  predicate ValidDate(d: Date) {
    1 <= d.year <= 9999 && 1 <= d.month <= 12 && 1 <= d.day <= DaysInMonth(d.year, d.month)
  }

  lemma {:induction false} DigitsValueBound(s: string)
    requires AllDigits(s)
    ensures DigitsValue(s) < Pow10(|s|)
    decreases |s|
  {
    if s != [] {
      DigitsValueBound(s[..|s| - 1]);
    }
  }

  lemma DigitsHaveNoSeparator(s: string, c: char)
    requires AllDigits(s) && !IsDigit(c)
    ensures c !in s
  {
    forall i | 0 <= i < |s| ensures s[i] != c { }
  }

  /** A `%d` or `%m` field: one or two digits (a leading zero is allowed). */
  predicate ShortField(p: string) {
    (|p| == 1 || |p| == 2) && AllDigits(p)
  }

  /**
   * `strptime(s, "%d/%m/%Y")` on text that is already stripped: three `/`-separated fields,
   * day and month of one or two digits, a year of exactly four digits, and a date that exists.
   */
  function ParseDmy(s: string): (r: Option<Date>)
    ensures r.Some? ==> ValidDate(r.value)
  {
    var parts := Split(s, '/');
    if |parts| != 3 then None
    else if !(ShortField(parts[0]) && ShortField(parts[1]) && |parts[2]| == 4 && AllDigits(parts[2])) then None
    else
      var d := Date(DigitsValue(parts[2]), DigitsValue(parts[1]), DigitsValue(parts[0]));
      DigitsValueBound(parts[2]);
      if 1 <= d.year && 1 <= d.month <= 12 && 1 <= d.day <= DaysInMonth(d.year, d.month) then Some(d)
      else None
  }

  /** `n` written with exactly `w` digits, zero-padded on the left. */
  function PadNat(n: nat, w: nat): (r: string)
    requires n < Pow10(w)
    ensures |r| == w && AllDigits(r) && DigitsValue(r) == n
    decreases w
  {
    if w == 0 then ""
    else
      assert n / 10 < Pow10(w - 1);
      var r := PadNat(n / 10, w - 1) + [DigitChar(n % 10)];
      assert r[..|r| - 1] == PadNat(n / 10, w - 1);
      r
  }

  /** `strftime("%Y-%m-%d")`: the RFC 3339 full-date. */
  function FormatIso(d: Date): (r: string)
    requires ValidDate(d)
    ensures |r| == 10 && r[4] == '-' && r[7] == '-'
    ensures AllDigits(r[..4]) && AllDigits(r[5..7]) && AllDigits(r[8..])
  {
    var y, m, dd := PadNat(d.year, 4), PadNat(d.month, 2), PadNat(d.day, 2);
    var r := y + "-" + m + "-" + dd;
    assert r[..4] == y;
    assert r[5..7] == m;
    assert r[8..] == dd;
    r
  }

  /** The RFC 3339 full-date grammar with its month-day limits. */
  function ParseIso(s: string): (r: Option<Date>)
    ensures r.Some? ==> |s| == 10 && s[4] == '-' && s[7] == '-'
    ensures r.Some? ==> 0 <= r.value.year <= 9999 && 1 <= r.value.month <= 12
                        && 1 <= r.value.day <= DaysInMonth(r.value.year, r.value.month)
  {
    if |s| == 10 && s[4] == '-' && s[7] == '-'
       && AllDigits(s[..4]) && AllDigits(s[5..7]) && AllDigits(s[8..]) then
      var d := Date(DigitsValue(s[..4]), DigitsValue(s[5..7]), DigitsValue(s[8..]));
      DigitsValueBound(s[..4]);
      if 1 <= d.month <= 12 && 1 <= d.day <= DaysInMonth(d.year, d.month) then Some(d) else None
    else None
  }

  /** Every date the program can store reads back from its text unchanged. */
  lemma IsoRoundTrip(d: Date)
    requires ValidDate(d)
    ensures ParseIso(FormatIso(d)) == Some(d)
  {
    var y, m, dd := PadNat(d.year, 4), PadNat(d.month, 2), PadNat(d.day, 2);
    var s := FormatIso(d);
    assert s == y + "-" + m + "-" + dd;
    assert s[..4] == y;
    assert s[5..7] == m;
    assert s[8..] == dd;
  }

  /** The text `DD/MM/YYYY` for day, month and year numbers that fit their fields. */
  function DmyText(year: nat, month: nat, day: nat): string
    requires year < 10000 && month < 100 && day < 100
  {
    PadNat(day, 2) + "/" + PadNat(month, 2) + "/" + PadNat(year, 4)
  }

  /** The text an operator types for a date. */
  function FormatDmy(d: Date): string
    requires ValidDate(d)
  {
    DmyText(d.year, d.month, d.day)
  }

  /**
   * Text of the form `DD/MM/YYYY` is accepted exactly when it names a valid date,
   * and then it is read as that date.
   */
  lemma DmyExact(year: nat, month: nat, day: nat)
    requires year < 10000 && month < 100 && day < 100
    ensures ParseDmy(DmyText(year, month, day))
            == if ValidDate(Date(year, month, day)) then Some(Date(year, month, day)) else None
  {
    var dd, m, y := PadNat(day, 2), PadNat(month, 2), PadNat(year, 4);
    DigitsHaveNoSeparator(dd, '/');
    DigitsHaveNoSeparator(m, '/');
    DigitsHaveNoSeparator(y, '/');
    SplitNoSep(y, '/');
    SplitAppend(m, y, '/');
    SplitAppend(dd, m + "/" + y, '/');
    assert DmyText(year, month, day) == dd + ['/'] + (m + ['/'] + y);
    assert Split(DmyText(year, month, day), '/') == [dd, m, y];
  }

  lemma DmyTextStripped(year: nat, month: nat, day: nat)
    requires year < 10000 && month < 100 && day < 100
    ensures Stripped(DmyText(year, month, day))
  {
    var dd, y := PadNat(day, 2), PadNat(year, 4);
    var s := DmyText(year, month, day);
    assert s[0] == dd[0] && IsDigit(dd[0]);
    assert s[|s| - 1] == y[3] && IsDigit(y[3]);
  }

  /** Every valid date typed as `DD/MM/YYYY` is read back as itself. */
  lemma DmyRoundTrip(d: Date)
    requires ValidDate(d)
    ensures ParseDmy(FormatDmy(d)) == Some(d)
  {
    DmyExact(d.year, d.month, d.day);
  }

  /** Day `d` exists in month `m` of year `y`. */
  predicate DayFits(y: int, m: int, d: int) {
    1 <= m <= 12 && 1 <= d <= DaysInMonth(y, m)
  }

  /** `s` is an RFC 3339 full-date: the grammar, and a day that exists in its month. */
  predicate IsFullDate(s: string) {
    |s| == 10 && s[4] == '-' && s[7] == '-' && AllDigits(s[..4]) && AllDigits(s[5..7]) && AllDigits(s[8..])
    && DayFits(DigitsValue(s[..4]), DigitsValue(s[5..7]), DigitsValue(s[8..]))
  }

  /** The full-date test is exactly the text that the full-date reader accepts. */
  lemma FullDateParses(s: string)
    ensures IsFullDate(s) <==> ParseIso(s).Some?
  {
  }

  /**
   * The date step: strip the text, read it as `DD/MM/YYYY`, render it as `YYYY-MM-DD`.
   * `None` is the `ValueError` the step catches.
   */
  function ParseFecha(text: string): (r: Option<string>)
    ensures r.Some? ==> IsFullDate(r.value)
  {
    match ParseDmy(Strip(text))
    case Some(d) =>
      IsoRoundTrip(d);
      Some(FormatIso(d))
    case None => None
  }

  /**
   * The date step succeeds exactly when the stripped text is a date, and what it stores reads
   * back as that date.
   */
  lemma ParseFechaMeaning(text: string)
    ensures ParseFecha(text).Some? <==> ParseDmy(Strip(text)).Some?
    ensures ParseFecha(text).Some? ==> ParseIso(ParseFecha(text).value) == ParseDmy(Strip(text))
  {
    match ParseDmy(Strip(text))
    case Some(d) => IsoRoundTrip(d);
    case None =>
  }

  /** A date typed in the operator's form comes out as the same date in full-date form. */
  lemma FechaRoundTrip(d: Date)
    requires ValidDate(d)
    ensures ParseFecha(FormatDmy(d)) == Some(FormatIso(d))
  {
    var s := FormatDmy(d);
    DmyTextStripped(d.year, d.month, d.day);
    DmyRoundTrip(d);
    assert ParseDmy(Strip(s)) == Some(d);
  }

  lemma PadTwo(n: nat)
    requires n < 100
    ensures PadNat(n, 2) == [DigitChar(n / 10), DigitChar(n % 10)]
  {
    var x, y := DigitChar(n / 10), DigitChar(n % 10);
    assert PadNat(n / 10, 1) == PadNat(0, 0) + [x];
    assert PadNat(n, 2) == PadNat(n / 10, 1) + [y];
  }

  lemma PadNatYears()
    ensures PadNat(2024, 4) == "2024" && PadNat(2023, 4) == "2023"
  {
    DigitChars();
    PadTwo(20);
    assert PadNat(2024, 4) == PadNat(202, 3) + [DigitChar(4)];
    assert PadNat(202, 3) == PadNat(20, 2) + [DigitChar(2)];
    assert PadNat(2023, 4) == PadNat(202, 3) + [DigitChar(3)];
  }

  lemma DigitChars()
    ensures DigitChar(0) == '0' && DigitChar(1) == '1' && DigitChar(2) == '2' && DigitChar(3) == '3'
    ensures DigitChar(4) == '4' && DigitChar(5) == '5' && DigitChar(9) == '9'
  {
  }

  lemma IdesOfMarchFields()
    ensures PadNat(15, 2) == "15" && PadNat(3, 2) == "03" && PadNat(2024, 4) == "2024"
  {
    DigitChars();
    PadTwo(15);
    PadTwo(3);
    PadNatYears();
  }

  lemma IdesOfMarchTexts()
    ensures ValidDate(Date(2024, 3, 15))
    ensures FormatDmy(Date(2024, 3, 15)) == "15/03/2024"
    ensures FormatIso(Date(2024, 3, 15)) == "2024-03-15"
  {
    IdesOfMarchFields();
    assert FormatDmy(Date(2024, 3, 15)) == "15" + "/" + "03" + "/" + "2024";
    assert FormatIso(Date(2024, 3, 15)) == "2024" + "-" + "03" + "-" + "15";
  }

  /** The worked example: `"15/03/2024"` is stored as `"2024-03-15"`. */
  lemma FechaExample()
    ensures ParseFecha("15/03/2024") == Some("2024-03-15")
  {
    IdesOfMarchTexts();
    FechaRoundTrip(Date(2024, 3, 15));
  }

  /** The 29th of February exists in a leap year... */
  lemma LeapDayAccepted()
    ensures ParseDmy("29/02/2024") == Some(Date(2024, 2, 29))
  {
    DigitChars();
    PadTwo(29);
    PadTwo(2);
    PadNatYears();
    assert DmyText(2024, 2, 29) == "29/02/2024";
    assert 2024 % 4 == 0 && 2024 % 100 == 24;
    assert ValidDate(Date(2024, 2, 29));
    DmyExact(2024, 2, 29);
  }

  /** ...and not in a common year. */
  lemma LeapDayRejected()
    ensures ParseDmy("29/02/2023") == None
  {
    DigitChars();
    PadTwo(29);
    PadTwo(2);
    PadNatYears();
    assert DmyText(2023, 2, 29) == "29/02/2023";
    assert 2023 % 4 == 3;
    assert !ValidDate(Date(2023, 2, 29));
    DmyExact(2023, 2, 29);
  }

  /** April has no 31st day. */
  lemma ThirtyFirstOfAprilRejected()
    ensures ParseDmy("31/04/2024") == None
  {
    DigitChars();
    PadTwo(31);
    PadTwo(4);
    PadNatYears();
    assert DmyText(2024, 4, 31) == "31/04/2024";
    DmyExact(2024, 4, 31);
  }
}
