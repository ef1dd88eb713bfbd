/** The date formatting helpers of src/utils/dateFormatter.ts. The locale
    rendering of a `Date` is left abstract; the `YYYY-MM-DD` format is
    written out. */
module DateFormatter {
  import opened Options
  import opened Text

  /** A stored date: a Firestore timestamp (its seconds), or a date string. */
  datatype Timestamp = Stamp(seconds: int) | DateString(text: string)

  const UnknownDate := "Unknown date"

  /** `formatFirebaseDate`. `ofText` is `new Date(text).toLocaleDateString(locale)`
      and `ofMillis` is `new Date(ms).toLocaleDateString(locale)`, both left abstract. */
  function FormatFirebaseDate(ts: Option<Timestamp>, ofText: string -> string, ofMillis: int -> string): (r: string)
    ensures ts.None? || ts == Some(DateString("")) ==> r == UnknownDate
    ensures ts.Some? && ts.value.DateString? && ts.value.text != "" ==> r == ofText(ts.value.text)
    ensures ts.Some? && ts.value.Stamp? ==> r == ofMillis(ts.value.seconds * 1000)
  {
    match ts
    case None => UnknownDate
    case Some(DateString(text)) => if text == "" then UnknownDate else ofText(text)
    case Some(Stamp(seconds)) => ofMillis(seconds * 1000)
  }

  /** `String(date.getMonth() + 1).padStart(2, '0')`. */
  function MonthField(monthIndex: nat): string {
    PadStart(NatToString(monthIndex + 1), 2, '0')
  }

  /** `String(date.getDate()).padStart(2, '0')`. */
  function DayField(day: nat): string {
    PadStart(NatToString(day), 2, '0')
  }

  /** `formatToYYYYMMDD` for a date with full year `year`, zero-based month
      `monthIndex` and day of the month `day`. */
  function FormatToYYYYMMDD(year: int, monthIndex: nat, day: nat): string {
    IntToString(year) + "-" + MonthField(monthIndex) + "-" + DayField(day)
  }

  /** Numbers below 100 have at most two digits. */
  lemma ShortNumber(n: nat)
    requires n < 100
    ensures |NatToString(n)| <= 2
  {
    if n >= 10 {
      assert NatToString(n) == NatToString(n / 10) + [DigitChar(n % 10)];
    }
  }

  /** For a month of the year and a day of the month, MM and DD are exactly
      two digits, with a zero in front of a one-digit number. */
  lemma FieldsAreTwoDigits(monthIndex: nat, day: nat)
    requires monthIndex < 12 && 1 <= day <= 31
    ensures |MonthField(monthIndex)| == 2 && AllDigits(MonthField(monthIndex))
    ensures |DayField(day)| == 2 && AllDigits(DayField(day))
    ensures monthIndex + 1 < 10 ==> MonthField(monthIndex) == "0" + NatToString(monthIndex + 1)
    ensures day < 10 ==> DayField(day) == "0" + NatToString(day)
  {
    ShortNumber(monthIndex + 1);
    ShortNumber(day);
  }

  /** The padded fields are digits, and read back as the number they pad. */
  lemma PaddedFieldValue(n: nat)
    ensures AllDigits(PadStart(NatToString(n), 2, '0'))
    ensures ParseInt10(PadStart(NatToString(n), 2, '0')) == Some(n)
  {
    PadStartZerosValue(NatToString(n), 2);
    DigitsValueOfNatToString(n);
    ParseIntOfDigits(PadStart(NatToString(n), 2, '0'));
  }

  lemma NoDashInDigits(s: string)
    requires AllDigits(s)
    ensures '-' !in s
  {
    assert forall i :: 0 <= i < |s| ==> IsDigit(s[i]);
  }

  /** For a year of the common era, splitting the output on '-' gives three
      fields that read back as the year, `getMonth() + 1` and the day. */
  lemma FormatReadsBack(year: int, monthIndex: nat, day: nat)
    requires year >= 0
    ensures Split(FormatToYYYYMMDD(year, monthIndex, day), '-') == [IntToString(year), MonthField(monthIndex), DayField(day)]
    ensures ParseInt10(IntToString(year)) == Some(year)
    ensures ParseInt10(MonthField(monthIndex)) == Some(monthIndex + 1)
    ensures ParseInt10(DayField(day)) == Some(day)
  {
    var y, m, d := IntToString(year), MonthField(monthIndex), DayField(day);
    PaddedFieldValue(monthIndex + 1);
    PaddedFieldValue(day);
    NoDashInDigits(y);
    NoDashInDigits(m);
    NoDashInDigits(d);
    SplitThree(y, m, d, '-');
    ParseIntOfIntToString(year);
  }

  /** The year is written as `String(year)`, neither padded nor cut, and
      `parseInt` of the whole output is the year. */
  lemma YearIsUnpadded(year: int, monthIndex: nat, day: nat)
    ensures |FormatToYYYYMMDD(year, monthIndex, day)| > |IntToString(year)|
    ensures FormatToYYYYMMDD(year, monthIndex, day)[..|IntToString(year)|] == IntToString(year)
    ensures FormatToYYYYMMDD(year, monthIndex, day)[|IntToString(year)|] == '-'
    ensures ParseInt10(FormatToYYYYMMDD(year, monthIndex, day)) == Some(year)
  {
    var y, m, d := IntToString(year), MonthField(monthIndex), DayField(day);
    var rest := ['-'] + m + ['-'] + d;
    assert FormatToYYYYMMDD(year, monthIndex, day) == y + rest;
    if year >= 0 {
      ParseIntOfDigitsThen(year, rest);
    } else {
      ParseIntOfNegativeThen(year, rest);
    }
  }

  /** The output is the year followed by "-MM-DD". */
  lemma FormatShape(year: int, monthIndex: nat, day: nat)
    ensures FormatToYYYYMMDD(year, monthIndex, day) == IntToString(year) + (['-'] + MonthField(monthIndex) + ['-'] + DayField(day))
  {
    var y, m, d := IntToString(year), MonthField(monthIndex), DayField(day);
    var rest := ['-'] + m + ['-'] + d;
    assert FormatToYYYYMMDD(year, monthIndex, day) == y + rest;
  }

  /** The padded fields hold no '-'. */
  lemma FieldsDashFree(monthIndex: nat, day: nat)
    ensures '-' !in MonthField(monthIndex) && '-' !in DayField(day)
  {
    PaddedFieldValue(monthIndex + 1);
    PaddedFieldValue(day);
    NoDashInDigits(MonthField(monthIndex));
    NoDashInDigits(DayField(day));
  }

  /** A separator in front of three separator-free fields adds an empty first field. */
  lemma SplitLeadingThree(a: string, b: string, c: string, sep: char)
    requires sep !in a && sep !in b && sep !in c
    ensures Split([sep] + (a + ([sep] + b + [sep] + c)), sep) == ["", a, b, c]
  {
    var tail := a + ([sep] + b + [sep] + c);
    assert tail == a + [sep] + b + [sep] + c;
    SplitThree(a, b, c, sep);
    assert ([sep] + tail)[1..] == tail;
  }

  /** A year before the common era brings its own '-', so the output then
      splits into four fields, the first of them empty. */
  lemma NegativeYearSplitsInFour(year: int, monthIndex: nat, day: nat)
    requires year < 0
    ensures Split(FormatToYYYYMMDD(year, monthIndex, day), '-')
         == ["", NatToString(-year), MonthField(monthIndex), DayField(day)]
  {
    var n, m, d := NatToString(-year), MonthField(monthIndex), DayField(day);
    FormatShape(year, monthIndex, day);
    NegativeText(year, ['-'] + m + ['-'] + d);
    NoDashInDigits(n);
    FieldsDashFree(monthIndex, day);
    SplitLeadingThree(n, m, d, '-');
  }
}
