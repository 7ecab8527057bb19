/**
 * src/lib/utils/thai-date.ts: Buddhist-era years, Thai month names, the
 * month and year option lists, and the Thai date formatter. A date is
 * given as the day of the month, the month index (0 to 11) and the
 * Gregorian year that `getDate`, `getMonth` and `getFullYear` return.
 */
module ThaiDate {
  import opened Common

  const MonthsFull: seq<string> := ["มกราคม", "กุมภาพันธ์", "มีนาคม", "เมษายน", "พฤษภาคม", "มิถุนายน",
                                    "กรกฎาคม", "สิงหาคม", "กันยายน", "ตุลาคม", "พฤศจิกายน", "ธันวาคม"]

  const MonthsShort: seq<string> := ["ม.ค.", "ก.พ.", "มี.ค.", "เม.ย.", "พ.ค.", "มิ.ย.",
                                     "ก.ค.", "ส.ค.", "ก.ย.", "ต.ค.", "พ.ย.", "ธ.ค."]

  /** The offset between the Buddhist and the Common Era. */
  const EraOffset := 543

  function ToBuddhistEra(gregorianYear: int): (be: int)
    ensures be - gregorianYear == EraOffset
  {
    gregorianYear + EraOffset
  }

  function FromBuddhistEra(buddhistYear: int): (ce: int)
    ensures buddhistYear - ce == EraOffset
  {
    buddhistYear - EraOffset
  }

  /** The two conversions undo each other. */
  lemma EraRoundTrip(year: int)
    ensures FromBuddhistEra(ToBuddhistEra(year)) == year
    ensures ToBuddhistEra(FromBuddhistEra(year)) == year
  {
  }

  datatype MonthFormat = Short | Long

  function MonthNames(format: MonthFormat): (names: seq<string>)
    ensures |names| == 12
  {
    if format == Short then MonthsShort else MonthsFull
  }

  /** `formatThaiMonth`: the month's name, or the thrown message for an index outside 0..11. */
  function FormatThaiMonth(monthIndex: int, format: MonthFormat): (r: Result<string, string>)
    ensures r.Ok? <==> 0 <= monthIndex <= 11
    ensures r.Ok? ==> r.value == MonthNames(format)[monthIndex]
    ensures r.Err? ==> r.error == "Month index must be between 0 and 11"
  {
    if monthIndex < 0 || monthIndex > 11 then Err("Month index must be between 0 and 11")
    else Ok(MonthNames(format)[monthIndex])
  }

  /** The era marker written before a Buddhist-era year. */
  const EraPrefix := "พ.ศ. "

  /** `formatThaiYear`: the era marker and the Buddhist-era year. */
  function FormatThaiYear(year: int): (s: string)
    ensures s == EraPrefix + IntToString(ToBuddhistEra(year))
  {
    EraPrefix + IntToString(ToBuddhistEra(year))
  }

  /** Reads a Buddhist-era year label back to the Common-Era year. */
  function ParseThaiYear(s: string): Option<int> {
    var prefix := EraPrefix;
    if |s| > |prefix| && s[..|prefix|] == prefix && AllDigits(s[|prefix|..]) then
      Some(FromBuddhistEra(DigitsValue(s[|prefix|..])))
    else None
  }

  /** From 543 BCE on, the Buddhist-era label gives the year back. */
  lemma ThaiYearRoundTrip(year: int)
    requires ToBuddhistEra(year) >= 0
    ensures ParseThaiYear(FormatThaiYear(year)) == Some(year)
  {
    var digits := NatToString(ToBuddhistEra(year));
    NatToStringValue(ToBuddhistEra(year));
    var s := FormatThaiYear(year);
    assert s == EraPrefix + digits;
    assert s[..|EraPrefix|] == EraPrefix && s[|EraPrefix|..] == digits;
  }

  /** `formatThaiDate`: day, month name and Buddhist-era year, separated by spaces. */
  function FormatThaiDate(day: nat, month: nat, year: int, format: MonthFormat): (s: string)
    requires month < 12
    ensures s == NatToString(day) + " " + FormatThaiMonth(month, format).value + " " + IntToString(ToBuddhistEra(year))
  {
    NatToString(day) + " " + MonthNames(format)[month] + " " + IntToString(ToBuddhistEra(year))
  }

  datatype MonthOption = MonthOption(value: nat, labelText: string)

  /** `getThaiMonthOptions`: values 1 to 12, labelled with the month names. */
  function GetThaiMonthOptions(format: MonthFormat): (options: seq<MonthOption>)
    ensures |options| == 12
    ensures forall k :: 0 <= k < 12 ==> options[k].value == k + 1
    ensures forall k :: 0 <= k < 12 ==> FormatThaiMonth(options[k].value - 1, format) == Ok(options[k].labelText)
  {
    seq(12, k requires 0 <= k < 12 => MonthOption(k + 1, MonthNames(format)[k]))
  }

  datatype YearOption = YearOption(value: int, labelText: string)

  /** The year options from `startYear` to `endYear`. */
  function YearOptions(startYear: int, endYear: int): (options: seq<YearOption>)
    ensures |options| == if endYear >= startYear then endYear - startYear + 1 else 0
  {
    var n := if endYear >= startYear then endYear - startYear + 1 else 0;
    seq(n, k requires 0 <= k < n => YearOption(startYear + k, IntToString(ToBuddhistEra(startYear + k))))
  }

  /** `getThaiYearOptions`: the `for` loop that pushes one option per year. */
  method GetThaiYearOptions(startYear: int, endYear: int) returns (options: seq<YearOption>)
    ensures options == YearOptions(startYear, endYear)
    ensures forall k :: 0 <= k < |options| ==> options[k].value == startYear + k <= endYear
    ensures forall k :: 0 <= k < |options| && ToBuddhistEra(options[k].value) >= 0 ==>
      AllDigits(options[k].labelText) && FromBuddhistEra(DigitsValue(options[k].labelText)) == options[k].value
  {
    options := [];
    var year := startYear;
    while year <= endYear
      invariant startYear <= year <= if endYear >= startYear then endYear + 1 else startYear
      invariant |options| == year - startYear
      invariant forall k :: 0 <= k < |options| ==>
        options[k] == YearOption(startYear + k, IntToString(ToBuddhistEra(startYear + k)))
      decreases endYear - year
    {
      options := options + [YearOption(year, IntToString(ToBuddhistEra(year)))];
      year := year + 1;
    }
    forall k | 0 <= k < |options| && ToBuddhistEra(options[k].value) >= 0
      ensures AllDigits(options[k].labelText) && FromBuddhistEra(DigitsValue(options[k].labelText)) == options[k].value
    {
      NatToStringValue(ToBuddhistEra(options[k].value));
    }
  }

  // ---------------------------------------------------------------------
  // ThaiDateFormatter.format

  datatype YearStyle = YearNumeric | YearTwoDigit
  datatype MonthStyle = MonthNumeric | MonthTwoDigit | MonthLong | MonthShort
  datatype DayStyle = DayNumeric | DayTwoDigit

  /** The `options` argument; an absent member takes its default. */
  datatype FormatOptions = FormatOptions(year: Option<YearStyle>, month: Option<MonthStyle>,
                                         day: Option<DayStyle>, era: Option<bool>)

  const NoOptions := FormatOptions(None, None, None, None)

  function DayPart(day: nat, style: DayStyle): (s: string)
    ensures |s| >= 1 && IsDigit(s[0])
  {
    match style
    case DayNumeric => NatToString(day)
    case DayTwoDigit => PadStart2(NatToString(day))
  }

  function MonthPart(month: nat, style: MonthStyle): string
    requires month < 12
  {
    match style
    case MonthLong => " " + MonthsFull[month]
    case MonthShort => " " + MonthsShort[month]
    case MonthNumeric => "/" + NatToString(month + 1)
    case MonthTwoDigit => "/" + PadStart2(NatToString(month + 1))
  }

  /** The year text: with the era, the Buddhist-era year after "พ.ศ."; without it, the Gregorian year. */
  function YearPart(year: int, style: YearStyle, era: bool): (s: string)
    ensures |s| >= 2 && IsDigit(s[|s| - 1])
  {
    var shown := if era then ToBuddhistEra(year) else year;
    var digits := if style == YearNumeric then IntToString(shown) else LastTwo(IntToString(shown));
    LastDigit(shown);
    " " + (if era then EraPrefix + digits else digits)
  }

  lemma LastDigit(i: int)
    ensures |IntToString(i)| >= 1 && IsDigit(IntToString(i)[|IntToString(i)| - 1])
  {
    var d := NatToString(if i < 0 then -i else i);
    assert IsDigit(d[|d| - 1]);
    if i < 0 {
      assert IntToString(i) == "-" + d;
    }
  }

  /** `format`, after merging the defaults: `result` built part by part, then trimmed. */
  function Format(day: nat, month: nat, year: int, options: FormatOptions): string
    requires month < 12
  {
    var dayStyle := if options.day.Some? then options.day.value else DayNumeric;
    var monthStyle := if options.month.Some? then options.month.value else MonthLong;
    var yearStyle := if options.year.Some? then options.year.value else YearNumeric;
    var era := if options.era.Some? then options.era.value else true;
    Trim(DayPart(day, dayStyle) + MonthPart(month, monthStyle) + YearPart(year, yearStyle, era))
  }

  /** `format` as written: the defaults merged, then `result` appended to part by part and trimmed. */
  method FormatDate(day: nat, month: nat, year: int, options: FormatOptions) returns (formatted: string)
    requires month < 12
    ensures formatted == Format(day, month, year, options)
  {
    var dayStyle := if options.day.Some? then options.day.value else DayNumeric;
    var monthStyle := if options.month.Some? then options.month.value else MonthLong;
    var yearStyle := if options.year.Some? then options.year.value else YearNumeric;
    var era := if options.era.Some? then options.era.value else true;
    var result := "";
    if dayStyle == DayNumeric {
      result := result + NatToString(day);
    } else {
      result := result + PadStart2(NatToString(day));
    }
    assert result == DayPart(day, dayStyle);
    var afterDay := result;
    if monthStyle == MonthLong {
      result := result + (" " + MonthsFull[month]);
    } else if monthStyle == MonthShort {
      result := result + (" " + MonthsShort[month]);
    } else if monthStyle == MonthNumeric {
      result := result + ("/" + NatToString(month + 1));
    } else {
      result := result + ("/" + PadStart2(NatToString(month + 1)));
    }
    assert result == afterDay + MonthPart(month, monthStyle);
    result := result + YearPart(year, yearStyle, era);
    formatted := Trim(result);
  }

  /**
   * The trim never removes anything: every result starts with the day's
   * digits and ends with a year digit.
   */
  lemma FormatUntrimmed(day: nat, month: nat, year: int, options: FormatOptions)
    requires month < 12
    ensures var dayStyle := if options.day.Some? then options.day.value else DayNumeric;
      var monthStyle := if options.month.Some? then options.month.value else MonthLong;
      var yearStyle := if options.year.Some? then options.year.value else YearNumeric;
      var era := if options.era.Some? then options.era.value else true;
      Format(day, month, year, options) == DayPart(day, dayStyle) + MonthPart(month, monthStyle) + YearPart(year, yearStyle, era)
  {
    var dayStyle := if options.day.Some? then options.day.value else DayNumeric;
    var monthStyle := if options.month.Some? then options.month.value else MonthLong;
    var yearStyle := if options.year.Some? then options.year.value else YearNumeric;
    var era := if options.era.Some? then options.era.value else true;
    TrimJoined(DayPart(day, dayStyle), MonthPart(month, monthStyle), YearPart(year, yearStyle, era));
  }

  /** Text that starts and ends with a digit loses nothing to the trim. */
  lemma TrimJoined(d: string, m: string, y: string)
    requires |d| >= 1 && IsDigit(d[0]) && |y| >= 1 && IsDigit(y[|y| - 1])
    ensures Trim(d + m + y) == d + m + y
  {
    var s := d + m + y;
    assert s[0] == d[0];
    assert s[|s| - 1] == y[|y| - 1];
    TrimUnspaced(s);
  }

  /**
   * With the default options the formatter gives `formatThaiDate`'s long
   * text except that the year carries the "พ.ศ." prefix of `formatThaiYear`.
   */
  lemma DefaultFormatIsLongDateWithEra(day: nat, month: nat, year: int)
    requires month < 12
    ensures Format(day, month, year, NoOptions) ==
      NatToString(day) + " " + FormatThaiMonth(month, Long).value + " " + FormatThaiYear(year)
  {
    FormatUntrimmed(day, month, year, NoOptions);
    var d := NatToString(day);
    var m := " " + MonthsFull[month];
    var y := " " + FormatThaiYear(year);
    assert MonthPart(month, MonthLong) == m;
    assert YearPart(year, YearNumeric, true) == y;
    SeparatedJoin(d, " ", MonthsFull[month], " ", FormatThaiYear(year));
  }

  lemma SeparatedJoin(d: string, s1: string, a: string, s2: string, b: string)
    ensures d + (s1 + a) + (s2 + b) == d + s1 + a + s2 + b
  {
  }

  /** So the default formatter's text is never `formatThaiDate`'s: it is longer by the era prefix. */
  lemma DefaultFormatLongerThanThaiDate(day: nat, month: nat, year: int)
    requires month < 12
    ensures |Format(day, month, year, NoOptions)| == |FormatThaiDate(day, month, year, Long)| + |EraPrefix|
  {
    DefaultFormatIsLongDateWithEra(day, month, year);
  }

  /** Reads "d/m y", the all-numeric Gregorian format, back to day, month index and year. */
  function ParseNumericDate(s: string): Option<(nat, nat, nat)> {
    var halves := Split(s, ' ');
    if |halves| != 2 then None
    else
      var dm := Split(halves[0], '/');
      if |dm| == 2 && AllDigits(dm[0]) && AllDigits(dm[1]) && AllDigits(halves[1]) && DigitsValue(dm[1]) >= 1 then
        Some((DigitsValue(dm[0]), DigitsValue(dm[1]) - 1, DigitsValue(halves[1])))
      else None
  }

  lemma DigitsFree(n: nat)
    ensures '/' !in NatToString(n) && ' ' !in NatToString(n)
  {
  }

  /** Two separator-free pieces joined by the separator split back into the pieces. */
  lemma SplitPair(a: string, c: char, b: string)
    requires c !in a && c !in b
    ensures Split(a + [c] + b, c) == [a, b]
  {
    SplitCons(a, c, b);
    SplitJoin([b], c);
  }

  /** The all-numeric format without the era. */
  const NumericOptions := FormatOptions(Some(YearNumeric), Some(MonthNumeric), Some(DayNumeric), Some(false))

  lemma NumericFormatText(day: nat, month: nat, year: nat)
    requires month < 12
    ensures Format(day, month, year, NumericOptions)
      == NatToString(day) + "/" + NatToString(month + 1) + " " + NatToString(year)
  {
    FormatUntrimmed(day, month, year, NumericOptions);
    assert MonthPart(month, MonthNumeric) == "/" + NatToString(month + 1);
    assert YearPart(year, YearNumeric, false) == " " + NatToString(year);
    SeparatedJoin(NatToString(day), "/", NatToString(month + 1), " ", NatToString(year));
  }

  /** The numeric format without the era loses nothing for years from 1 CE on. */
  lemma NumericFormatRoundTrip(day: nat, month: nat, year: nat)
    requires month < 12
    ensures ParseNumericDate(Format(day, month, year, NumericOptions)) == Some((day, month, year))
  {
    NumericFormatText(day, month, year);
    var d := NatToString(day);
    var m := NatToString(month + 1);
    var y := NatToString(year);
    var head := d + "/" + m;
    DigitsFree(day);
    DigitsFree(month + 1);
    DigitsFree(year);
    NatToStringValue(day);
    NatToStringValue(month + 1);
    NatToStringValue(year);
    assert ' ' !in head by {
      forall k | 0 <= k < |head| ensures head[k] != ' ' {
        if k < |d| { assert head[k] == d[k]; }
        else if k > |d| { assert head[k] == m[k - |d| - 1]; }
      }
    }
    SplitPair(head, ' ', y);
    SplitPair(d, '/', m);
  }
}
