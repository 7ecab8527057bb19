/**
 * src/routes/admin/activities/create/+page.server.ts: the
 * `activityCreateSchema` rules and refinements, and the default action
 * that turns a valid form into the activity sent to the API. Date parsing
 * (`new Date(...)`) is a parameter; `Number` is modelled on integer text
 * and `parseInt` on decimal and hexadecimal digits.
 */
module ActivityCreate {
  import opened Common

  /** `new Date(text).getTime()`, or None for an invalid date. */
  type DateParser = string -> Option<int>

  // ---------------------------------------------------------------------
  // Times

  /** `/^([01]?[0-9]|2[0-3]):[0-5][0-9]$/` */
  predicate TimeShape(s: string) {
    || (|s| == 4 && IsDigit(s[0]) && s[1] == ':' && '0' <= s[2] <= '5' && IsDigit(s[3]))
    || (|s| == 5 && s[2] == ':' && '0' <= s[3] <= '5' && IsDigit(s[4])
        && (('0' <= s[0] <= '1' && IsDigit(s[1])) || (s[0] == '2' && '0' <= s[1] <= '3')))
  }

  /** `const [h, m] = time.split(':').map(Number); h * 60 + m`, None where that is NaN. */
  function TimeMinutes(time: string): Option<int> {
    var parts := Split(time, ':');
    if |parts| < 2 then None
    else
      match (NumberOfString(parts[0]), NumberOfString(parts[1]))
      case (Some(h), Some(m)) => Some(h * 60 + m)
      case _ => None
  }

  /** "HH:MM" for an hour and a minute. */
  function TimeText(hour: nat, minute: nat): string
    requires hour < 24 && minute < 60
  {
    PadStart2(NatToString(hour)) + ":" + PadStart2(NatToString(minute))
  }

  /** The value of two digits. */
  lemma TwoDigitValue(s: string)
    requires |s| == 2 && AllDigits(s)
    ensures DigitsValue(s) == (s[0] as int - '0' as int) * 10 + (s[1] as int - '0' as int)
  {
    OneDigitValue(s[..1]);
  }

  /** The value of one digit. */
  lemma OneDigitValue(s: string)
    requires |s| == 1 && AllDigits(s)
    ensures DigitsValue(s) == s[0] as int - '0' as int
  {
    assert s[..0] == "";
  }

  /** A number below 100, zero-padded to two digits. */
  lemma TwoDigits(n: nat)
    requires n < 100
    ensures var s := PadStart2(NatToString(n));
      |s| == 2 && AllDigits(s) && (s[0] as int - '0' as int) == n / 10 && (s[1] as int - '0' as int) == n % 10
  {
    if n >= 10 {
      assert NatToString(n) == NatToString(n / 10) + [DigitChar(n % 10)];
      assert NatToString(n / 10) == [DigitChar(n / 10)];
    }
  }

  /** Every time of day written as "HH:MM" passes the regex and reads back as its minute of the day. */
  lemma TimeTextRoundTrip(hour: nat, minute: nat)
    requires hour < 24 && minute < 60
    ensures TimeShape(TimeText(hour, minute))
    ensures TimeMinutes(TimeText(hour, minute)) == Some(hour * 60 + minute)
  {
    var h := PadStart2(NatToString(hour));
    var m := PadStart2(NatToString(minute));
    TwoDigits(hour);
    TwoDigits(minute);
    TwoDigitValue(h);
    TwoDigitValue(m);
    var s := TimeText(hour, minute);
    assert s == h + [':'] + m;
    assert s[0] == h[0] && s[1] == h[1] && s[2] == ':' && s[3] == m[0] && s[4] == m[1];
    SplitCons(h, ':', m);
    assert Split(m, ':') == [m];
    assert DigitsValue(h) == hour && DigitsValue(m) == minute;
    PartsMinutes(s, h, m, hour, minute);
  }

  /** A time that passes the regex is a minute of the day. */
  lemma ShapedTimeInDay(time: string)
    requires TimeShape(time)
    ensures TimeMinutes(time).Some? && TimeMinutes(time).value < 24 * 60
  {
    var colon := if |time| == 4 then 1 else 2;
    var h := time[..colon];
    var m := time[colon + 1..];
    assert time == h + [':'] + m;
    SplitCons(h, ':', m);
    assert Split(m, ':') == [m];
    TwoDigitValue(m);
    if colon == 2 {
      TwoDigitValue(h);
    } else {
      OneDigitValue(h);
    }
  }

  /** Two times whose parts `Number` reads alike read as the same minute. */
  lemma SameParts(a: string, b: string)
    requires |Split(a, ':')| >= 2 && |Split(b, ':')| >= 2
    requires NumberOfString(Split(a, ':')[0]) == NumberOfString(Split(b, ':')[0])
    requires Split(a, ':')[1] == Split(b, ':')[1]
    ensures TimeMinutes(a) == TimeMinutes(b)
  {
  }

  /** A time whose first two parts are the numbers x and y reads as x * 60 + y. */
  lemma PartsMinutes(time: string, a: string, b: string, x: int, y: int)
    requires |Split(time, ':')| >= 2 && Split(time, ':')[0] == a && Split(time, ':')[1] == b
    requires NumberOfString(a) == Some(x) && NumberOfString(b) == Some(y)
    ensures TimeMinutes(time) == Some(x * 60 + y)
  {
  }

  /**
   * `Number` ignores surrounding whitespace, so a time with a leading space
   * still reads as its minute for the refinement, although the regex refuses it.
   */
  lemma LeadingSpaceIgnored(time: string)
    requires TimeShape(time)
    ensures !TimeShape(" " + time)
    ensures TimeMinutes(" " + time) == TimeMinutes(time)
  {
    var colon := if |time| == 4 then 1 else 2;
    var h, m := time[..colon], time[colon + 1..];
    assert time == h + [':'] + m;
    assert " " + time == " " + h + [':'] + m;
    SpacedHours(h, m);
  }

  /** A space before digit hours changes neither part of the split. */
  lemma SpacedHours(h: string, m: string)
    requires h != "" && IsDigit(h[0]) && IsDigit(h[|h| - 1]) && ':' !in h
    ensures TimeMinutes(" " + h + [':'] + m) == TimeMinutes(h + [':'] + m)
  {
    SpacedSplit(h, m);
    NumberOfSpaced(h);
    SameParts(" " + h + [':'] + m, h + [':'] + m);
  }

  lemma SpacedSplit(h: string, m: string)
    requires ':' !in h
    ensures Split(h + [':'] + m, ':') == [h] + Split(m, ':')
    ensures Split(" " + h + [':'] + m, ':') == [" " + h] + Split(m, ':')
  {
    assert ':' !in " " + h;
    SplitCons(h, ':', m);
    SplitCons(" " + h, ':', m);
  }

  /** The sample: " 9:00" reads as nine o'clock, before "10:00". */
  lemma PaddedStartTimeOrdered()
    ensures TimeMinutes(" 9:00") == Some(9 * 60) && TimeMinutes("10:00") == Some(10 * 60)
  {
    SampleTexts();
    SampleNumbers();
    PartsMinutes(" 9:00", " 9", "00", 9, 0);
    PartsMinutes("10:00", "10", "00", 10, 0);
  }

  /**
   * Start " 9:00" and end "10:00" on one day: the start fails the time regex,
   * yet the refinement sees 9:00 before 10:00 and adds no end-time issue.
   */
  lemma PaddedStartPassesRefinement(f: CreateForm)
    requires f.startDate == f.endDate && f.startTime == " 9:00" && f.endTime == "10:00"
    ensures !TimeShape(f.startTime) && TimesOrdered(f)
  {
    PaddedStartTimeOrdered();
  }

  lemma SampleNumbers()
    ensures NumberOfString(" 9") == Some(9) && NumberOfString("10") == Some(10) && NumberOfString("00") == Some(0)
  {
    assert "00"[..1] == "0" && "10"[..1] == "1" && "0"[..0] == "" && "1"[..0] == "" && "9"[..0] == "";
    NumberOfSpaced("9");
    assert " " + "9" == " 9";
  }

  lemma SampleTexts()
    ensures Split(" 9:00", ':') == [" 9", "00"] && Split("10:00", ':') == ["10", "00"]
  {
    assert Split("00", ':') == ["00"];
    SplitCons(" 9", ':', "00");
    SplitCons("10", ':', "00");
    assert " 9" + [':'] + "00" == " 9:00" && "10" + [':'] + "00" == "10:00";
  }

  // ---------------------------------------------------------------------
  // Other field parsers

  /**
   * `parseInt(s)` without a radix, as section 21.1.2.13 of ECMAScript 2023
   * defines it: leading whitespace and one sign are skipped, a `0x` or `0X`
   * prefix selects base 16, and the longest run of digits of the base is
   * read; None for NaN, when that run is empty.
   */
  function ParseInt(s: string): Option<int> {
    var t := TrimStart(s);
    var negative := |t| > 0 && t[0] == '-';
    var body := if |t| > 0 && (t[0] == '+' || t[0] == '-') then t[1..] else t;
    var magnitude := if HexPrefixed(body) then ParseHex(body[2..]) else ParseDecimal(body);
    if magnitude.None? then None
    else
      var m: int := magnitude.value;
      Some(if negative then -m else m)
  }

  predicate HexPrefixed(body: string) {
    |body| >= 2 && body[0] == '0' && (body[1] == 'x' || body[1] == 'X')
  }

  /** The leading decimal digits' value, or None when there are none. */
  function ParseDecimal(body: string): (v: Option<nat>)
    ensures v.None? <==> LeadingDigits(body) == ""
  {
    var digits := LeadingDigits(body);
    if digits == "" then None else Some(DigitsValue(digits))
  }

  /** The leading hexadecimal digits' value, or None when there are none. */
  function ParseHex(body: string): (v: Option<nat>)
    ensures v.None? <==> LeadingHexDigits(body) == ""
  {
    var digits := LeadingHexDigits(body);
    if digits == "" then None else Some(HexValue(digits))
  }

  /** On plain digit text `parseInt` reads the number the digits write. */
  lemma ParseIntOfDigits(s: string)
    ensures |s| > 0 && AllDigits(s) ==> ParseInt(s) == Some(DigitsValue(s))
  {
    if |s| > 0 && AllDigits(s) {
      assert TrimStart(s) == s;
      LeadingDigitsOfDigits(s);
      assert !HexPrefixed(s) by {
        if |s| >= 2 {
          assert IsDigit(s[1]);
        }
      }
    }
  }

  /** After `0x`, `parseInt` reads the hexadecimal digits; `0x` alone is NaN. */
  lemma {:induction false} ParseIntOfHex(h: string)
    requires forall k :: 0 <= k < |h| ==> HexDigit(h[k])
    ensures ParseInt("0x" + h) == if h == "" then None else Some(HexValue(h))
  {
    var s := "0x" + h;
    assert TrimStart(s) == s;
    assert s[2..] == h;
    LeadingHexDigitsOfHex(h);
  }

  /** So a max-participants text of `0x10` is sixteen. */
  lemma HexTextExample()
    ensures ParseInt("0x10") == Some(16)
  {
    assert HexValue("10") == 16 by {
      assert "10"[..1] == "1" && "1"[..0] == "";
    }
    ParseIntOfHex("10");
    assert "0x" + "10" == "0x10";
  }

  /** And a bare `0x` is NaN. */
  lemma BareHexPrefixExample()
    ensures ParseInt("0x") == None
  {
    ParseIntOfHex("");
    assert "0x" + "" == "0x";
  }

  function HexDigitValue(c: char): (v: nat)
    requires HexDigit(c)
    ensures v < 16
  {
    if '0' <= c <= '9' then c as int - '0' as int
    else if 'a' <= c <= 'f' then c as int - 'a' as int + 10
    else c as int - 'A' as int + 10
  }

  /** The value of hexadecimal digit text, most significant digit first. */
  function HexValue(s: string): nat
    requires forall k :: 0 <= k < |s| ==> HexDigit(s[k])
    decreases |s|
  {
    if |s| == 0 then 0 else HexValue(s[..|s| - 1]) * 16 + HexDigitValue(s[|s| - 1])
  }

  function LeadingHexDigits(s: string): (d: string)
    ensures d <= s && forall k :: 0 <= k < |d| ==> HexDigit(d[k])
    decreases |s|
  {
    if |s| > 0 && HexDigit(s[0]) then [s[0]] + LeadingHexDigits(s[1..]) else ""
  }

  lemma {:induction false} LeadingHexDigitsOfHex(s: string)
    requires forall k :: 0 <= k < |s| ==> HexDigit(s[k])
    ensures LeadingHexDigits(s) == s
    decreases |s|
  {
    if |s| > 0 {
      LeadingHexDigitsOfHex(s[1..]);
    }
  }

  function LeadingDigits(s: string): (d: string)
    ensures d <= s && AllDigits(d)
    decreases |s|
  {
    if |s| > 0 && IsDigit(s[0]) then [s[0]] + LeadingDigits(s[1..]) else ""
  }

  lemma {:induction false} LeadingDigitsOfDigits(s: string)
    ensures AllDigits(s) ==> LeadingDigits(s) == s
    decreases |s|
  {
    if |s| > 0 {
      LeadingDigitsOfDigits(s[1..]);
    }
  }

  /** The non-blank pieces of a comma-separated list: exactly those, in order. */
  function NonBlankPieces(pieces: seq<string>): (kept: seq<string>)
    ensures |kept| <= |pieces|
    ensures forall k :: 0 <= k < |kept| ==> Trim(kept[k]) != "" && kept[k] in pieces
    ensures forall p :: p in kept <==> p in pieces && Trim(p) != ""
    ensures IsSubsequence(kept, pieces)
    ensures (forall k :: 0 <= k < |pieces| ==> Trim(pieces[k]) == "") <==> kept == []
    decreases |pieces|
  {
    if |pieces| == 0 then []
    else
      var rest := NonBlankPieces(pieces[1..]);
      assert forall p :: p in pieces <==> p == pieces[0] || p in pieces[1..];
      if Trim(pieces[0]) != "" then
        assert ([pieces[0]] + rest)[1..] == rest;
        [pieces[0]] + rest
      else
        assert (forall k :: 0 <= k < |pieces| ==> Trim(pieces[k]) == "")
          <==> (forall k :: 0 <= k < |pieces| - 1 ==> Trim(pieces[1..][k]) == "");
        SubsequenceOfTail(rest, pieces);
        rest
  }

  /** The filter keeps each non-blank piece as often as it occurs, and drops every blank one. */
  lemma {:induction false} NonBlankKeepsCounts(pieces: seq<string>)
    ensures forall p :: multiset(NonBlankPieces(pieces))[p] == if Trim(p) != "" then multiset(pieces)[p] else 0
    decreases |pieces|
  {
    if |pieces| > 0 {
      NonBlankKeepsCounts(pieces[1..]);
      assert pieces == [pieces[0]] + pieces[1..];
    }
  }

  /** `value.split(',').filter(f => f.trim() !== '')` */
  function EligibleOrganizations(value: string): seq<string> {
    NonBlankPieces(Split(value, ','))
  }

  // ---------------------------------------------------------------------
  // activityCreateSchema

  const ActivityTypes: seq<string> := ["Academic", "Sports", "Cultural", "Social", "Other"]

  datatype CreateForm = CreateForm(activityName: string, description: Option<string>, startDate: string,
                                   endDate: string, startTime: string, endTime: string, activityType: string,
                                   location: string, maxParticipants: Option<string>, hours: string,
                                   organizer: string, eligibleOrganizations: string, academicYear: string)

  /** The hours refinement, `parseInt(v) > 0`. */
  predicate PositiveHours(v: string) {
    var n := ParseInt(v);
    n.Some? && n.value > 0
  }

  const TimeFormatMessage := "รูปแบบเวลาไม่ถูกต้อง (ต้องเป็น HH:MM)"

  /** `activity_name`: 1 to 255 characters. */
  function NameIssues(f: CreateForm): (issues: seq<Issue>)
    ensures issues == [] <==> 1 <= |f.activityName| <= 255
  {
    Check(|f.activityName| >= 1, "activity_name", "กรุณากรอกชื่อกิจกรรม")
    + Check(|f.activityName| <= 255, "activity_name", "ชื่อกิจกรรมต้องไม่เกิน 255 ตัวอักษร")
  }

  /** `description`: optional, at most 2000 characters. */
  function DescriptionIssues(f: CreateForm): (issues: seq<Issue>)
    ensures issues == [] <==> f.description.None? || |f.description.value| <= 2000
  {
    Check(f.description.None? || |f.description.value| <= 2000, "description", "รายละเอียดต้องไม่เกิน 2000 ตัวอักษร")
  }

  /** `start_date` and `end_date`: present and parseable. */
  function DateIssues(f: CreateForm, parseDate: DateParser): (issues: seq<Issue>)
    ensures issues == [] <==>
      |f.startDate| >= 1 && parseDate(f.startDate).Some? && |f.endDate| >= 1 && parseDate(f.endDate).Some?
  {
    Check(|f.startDate| >= 1, "start_date", "กรุณาเลือกวันที่เริ่ม")
    + Check(parseDate(f.startDate).Some?, "start_date", "วันที่เริ่มไม่ถูกต้อง")
    + Check(|f.endDate| >= 1, "end_date", "กรุณาเลือกวันที่สิ้นสุด")
    + Check(parseDate(f.endDate).Some?, "end_date", "วันที่สิ้นสุดไม่ถูกต้อง")
  }

  /** `start_time` and `end_time`: present and shaped like a time of day. */
  function TimeIssues(f: CreateForm): (issues: seq<Issue>)
    ensures issues == [] <==> TimeShape(f.startTime) && TimeShape(f.endTime)
  {
    Check(|f.startTime| >= 1, "start_time", "กรุณากรอกเวลาเริ่ม")
    + Check(TimeShape(f.startTime), "start_time", TimeFormatMessage)
    + Check(|f.endTime| >= 1, "end_time", "กรุณากรอกเวลาสิ้นสุด")
    + Check(TimeShape(f.endTime), "end_time", TimeFormatMessage)
  }

  /** `location`: 1 to 500 characters. */
  function LocationIssues(f: CreateForm): (issues: seq<Issue>)
    ensures issues == [] <==> 1 <= |f.location| <= 500
  {
    Check(|f.location| >= 1, "location", "กรุณากรอกสถานที่")
    + Check(|f.location| <= 500, "location", "สถานที่ต้องไม่เกิน 500 ตัวอักษร")
  }

  /** `hours`: a positive whole number written in digits. */
  function HoursIssues(f: CreateForm): (issues: seq<Issue>)
    ensures issues == [] <==> |f.hours| > 0 && AllDigits(f.hours) && DigitsValue(f.hours) > 0
  {
    ParseIntOfDigits(f.hours);
    Check(|f.hours| >= 1, "hours", "กรุณากรอกจำนวนชั่วโมง")
    + Check(|f.hours| > 0 && AllDigits(f.hours), "hours", "ชั่วโมงต้องเป็นจำนวนเต็ม")
    + Check(PositiveHours(f.hours), "hours", "ชั่วโมงต้องมากกว่า 0")
  }

  /** `organizer`: 1 to 255 characters. */
  function OrganizerIssues(f: CreateForm): (issues: seq<Issue>)
    ensures issues == [] <==> 1 <= |f.organizer| <= 255
  {
    Check(|f.organizer| >= 1, "organizer", "กรุณากรอกหน่วยงานที่จัดกิจกรรม")
    + Check(|f.organizer| <= 255, "organizer", "ชื่อหน่วยงานต้องไม่เกิน 255 ตัวอักษร")
  }

  /** `eligible_organizations`: at least one non-blank entry in the list. */
  function EligibleIssues(f: CreateForm): (issues: seq<Issue>)
    ensures issues == [] <==> EligibleOrganizations(f.eligibleOrganizations) != []
  {
    EmptyListHasNoEntry();
    Check(|f.eligibleOrganizations| >= 1, "eligible_organizations", "กรุณาเลือกหน่วยงานที่สามารถเข้าร่วมได้")
    + Check(EligibleOrganizations(f.eligibleOrganizations) != [], "eligible_organizations", "กรุณาเลือกอย่างน้อย 1 หน่วยงาน")
  }

  lemma EmptyListHasNoEntry()
    ensures EligibleOrganizations("") == []
  {
    assert Split("", ',') == [""];
    assert Trim("") == "";
  }

  /** Every field rule, in the schema's order. */
  function FieldIssues(f: CreateForm, parseDate: DateParser): seq<Issue> {
    NameIssues(f) + DescriptionIssues(f) + DateIssues(f, parseDate) + TimeIssues(f)
    + Check(f.activityType in ActivityTypes, "activity_type", "กรุณาเลือกประเภทกิจกรรม")
    + LocationIssues(f) + HoursIssues(f) + OrganizerIssues(f) + EligibleIssues(f)
    + Check(|f.academicYear| >= 1, "academic_year", "กรุณาเลือกปีการศึกษา")
  }

  /** The first refinement: the end date is not before the start date (an invalid date fails). */
  predicate DatesOrdered(f: CreateForm, parseDate: DateParser) {
    parseDate(f.startDate).Some? && parseDate(f.endDate).Some? && parseDate(f.endDate).value >= parseDate(f.startDate).value
  }

  /** The second refinement: on a single day the end time is after the start time. */
  predicate TimesOrdered(f: CreateForm) {
    f.startDate == f.endDate ==>
      TimeMinutes(f.startTime).Some? && TimeMinutes(f.endTime).Some? && TimeMinutes(f.endTime).value > TimeMinutes(f.startTime).value
  }

  /** The refinements run only when `activity_type` is one of the enum's values. */
  function RefinementIssues(f: CreateForm, parseDate: DateParser): (issues: seq<Issue>)
    ensures f.activityType in ActivityTypes ==> (issues == [] <==> DatesOrdered(f, parseDate) && TimesOrdered(f))
  {
    if f.activityType !in ActivityTypes then []
    else Check(DatesOrdered(f, parseDate), "end_date", "วันที่สิ้นสุดต้องไม่น้อยกว่าวันที่เริ่มต้น")
         + Check(TimesOrdered(f), "end_time", "เวลาสิ้นสุดต้องมากกว่าเวลาเริ่มต้น")
  }

  function SchemaIssues(f: CreateForm, parseDate: DateParser): seq<Issue> {
    FieldIssues(f, parseDate) + RefinementIssues(f, parseDate)
  }

  /** Every rule of the schema, field by field, then the two orderings. */
  predicate FormValid(f: CreateForm, parseDate: DateParser) {
    && 1 <= |f.activityName| <= 255
    && (f.description.None? || |f.description.value| <= 2000)
    && |f.startDate| >= 1 && |f.endDate| >= 1 && DatesOrdered(f, parseDate)
    && TimeShape(f.startTime) && TimeShape(f.endTime) && TimesOrdered(f)
    && f.activityType in ActivityTypes
    && 1 <= |f.location| <= 500
    && |f.hours| > 0 && AllDigits(f.hours) && DigitsValue(f.hours) > 0
    && 1 <= |f.organizer| <= 255
    && EligibleOrganizations(f.eligibleOrganizations) != []
    && |f.academicYear| >= 1
  }

  /** The schema reports no issue exactly when the form meets every rule. */
  lemma NoIssuesIffValid(f: CreateForm, parseDate: DateParser)
    ensures SchemaIssues(f, parseDate) == [] <==> FormValid(f, parseDate)
  {
  }

  /** On one day, equal start and end times are refused, however the dates parse. */
  lemma SameMinuteRefused(f: CreateForm, parseDate: DateParser)
    requires f.startDate == f.endDate && f.startTime == f.endTime
    ensures !FormValid(f, parseDate)
  {
  }

  // ---------------------------------------------------------------------
  // The default action

  /**
   * The body posted to /api/admin/activities. `hours` and `maxParticipants`
   * hold `parseInt`'s result, None standing for NaN and for `null`, which
   * `JSON.stringify` writes alike.
   */
  datatype ActivityData = ActivityData(activityName: string, description: string, startDate: string, endDate: string,
                                       startTime: string, endTime: string, activityType: string, location: string,
                                       maxParticipants: Option<int>, hours: Option<int>, organizer: string,
                                       eligibleOrganizations: seq<string>, academicYear: string)

  /**
   * `activityData`: the text fields as the form has them, a blank description
   * as "", max participants and hours as `parseInt` reads them (no max and
   * 1 hour when the text is empty), and the non-blank organization pieces.
   */
  function ActivityDataOf(f: CreateForm): (d: ActivityData)
    ensures d.activityName == f.activityName && d.location == f.location && d.organizer == f.organizer
    ensures d.startDate == f.startDate && d.endDate == f.endDate
    ensures d.startTime == f.startTime && d.endTime == f.endTime
    ensures d.activityType == f.activityType && d.academicYear == f.academicYear
    ensures d.description == "" || (f.description == Some(d.description) && Trim(d.description) != "")
    ensures f.description.Some? && Trim(f.description.value) != "" ==> d.description == f.description.value
    ensures f.maxParticipants.None? || f.maxParticipants == Some("") ==> d.maxParticipants.None?
    ensures f.maxParticipants.Some? && f.maxParticipants.value != "" ==> d.maxParticipants == ParseInt(f.maxParticipants.value)
    ensures f.hours == "" ==> d.hours == Some(1)
    ensures f.hours != "" ==> d.hours == ParseInt(f.hours)
    ensures forall o :: o in d.eligibleOrganizations <==> o in Split(f.eligibleOrganizations, ',') && Trim(o) != ""
    ensures IsSubsequence(d.eligibleOrganizations, Split(f.eligibleOrganizations, ','))
  {
    var organizations := if f.eligibleOrganizations != "" then EligibleOrganizations(f.eligibleOrganizations) else [];
    assert f.eligibleOrganizations == "" ==> Split(f.eligibleOrganizations, ',') == [""] && Trim("") == "";
    ActivityData(f.activityName,
                 if f.description.Some? && Trim(f.description.value) != "" then f.description.value else "",
                 f.startDate, f.endDate, f.startTime, f.endTime, f.activityType, f.location,
                 if f.maxParticipants.Some? && f.maxParticipants.value != "" then ParseInt(f.maxParticipants.value) else None,
                 if f.hours != "" then ParseInt(f.hours) else Some(1),
                 f.organizer, organizations, f.academicYear)
  }

  /** The organizations sent are the non-blank pieces, each as often as the form lists it. */
  lemma ActivityDataCounts(f: CreateForm)
    ensures forall o :: multiset(ActivityDataOf(f).eligibleOrganizations)[o]
                     == if Trim(o) != "" then multiset(Split(f.eligibleOrganizations, ','))[o] else 0
  {
    NonBlankKeepsCounts(Split(f.eligibleOrganizations, ','));
    assert f.eligibleOrganizations == "" ==> Split(f.eligibleOrganizations, ',') == [""] && Trim("") == "";
  }

  /** A valid form sends positive whole hours and at least one organization, none of them blank. */
  lemma ValidFormData(f: CreateForm, parseDate: DateParser)
    requires FormValid(f, parseDate)
    ensures ActivityDataOf(f).hours == Some(DigitsValue(f.hours)) && DigitsValue(f.hours) > 0
    ensures ActivityDataOf(f).eligibleOrganizations != []
    ensures forall o :: o in ActivityDataOf(f).eligibleOrganizations ==> Trim(o) != ""
  {
    EmptyListHasNoEntry();
    ParseIntOfDigits(f.hours);
  }

  /** How the API call ended: success, an error reply with its parsed body, or a throw. */
  datatype ApiOutcome = ApiOk | ApiFailed(status: int, error: Option<string>, message: Option<string>) | ApiThrew

  datatype ActionResult = Created | Failed(status: int, error: string)

  /** The default action, after the admin gate. */
  function CreateAction(f: CreateForm, parseDate: DateParser, post: ActivityData -> ApiOutcome): (r: ActionResult)
    ensures !FormValid(f, parseDate) ==> r == Failed(400, "ข้อมูลไม่ถูกต้อง กรุณาตรวจสอบอีกครั้ง")
    ensures r == Created <==> FormValid(f, parseDate) && post(ActivityDataOf(f)).ApiOk?
    ensures FormValid(f, parseDate) && post(ActivityDataOf(f)).ApiThrew? ==> r == Failed(500, "เกิดข้อผิดพลาดภายในเซิร์ฟเวอร์")
    ensures FormValid(f, parseDate) && post(ActivityDataOf(f)).ApiFailed? ==>
      r == Failed(post(ActivityDataOf(f)).status,
                  if Truthy(post(ActivityDataOf(f)).error) then post(ActivityDataOf(f)).error.value
                  else OrElse(post(ActivityDataOf(f)).message, "เกิดข้อผิดพลาดในการสร้างกิจกรรม"))
  {
    NoIssuesIffValid(f, parseDate);
    if SchemaIssues(f, parseDate) != [] then Failed(400, "ข้อมูลไม่ถูกต้อง กรุณาตรวจสอบอีกครั้ง")
    else
      match post(ActivityDataOf(f))
      case ApiOk => Created
      case ApiThrew => Failed(500, "เกิดข้อผิดพลาดภายในเซิร์ฟเวอร์")
      case ApiFailed(status, error, message) =>
        Failed(status, if Truthy(error) then error.value else OrElse(message, "เกิดข้อผิดพลาดในการสร้างกิจกรรม"))
  }
}
