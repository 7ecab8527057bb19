/**
 * Scan-outcome classification used by the scanner UI
 * (src/lib/utils/qr-status.ts): the status codes, their categories, the
 * normalisation of API error codes, the standardised scan result, the
 * detail lines and the Thai status texts.
 */
module QrStatus {
  import opened Common

  datatype StatusCategory = Success | AlreadyDone | Restricted | FlowViolation | Error

  datatype StatusCode =
    | CheckinSuccess | CheckoutSuccess
    | AlreadyCheckedIn | AlreadyCheckedOut | AlreadyCompleted | RepeatedDuplicateAttempt
    | FacultyRestriction | ActivityNotOngoing | ActivityExpired | ActivityNotStarted
    | MaxParticipantsReached | NotCheckedIn | NotCheckedInYet | StudentAccountInactive
    | QrExpired | InvalidCheckoutStatus
    | ActivityNotFound | StudentNotFound | QrInvalid | DepartmentNotFound | NoDepartment
    | AuthError | ValidationError | InternalError

  /** The code as it is spelled on the wire. */
  function CodeName(c: StatusCode): string {
    match c
    case CheckinSuccess => "CHECKIN_SUCCESS"
    case CheckoutSuccess => "CHECKOUT_SUCCESS"
    case AlreadyCheckedIn => "ALREADY_CHECKED_IN"
    case AlreadyCheckedOut => "ALREADY_CHECKED_OUT"
    case AlreadyCompleted => "ALREADY_COMPLETED"
    case RepeatedDuplicateAttempt => "REPEATED_DUPLICATE_ATTEMPT"
    case FacultyRestriction => "FACULTY_RESTRICTION"
    case ActivityNotOngoing => "ACTIVITY_NOT_ONGOING"
    case ActivityExpired => "ACTIVITY_EXPIRED"
    case ActivityNotStarted => "ACTIVITY_NOT_STARTED"
    case MaxParticipantsReached => "MAX_PARTICIPANTS_REACHED"
    case NotCheckedIn => "NOT_CHECKED_IN"
    case NotCheckedInYet => "NOT_CHECKED_IN_YET"
    case StudentAccountInactive => "STUDENT_ACCOUNT_INACTIVE"
    case QrExpired => "QR_EXPIRED"
    case InvalidCheckoutStatus => "INVALID_CHECKOUT_STATUS"
    case ActivityNotFound => "ACTIVITY_NOT_FOUND"
    case StudentNotFound => "STUDENT_NOT_FOUND"
    case QrInvalid => "QR_INVALID"
    case DepartmentNotFound => "DEPARTMENT_NOT_FOUND"
    case NoDepartment => "NO_DEPARTMENT"
    case AuthError => "AUTH_ERROR"
    case ValidationError => "VALIDATION_ERROR"
    case InternalError => "INTERNAL_ERROR"
  }

  /** The `category` of each entry of `STATUS_CONFIG`. */
  function Category(c: StatusCode): StatusCategory {
    match c
    case CheckinSuccess | CheckoutSuccess | AlreadyCheckedIn | AlreadyCheckedOut => Success
    case AlreadyCompleted => FlowViolation
    case RepeatedDuplicateAttempt => AlreadyDone
    case FacultyRestriction | ActivityNotOngoing | ActivityExpired | ActivityNotStarted
       | MaxParticipantsReached | NotCheckedIn | NotCheckedInYet | StudentAccountInactive
       | QrExpired | InvalidCheckoutStatus => Restricted
    case ActivityNotFound | StudentNotFound | QrInvalid | DepartmentNotFound | NoDepartment
       | AuthError | ValidationError | InternalError => Error
  }

  /** The categories the scanner UI relies on for repeated and refused scans. */
  lemma CategoryTable()
    ensures Category(AlreadyCheckedIn) == Success && Category(AlreadyCheckedOut) == Success
    ensures Category(AlreadyCompleted) == FlowViolation
    ensures Category(NotCheckedIn) == Restricted && Category(NotCheckedInYet) == Restricted
    ensures Category(QrExpired) == Restricted
    ensures Category(StudentNotFound) == Error && Category(QrInvalid) == Error
  {
  }

  /** `mapApiErrorToStatusCode`: the table, with 'INTERNAL_ERROR' for anything else. */
  function MapApiErrorToStatusCode(api: string): (c: StatusCode)
    ensures c != CheckinSuccess && c != CheckoutSuccess
  {
    match api
    case "ALREADY_CHECKED_IN" => AlreadyCheckedIn
    case "ALREADY_CHECKED_OUT" => AlreadyCheckedOut
    case "ALREADY_COMPLETED" => AlreadyCompleted
    case "REPEATED_DUPLICATE_ATTEMPT" => RepeatedDuplicateAttempt
    case "FACULTY_RESTRICTION" => FacultyRestriction
    case "NOT_ONGOING" => ActivityNotOngoing
    case "ACTIVITY_NOT_ONGOING" => ActivityNotOngoing
    case "ACTIVITY_EXPIRED" => ActivityExpired
    case "ACTIVITY_NOT_STARTED" => ActivityNotStarted
    case "MAX_PARTICIPANTS_REACHED" => MaxParticipantsReached
    case "NOT_REGISTERED" => NotCheckedIn
    case "NOT_CHECKED_IN" => NotCheckedIn
    case "NOT_CHECKED_IN_YET" => NotCheckedInYet
    case "STUDENT_ACCOUNT_INACTIVE" => StudentAccountInactive
    case "QR_EXPIRED" => QrExpired
    case "INVALID_STATUS" => InvalidCheckoutStatus
    case "INVALID_CHECKOUT_STATUS" => InvalidCheckoutStatus
    case "NOT_FOUND" => ActivityNotFound
    case "ACTIVITY_NOT_FOUND" => ActivityNotFound
    case "USER_NOT_FOUND" => StudentNotFound
    case "STUDENT_NOT_FOUND" => StudentNotFound
    case "QR_INVALID" => QrInvalid
    case "DEPARTMENT_NOT_FOUND" => DepartmentNotFound
    case "NO_DEPARTMENT" => NoDepartment
    case "AUTH_ERROR" => AuthError
    case "VALIDATION_ERROR" => ValidationError
    case "INTERNAL_ERROR" => InternalError
    case _ => InternalError
  }

  /** The names the table knows. */
  const ApiNames: set<string> := {
    "ALREADY_CHECKED_IN", "ALREADY_CHECKED_OUT", "ALREADY_COMPLETED", "REPEATED_DUPLICATE_ATTEMPT",
    "FACULTY_RESTRICTION", "NOT_ONGOING", "ACTIVITY_NOT_ONGOING", "ACTIVITY_EXPIRED",
    "ACTIVITY_NOT_STARTED", "MAX_PARTICIPANTS_REACHED", "NOT_REGISTERED", "NOT_CHECKED_IN",
    "NOT_CHECKED_IN_YET", "STUDENT_ACCOUNT_INACTIVE", "QR_EXPIRED", "INVALID_STATUS",
    "INVALID_CHECKOUT_STATUS", "NOT_FOUND", "ACTIVITY_NOT_FOUND", "USER_NOT_FOUND",
    "STUDENT_NOT_FOUND", "QR_INVALID", "DEPARTMENT_NOT_FOUND", "NO_DEPARTMENT",
    "AUTH_ERROR", "VALIDATION_ERROR", "INTERNAL_ERROR"}

  /** On every code but the two success codes the mapping is the identity. */
  lemma MapIsIdentity(c: StatusCode)
    requires c != CheckinSuccess && c != CheckoutSuccess
    ensures MapApiErrorToStatusCode(CodeName(c)) == c
  {
    if Category(c) == Success || Category(c) == AlreadyDone || Category(c) == FlowViolation {
      RepeatedCodesAreIdentity(c);
    } else if c in {FacultyRestriction, ActivityNotOngoing, ActivityExpired, ActivityNotStarted} {
      TimingCodesAreIdentity(c);
    } else if c in {MaxParticipantsReached, NotCheckedIn, NotCheckedInYet} {
      EntryCodesAreIdentity(c);
    } else if c in {StudentAccountInactive, QrExpired, InvalidCheckoutStatus} {
      StateCodesAreIdentity(c);
    } else if c in {ActivityNotFound, StudentNotFound} {
      NotFoundCodesAreIdentity(c);
    } else if c in {QrInvalid, DepartmentNotFound} {
      LookupCodesAreIdentity(c);
    } else if c in {NoDepartment, AuthError} {
      AccountCodesAreIdentity(c);
    } else {
      ErrorCodesAreIdentity(c);
    }
  }

  lemma RepeatedCodesAreIdentity(c: StatusCode)
    requires c in {AlreadyCheckedIn, AlreadyCheckedOut, AlreadyCompleted, RepeatedDuplicateAttempt}
    ensures MapApiErrorToStatusCode(CodeName(c)) == c
  {
  }

  lemma TimingCodesAreIdentity(c: StatusCode)
    requires c in {FacultyRestriction, ActivityNotOngoing, ActivityExpired, ActivityNotStarted}
    ensures MapApiErrorToStatusCode(CodeName(c)) == c
  {
  }

  lemma EntryCodesAreIdentity(c: StatusCode)
    requires c in {MaxParticipantsReached, NotCheckedIn, NotCheckedInYet}
    ensures MapApiErrorToStatusCode(CodeName(c)) == c
  {
  }

  lemma StateCodesAreIdentity(c: StatusCode)
    requires c in {StudentAccountInactive, QrExpired, InvalidCheckoutStatus}
    ensures MapApiErrorToStatusCode(CodeName(c)) == c
  {
  }

  lemma NotFoundCodesAreIdentity(c: StatusCode)
    requires c in {ActivityNotFound, StudentNotFound}
    ensures MapApiErrorToStatusCode(CodeName(c)) == c
  {
  }

  lemma LookupCodesAreIdentity(c: StatusCode)
    requires c in {QrInvalid, DepartmentNotFound}
    ensures MapApiErrorToStatusCode(CodeName(c)) == c
  {
  }

  lemma AccountCodesAreIdentity(c: StatusCode)
    requires c in {NoDepartment, AuthError}
    ensures MapApiErrorToStatusCode(CodeName(c)) == c
  {
  }

  lemma ErrorCodesAreIdentity(c: StatusCode)
    requires c in {ValidationError, InternalError}
    ensures MapApiErrorToStatusCode(CodeName(c)) == c
  {
  }

  /** The success codes are not API errors: they fall back like unknown text. */
  lemma SuccessCodesFallBack()
    ensures MapApiErrorToStatusCode(CodeName(CheckinSuccess)) == InternalError
    ensures MapApiErrorToStatusCode(CodeName(CheckoutSuccess)) == InternalError
  {
    SuccessCodeFallsBack(CheckinSuccess);
    SuccessCodeFallsBack(CheckoutSuccess);
  }

  lemma SuccessCodeFallsBack(c: StatusCode)
    requires c == CheckinSuccess || c == CheckoutSuccess
    ensures MapApiErrorToStatusCode(CodeName(c)) == InternalError
  {
    assert CodeName(c) !in ApiNames;
  }

  /** The five aliases of the table. */
  lemma Aliases()
    ensures MapApiErrorToStatusCode("NOT_ONGOING") == ActivityNotOngoing
    ensures MapApiErrorToStatusCode("NOT_REGISTERED") == NotCheckedIn
    ensures MapApiErrorToStatusCode("INVALID_STATUS") == InvalidCheckoutStatus
    ensures MapApiErrorToStatusCode("NOT_FOUND") == ActivityNotFound
    ensures MapApiErrorToStatusCode("USER_NOT_FOUND") == StudentNotFound
  {
  }

  /** Text outside the table maps to 'INTERNAL_ERROR'. */
  lemma UnknownIsInternal(api: string)
    requires api !in ApiNames
    ensures MapApiErrorToStatusCode(api) == InternalError
  {
  }

  /** Normalising an already normalised code changes nothing. */
  lemma MapIdempotent(api: string)
    ensures MapApiErrorToStatusCode(CodeName(MapApiErrorToStatusCode(api))) == MapApiErrorToStatusCode(api)
  {
    MapIsIdentity(MapApiErrorToStatusCode(api));
  }

  // ---------------------------------------------------------------------
  // The standardised scan result

  /** Extra information the API may attach to a refused scan. */
  datatype Details = Details(
    previousCheckIn: Option<string>,
    previousCheckOut: Option<string>,
    maxParticipants: Option<int>,
    currentParticipants: Option<int>,
    activityStatus: Option<string>,
    userStatus: Option<string>,
    flowMessage: Option<string>,
    advice: Option<string>)

  datatype RawError = RawError(code: Option<string>, message: Option<string>, details: Option<Details>)

  /** The scan API's reply; `successIsTrue` is `result.success === true`; `D` is the success data. */
  datatype RawResult<D> = RawResult(successIsTrue: bool, message: Option<string>, error: Option<RawError>, data: Option<D>)

  datatype ScanError = ScanError(code: StatusCode, message: string, category: StatusCategory, details: Option<Details>)

  datatype QRScanResult<D> = QRScanResult(success: bool, message: string, category: StatusCategory,
                                           error: Option<ScanError>, data: Option<D>)

  const ScanSucceeded := "สแกนสำเร็จ"
  const ScanFailed := "เกิดข้อผิดพลาด"

  function ErrorMessage<D>(result: RawResult<D>): string {
    if result.error.Some? && Truthy(result.error.value.message) then result.error.value.message.value
    else OrElse(result.message, ScanFailed)
  }

  function ErrorCode<D>(result: RawResult<D>): string {
    if result.error.Some? && Truthy(result.error.value.code) then result.error.value.code.value
    else "INTERNAL_ERROR"
  }

  /** `processQRScanResult` */
  function ProcessQRScanResult<D>(result: RawResult<D>): (r: QRScanResult<D>)
    ensures r.success <==> result.successIsTrue
    ensures result.successIsTrue ==>
      r.category == Success && r.data == result.data && r.error.None? && r.message == OrElse(result.message, ScanSucceeded)
    ensures !result.successIsTrue ==>
      r.error.Some? && r.error.value.code == MapApiErrorToStatusCode(ErrorCode(result))
      && r.category == r.error.value.category == Category(r.error.value.code)
      && r.message == r.error.value.message
      && r.data.None?
      && r.error.value.details == (if result.error.Some? then result.error.value.details else None)
  {
    if result.successIsTrue then
      QRScanResult(true, OrElse(result.message, ScanSucceeded), Success, None, result.data)
    else
      var code := MapApiErrorToStatusCode(ErrorCode(result));
      var category := Category(code);
      var message := ErrorMessage(result);
      QRScanResult(false, message, category,
        Some(ScanError(code, message, category, if result.error.Some? then result.error.value.details else None)),
        None)
  }

  /** The message falls back from `error.message` to `message` to a fixed text. */
  lemma ErrorMessageFallback<D>(result: RawResult<D>)
    requires !result.successIsTrue
    ensures var m := ProcessQRScanResult(result).message;
      (result.error.Some? && Truthy(result.error.value.message) ==> m == result.error.value.message.value)
      && (!(result.error.Some? && Truthy(result.error.value.message)) && Truthy(result.message) ==> m == result.message.value)
      && (!(result.error.Some? && Truthy(result.error.value.message)) && !Truthy(result.message) ==> m == ScanFailed)
  {
  }

  /** A failed scan is never reported as a check-in or check-out success. */
  lemma FailureIsNeverSuccessCode<D>(result: RawResult<D>)
    requires !result.successIsTrue
    ensures ProcessQRScanResult(result).error.value.code !in {CheckinSuccess, CheckoutSuccess}
  {
  }

  // ---------------------------------------------------------------------
  // Status texts and detail lines

  /** `getActivityStatusText`: Thai names of the five statuses, anything else unchanged. */
  function ActivityStatusText(status: string): (t: string)
    ensures status !in {"draft", "published", "ongoing", "completed", "cancelled"} ==> t == status
    ensures status in {"draft", "published", "ongoing", "completed", "cancelled"} ==> t != status && |t| > 0
  {
    match status
    case "draft" => "ร่าง"
    case "published" => "เผยแพร่"
    case "ongoing" => "กำลังดำเนินการ"
    case "completed" => "สิ้นสุด"
    case "cancelled" => "ยกเลิก"
    case _ => status
  }

  /** `getUserStatusText`: Thai names of the three account states, anything else unchanged. */
  function UserStatusText(status: string): (t: string)
    ensures status !in {"active", "inactive", "suspended"} ==> t == status
    ensures status in {"active", "inactive", "suspended"} ==> t != status && |t| > 0
  {
    match status
    case "active" => "ใช้งานได้"
    case "inactive" => "ไม่ได้ใช้งาน"
    case "suspended" => "ถูกระงับ"
    case _ => status
  }

  function ValueOr(s: Option<string>): string {
    if s.Some? then s.value else ""
  }

  function CountOr(n: Option<int>): int {
    if n.Some? then n.value else 0
  }

  /** The `i`-th candidate line, in the order the lines are pushed. */
  function CandidateLine(formatDateTime: string -> string, d: Details, i: nat): string
    requires i < 7
  {
    match i
    case 0 => "เช็คอินก่อนหน้า: " + formatDateTime(ValueOr(d.previousCheckIn))
    case 1 => "เช็คเอาท์ก่อนหน้า: " + formatDateTime(ValueOr(d.previousCheckOut))
    case 2 => "ผู้เข้าร่วม: " + IntToString(CountOr(d.currentParticipants)) + "/" + IntToString(CountOr(d.maxParticipants))
    case 3 => "สถานะกิจกรรม: " + ActivityStatusText(ValueOr(d.activityStatus))
    case 4 => "สถานะบัญชี: " + UserStatusText(ValueOr(d.userStatus))
    case 5 => ValueOr(d.flowMessage)
    case _ => "💡 " + ValueOr(d.advice)
  }

  /** Whether the `i`-th line is present; participants needs both counts. */
  predicate LinePresent(d: Details, i: nat)
    requires i < 7
  {
    match i
    case 0 => Truthy(d.previousCheckIn)
    case 1 => Truthy(d.previousCheckOut)
    case 2 => NonZero(d.maxParticipants) && NonZero(d.currentParticipants)
    case 3 => Truthy(d.activityStatus)
    case 4 => Truthy(d.userStatus)
    case 5 => Truthy(d.flowMessage)
    case _ => Truthy(d.advice)
  }

  function CandidateLines(formatDateTime: string -> string, d: Details): (lines: seq<string>)
    ensures |lines| == 7 && forall i :: 0 <= i < 7 ==> lines[i] == CandidateLine(formatDateTime, d, i)
  {
    seq(7, i requires 0 <= i < 7 => CandidateLine(formatDateTime, d, i))
  }

  function PresentLines(d: Details): (present: seq<bool>)
    ensures |present| == 7 && forall i :: 0 <= i < 7 ==> present[i] == LinePresent(d, i)
  {
    seq(7, i requires 0 <= i < 7 => LinePresent(d, i))
  }

  /** The lines pushed after considering the first `n` candidates. */
  function PushedLines(formatDateTime: string -> string, d: Details, n: nat): seq<string>
    requires n <= 7
  {
    if n == 0 then []
    else PushedLines(formatDateTime, d, n - 1)
         + (if LinePresent(d, n - 1) then [CandidateLine(formatDateTime, d, n - 1)] else [])
  }

  /** The elements of `xs` whose mask entry is set, in order. */
  function Select<T>(xs: seq<T>, mask: seq<bool>): (r: seq<T>)
    requires |xs| == |mask|
    ensures |r| <= |xs|
    ensures forall k :: 0 <= k < |r| ==> r[k] in xs
    decreases |xs|
  {
    if |xs| == 0 then []
    else (if mask[0] then [xs[0]] else []) + Select(xs[1..], mask[1..])
  }

  function CountTrue(bs: seq<bool>): (n: nat)
    ensures n <= |bs|
    decreases |bs|
  {
    if |bs| == 0 then 0 else (if bs[0] then 1 else 0) + CountTrue(bs[1..])
  }

  lemma {:induction false} CountTrueNone(bs: seq<bool>)
    requires forall k :: 0 <= k < |bs| ==> !bs[k]
    ensures CountTrue(bs) == 0
    decreases |bs|
  {
    if |bs| > 0 {
      CountTrueNone(bs[1..]);
    }
  }

  /** One selected element per set mask entry. */
  lemma {:induction false} SelectLength<T>(xs: seq<T>, mask: seq<bool>)
    requires |xs| == |mask|
    ensures |Select(xs, mask)| == CountTrue(mask)
    decreases |xs|
  {
    if |xs| > 0 {
      SelectLength(xs[1..], mask[1..]);
    }
  }

  lemma {:induction false} SelectSnoc<T>(xs: seq<T>, mask: seq<bool>, x: T, b: bool)
    requires |xs| == |mask|
    ensures Select(xs + [x], mask + [b]) == Select(xs, mask) + (if b then [x] else [])
    decreases |xs|
  {
    if |xs| > 0 {
      SelectSnoc(xs[1..], mask[1..], x, b);
      assert (xs + [x])[1..] == xs[1..] + [x];
      assert (mask + [b])[1..] == mask[1..] + [b];
    } else {
      assert xs + [x] == [x];
      assert mask + [b] == [b];
    }
  }

  /**
   * `formatStatusDetails`: the present detail lines, pushed one by one in the
   * fixed order previousCheckIn, previousCheckOut, participants,
   * activityStatus, userStatus, flowMessage, advice.
   */
  method FormatStatusDetails(details: Option<Details>, formatDateTime: string -> string) returns (formatted: seq<string>)
    ensures details.None? ==> formatted == []
    ensures details.Some? ==>
      formatted == Select(CandidateLines(formatDateTime, details.value), PresentLines(details.value))
  {
    if details.None? {
      return [];
    }
    var d := details.value;
    formatted := [];
    formatted := PushIf(formatted, formatDateTime, d, 0, Truthy(d.previousCheckIn),
      "เช็คอินก่อนหน้า: " + formatDateTime(ValueOr(d.previousCheckIn)));
    formatted := PushIf(formatted, formatDateTime, d, 1, Truthy(d.previousCheckOut),
      "เช็คเอาท์ก่อนหน้า: " + formatDateTime(ValueOr(d.previousCheckOut)));
    formatted := PushIf(formatted, formatDateTime, d, 2, NonZero(d.maxParticipants) && NonZero(d.currentParticipants),
      "ผู้เข้าร่วม: " + IntToString(CountOr(d.currentParticipants)) + "/" + IntToString(CountOr(d.maxParticipants)));
    formatted := PushIf(formatted, formatDateTime, d, 3, Truthy(d.activityStatus),
      "สถานะกิจกรรม: " + ActivityStatusText(ValueOr(d.activityStatus)));
    formatted := PushIf(formatted, formatDateTime, d, 4, Truthy(d.userStatus),
      "สถานะบัญชี: " + UserStatusText(ValueOr(d.userStatus)));
    formatted := PushIf(formatted, formatDateTime, d, 5, Truthy(d.flowMessage), ValueOr(d.flowMessage));
    formatted := PushIf(formatted, formatDateTime, d, 6, Truthy(d.advice), "💡 " + ValueOr(d.advice));
    PushedLinesSelect(formatDateTime, d, 7);
    assert CandidateLines(formatDateTime, d)[..7] == CandidateLines(formatDateTime, d);
    assert PresentLines(d)[..7] == PresentLines(d);
  }

  /** `if (present) lines.push(line)` for the `i`-th candidate line. */
  method PushIf(formatted: seq<string>, formatDateTime: string -> string, d: Details, i: nat,
                present: bool, line: string) returns (pushed: seq<string>)
    requires i < 7 && formatted == PushedLines(formatDateTime, d, i)
    requires present == LinePresent(d, i) && line == CandidateLine(formatDateTime, d, i)
    ensures pushed == PushedLines(formatDateTime, d, i + 1)
  {
    if present {
      pushed := formatted + [line];
    } else {
      pushed := formatted;
    }
  }

  /** The pushed lines are the selection of the candidates by presence. */
  lemma {:induction false} PushedLinesSelect(formatDateTime: string -> string, d: Details, n: nat)
    requires n <= 7
    ensures PushedLines(formatDateTime, d, n)
         == Select(CandidateLines(formatDateTime, d)[..n], PresentLines(d)[..n])
    decreases n
  {
    var lines := CandidateLines(formatDateTime, d);
    var present := PresentLines(d);
    if n == 0 {
      assert lines[..0] == [] && present[..0] == [];
    } else {
      PushedLinesSelect(formatDateTime, d, n - 1);
      SelectStep(lines, present, n - 1);
    }
  }

  lemma SelectStep<T>(xs: seq<T>, mask: seq<bool>, i: nat)
    requires |xs| == |mask| && i < |xs|
    ensures Select(xs[..i + 1], mask[..i + 1]) == Select(xs[..i], mask[..i]) + (if mask[i] then [xs[i]] else [])
  {
    assert xs[..i + 1] == xs[..i] + [xs[i]];
    assert mask[..i + 1] == mask[..i] + [mask[i]];
    SelectSnoc(xs[..i], mask[..i], xs[i], mask[i]);
  }

  /** The number of lines is the number of present details; none when nothing is set. */
  lemma DetailLineCount(formatDateTime: string -> string, d: Details)
    ensures |Select(CandidateLines(formatDateTime, d), PresentLines(d))| == CountTrue(PresentLines(d))
    ensures d == Details(None, None, None, None, None, None, None, None) ==>
      Select(CandidateLines(formatDateTime, d), PresentLines(d)) == []
  {
    SelectLength(CandidateLines(formatDateTime, d), PresentLines(d));
    if d == Details(None, None, None, None, None, None, None, None) {
      CountTrueNone(PresentLines(d));
    }
  }
}
