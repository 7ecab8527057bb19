/**
 * src/routes/api/student/profile/+server.ts: `updateProfileSchema` and the
 * order in which `PATCH` decides its reply. The JWT check is the parameter
 * `verify` (the user id a token carries, or None), `request.json()` is an
 * optional form (None when the body is not JSON), and zod's email regex is
 * the parameter `isEmail`.
 */
module StudentProfile {
  import opened Common
  import opened FieldErrors
  import opened UserStore
  import AuthSchemas

  datatype ProfileForm = ProfileForm(prefix: string, firstName: string, lastName: string, email: string,
                                     phone: Option<string>, address: Option<string>)

  /** `phone.replace(/[^\d]/g, '')`: every digit of `s`, each as often as it occurs, in its order. */
  function DigitsOnly(s: string): (d: string)
    ensures AllDigits(d) && |d| <= |s|
    ensures AllDigits(s) ==> d == s
    decreases |s|
  {
    if |s| == 0 then ""
    else
      var rest := DigitsOnly(s[1..]);
      if IsDigit(s[0]) then [s[0]] + rest else rest
  }

  /**
   * The digits kept are exactly those of `s`, each as often as it occurs
   * there, in their order; nothing else is kept.
   */
  lemma {:induction false} DigitsOnlyKeepsEveryDigit(s: string)
    ensures forall c :: multiset(DigitsOnly(s))[c] == if IsDigit(c) then multiset(s)[c] else 0
    ensures IsSubsequence(DigitsOnly(s), s)
    decreases |s|
  {
    if |s| > 0 {
      DigitsOnlyKeepsEveryDigit(s[1..]);
      assert s == [s[0]] + s[1..];
      var rest := DigitsOnly(s[1..]);
      if IsDigit(s[0]) {
        assert ([s[0]] + rest)[1..] == rest;
      } else {
        SubsequenceOfTail(rest, s);
      }
    }
  }

  /** `/^0[0-9]{9}$/`: a Thai number, ten digits starting with 0. */
  predicate ThaiPhoneNumber(d: string) {
    |d| == 10 && d[0] == '0' && AllDigits(d)
  }

  /** The phone refinement: blank or absent passes, otherwise its digits must form a Thai number. */
  predicate PhoneAcceptable(phone: Option<string>) {
    !Truthy(phone) || Trim(phone.value) == "" || ThaiPhoneNumber(DigitsOnly(phone.value))
  }

  /** Separators between the digits do not matter. */
  lemma {:induction false} SeparatorsIgnored(a: string, b: string)
    requires AllDigits(a) && AllDigits(b)
    ensures DigitsOnly(a + "-" + b) == a + b
    decreases |a|
  {
    if |a| == 0 {
      assert a + "-" + b == "-" + b;
      assert ("-" + b)[1..] == b;
    } else {
      assert (a + "-" + b)[1..] == a[1..] + "-" + b;
      SeparatorsIgnored(a[1..], b);
    }
  }

  /** "081-2345678" is accepted: its digits form a Thai number. */
  lemma DashedPhoneAccepted()
    ensures PhoneAcceptable(Some("081-2345678"))
  {
    DashedNumberAccepted("081", "2345678");
    assert "081" + "-" + "2345678" == "081-2345678";
  }

  /** Ten digits starting with '0', with a dash somewhere between them, are accepted. */
  lemma DashedNumberAccepted(a: string, b: string)
    requires AllDigits(a) && AllDigits(b) && |a| + |b| == 10 && |a| > 0 && a[0] == '0'
    ensures PhoneAcceptable(Some(a + "-" + b))
  {
    SeparatorsIgnored(a, b);
    assert forall k :: 0 <= k < |a + b| ==> IsDigit((a + b)[k]);
  }

  /** "12345" is refused: five digits are not a Thai number. */
  lemma ShortPhoneRefused()
    ensures !PhoneAcceptable(Some("12345"))
  {
    var s := "12345";
    assert AllDigits(s);
    assert TrimStart(s) == s;
    assert TrimEnd(s) == s;
  }

  /** An absent, empty or blank phone always passes. */
  lemma BlankPhoneAccepted(s: string)
    requires AllSpace(s)
    ensures PhoneAcceptable(None) && PhoneAcceptable(Some(s))
  {
    TrimEmptyIffBlank(s);
  }

  const PrefixRequired := "กรุณาเลือกคำนำหน้า"
  const PrefixInvalid := "กรุณาเลือกคำนำหน้าที่ถูกต้อง"
  const PhoneInvalid := "รูปแบบเบอร์โทรศัพท์ไม่ถูกต้อง (ต้องเป็น 10 หลัก เริ่มด้วย 0)"

  /** `updateProfileSchema`'s issues, in field order. */
  function ProfileIssues(f: ProfileForm, isEmail: AuthSchemas.EmailCheck): seq<Issue> {
    Check(|f.prefix| >= 1, "prefix", PrefixRequired)
    + Check(f.prefix in AuthSchemas.AllPrefixes, "prefix", PrefixInvalid)
    + Check(|f.firstName| >= 1, "first_name", "ชื่อจำเป็น")
    + Check(|f.firstName| <= 100, "first_name", "ชื่อยาวเกินไป")
    + Check(|f.lastName| >= 1, "last_name", "นามสกุลจำเป็น")
    + Check(|f.lastName| <= 100, "last_name", "นามสกุลยาวเกินไป")
    + Check(isEmail(f.email), "email", "รูปแบบอีเมลไม่ถูกต้อง")
    + Check(|f.email| <= 255, "email", "อีเมลยาวเกินไป")
    + Check(PhoneAcceptable(f.phone), "phone", PhoneInvalid)
    + Check(f.address.None? || |f.address.value| <= 500, "address", "ที่อยู่ยาวเกินไป")
  }

  /** Every profile rule, field by field. */
  predicate ProfileValid(f: ProfileForm, isEmail: AuthSchemas.EmailCheck) {
    && f.prefix in AuthSchemas.AllPrefixes
    && 1 <= |f.firstName| <= 100 && 1 <= |f.lastName| <= 100
    && isEmail(f.email) && |f.email| <= 255
    && PhoneAcceptable(f.phone)
    && (f.address.None? || |f.address.value| <= 500)
  }

  lemma ProfileIssuesIffInvalid(f: ProfileForm, isEmail: AuthSchemas.EmailCheck)
    ensures ProfileIssues(f, isEmail) == [] <==> ProfileValid(f, isEmail)
  {
    if f.prefix in AuthSchemas.AllPrefixes {
      assert |f.prefix| >= 1;
    }
  }

  /** `value?.trim() || null` */
  function Stored(value: Option<string>): (r: Option<string>)
    ensures r.Some? ==> r.value != "" && value.Some? && r.value == Trim(value.value)
    ensures r.None? <==> value.None? || Trim(value.value) == ""
  {
    if value.Some? && Trim(value.value) != "" then Some(Trim(value.value)) else None
  }

  /** The row after `set(updateData)`. */
  function Applied(row: UserRow, f: ProfileForm, now: int): UserRow {
    row.(prefix := f.prefix, firstName := f.firstName, lastName := f.lastName, email := f.email,
         phone := Stored(f.phone), address := Stored(f.address), updatedAt := now)
  }

  /** `update(users).set(updateData).where(eq(users.id, userId))` */
  function UpdateProfileRows(rows: seq<UserRow>, id: string, f: ProfileForm, now: int): (after: seq<UserRow>)
    ensures |after| == |rows|
    ensures forall k :: 0 <= k < |rows| ==> after[k] == if rows[k].id == id then Applied(rows[k], f, now) else rows[k]
  {
    seq(|rows|, k requires 0 <= k < |rows| => if rows[k].id == id then Applied(rows[k], f, now) else rows[k])
  }

  datatype Reply =
    | Profile(user: UserRow)
    | Failure(status: int, code: string, message: string, fieldErrors: Option<FieldErrorMap>)

  datatype Outcome = Outcome(reply: Reply, rows: seq<UserRow>)

  const EmailTaken := "อีเมลนี้ถูกใช้งานแล้ว"

  /** `PATCH`, step by step: token, its verification, the body, the schema, the user, the email, the write. */
  function PatchOutcome(rows: seq<UserRow>, token: Option<string>, verify: string -> Option<string>,
                        body: Option<ProfileForm>, isEmail: AuthSchemas.EmailCheck, now: int): Outcome
  {
    if !Truthy(token) then Outcome(Failure(401, "NO_SESSION", "Authentication required", None), rows)
    else if verify(token.value).None? then Outcome(Failure(401, "INVALID_SESSION", "Invalid session", None), rows)
    else if body.None? then Outcome(Failure(500, "INTERNAL_ERROR", "Internal server error", None), rows)
    else
      var userId := verify(token.value).value;
      var f := body.value;
      var issues := ProfileIssues(f, isEmail);
      if issues != [] then Outcome(Failure(400, "VALIDATION_ERROR", "ข้อมูลไม่ถูกต้อง", Some(Grouped(issues))), rows)
      else
        match FindById(rows, userId)
        case None => Outcome(Failure(404, "USER_NOT_FOUND", "User not found", None), rows)
        case Some(existing) =>
          var clash := FindByEmail(rows, f.email);
          if f.email != existing.email && clash.Some? && clash.value.id != userId then
            Outcome(Failure(409, "EMAIL_TAKEN", EmailTaken, Some(FieldErrorMap(["email"], map["email" := [EmailTaken]]))), rows)
          else Outcome(Profile(Applied(existing, f, now)), UpdateProfileRows(rows, userId, f, now))
  }

  /** The route against the table: its reply, and the table left as the outcome says. */
  method Patch(table: UserTable, token: Option<string>, verify: string -> Option<string>,
               body: Option<ProfileForm>, isEmail: AuthSchemas.EmailCheck, now: int) returns (reply: Reply)
    modifies table
    ensures Outcome(reply, table.rows) == PatchOutcome(old(table.rows), token, verify, body, isEmail, now)
  {
    if !Truthy(token) {
      return Failure(401, "NO_SESSION", "Authentication required", None);
    }
    var decoded := verify(token.value);
    if decoded.None? {
      return Failure(401, "INVALID_SESSION", "Invalid session", None);
    }
    if body.None? {
      return Failure(500, "INTERNAL_ERROR", "Internal server error", None);
    }
    var userId := decoded.value;
    var issues := ProfileIssues(body.value, isEmail);
    if issues != [] {
      var fieldErrors := CollectFieldErrors(issues);
      return Failure(400, "VALIDATION_ERROR", "ข้อมูลไม่ถูกต้อง", Some(fieldErrors));
    }
    var existing := FindById(table.rows, userId);
    if existing.None? {
      return Failure(404, "USER_NOT_FOUND", "User not found", None);
    }
    if body.value.email != existing.value.email {
      var clash := FindByEmail(table.rows, body.value.email);
      if clash.Some? && clash.value.id != userId {
        return Failure(409, "EMAIL_TAKEN", EmailTaken, Some(FieldErrorMap(["email"], map["email" := [EmailTaken]])));
      }
    }
    table.rows := UpdateProfileRows(table.rows, userId, body.value, now);
    reply := Profile(Applied(existing.value, body.value, now));
  }

  /** Both session failures come before the body is looked at. */
  lemma SessionCheckedFirst(rows: seq<UserRow>, token: Option<string>, verify: string -> Option<string>,
                            body: Option<ProfileForm>, isEmail: AuthSchemas.EmailCheck, now: int)
    ensures !Truthy(token) ==> PatchOutcome(rows, token, verify, body, isEmail, now).reply.code == "NO_SESSION"
    ensures Truthy(token) && verify(token.value).None? ==>
      PatchOutcome(rows, token, verify, body, isEmail, now).reply == Failure(401, "INVALID_SESSION", "Invalid session", None)
  {
  }

  /** Only a successful update writes, and then exactly the caller's rows change, to the form's values. */
  lemma OnlyTheCallerChanges(rows: seq<UserRow>, token: Option<string>, verify: string -> Option<string>,
                             body: Option<ProfileForm>, isEmail: AuthSchemas.EmailCheck, now: int)
    ensures var o := PatchOutcome(rows, token, verify, body, isEmail, now);
      o.reply.Failure? ==> o.rows == rows
    ensures var o := PatchOutcome(rows, token, verify, body, isEmail, now);
      o.reply.Profile? ==>
        && Truthy(token) && verify(token.value).Some? && body.Some? && ProfileValid(body.value, isEmail)
        && |o.rows| == |rows|
        && (forall k :: 0 <= k < |rows| && rows[k].id != verify(token.value).value ==> o.rows[k] == rows[k])
        && (forall k :: 0 <= k < |rows| && rows[k].id == verify(token.value).value ==>
              o.rows[k].email == body.value.email && o.rows[k].phone == Stored(body.value.phone)
              && o.rows[k].address == Stored(body.value.address) && o.rows[k].passwordHash == rows[k].passwordHash)
  {
    if body.Some? {
      ProfileIssuesIffInvalid(body.value, isEmail);
    }
  }

  /** A failed validation lists every issue under its field, and the later checks are not reached. */
  lemma ValidationErrorsGrouped(rows: seq<UserRow>, token: Option<string>, verify: string -> Option<string>,
                                body: Option<ProfileForm>, isEmail: AuthSchemas.EmailCheck, now: int)
    requires Truthy(token) && verify(token.value).Some? && body.Some? && !ProfileValid(body.value, isEmail)
    ensures var r := PatchOutcome(rows, token, verify, body, isEmail, now).reply;
      && r.Failure? && r.status == 400 && r.code == "VALIDATION_ERROR" && r.fieldErrors.Some?
      && r.fieldErrors.value.fields != []
      && CountOver(r.fieldErrors.value.fields, r.fieldErrors.value.messages) == |ProfileIssues(body.value, isEmail)|
  {
    var issues := ProfileIssues(body.value, isEmail);
    ProfileIssuesIffInvalid(body.value, isEmail);
    NoMessageLost(issues);
    assert issues[0].path in FirstSeen(issues);
  }

  /** Keeping one's own email never reports it as taken; another user's email always is. */
  lemma EmailTakenOnlyByOthers(rows: seq<UserRow>, token: Option<string>, verify: string -> Option<string>,
                               body: Option<ProfileForm>, isEmail: AuthSchemas.EmailCheck, now: int)
    requires Truthy(token) && verify(token.value).Some? && body.Some? && ProfileValid(body.value, isEmail)
    requires FindById(rows, verify(token.value).value).Some?
    ensures var r := PatchOutcome(rows, token, verify, body, isEmail, now).reply;
      r.Failure? && r.code == "EMAIL_TAKEN" <==>
        && body.value.email != FindById(rows, verify(token.value).value).value.email
        && FindByEmail(rows, body.value.email).Some?
        && FindByEmail(rows, body.value.email).value.id != verify(token.value).value
  {
    ProfileIssuesIffInvalid(body.value, isEmail);
  }
}
