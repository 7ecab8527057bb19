/**
 * src/routes/api/student/profile/change-password/+server.ts:
 * `changePasswordSchema` and the order of the checks in `POST`. The JWT
 * check is the parameter `verify`, argon2's `verify` and `hash` are the
 * parameters `matches` and `hash`, and `request.json()` is an optional form.
 */
module ChangePassword {
  import opened Common
  import opened FieldErrors
  import opened UserStore
  import AuthSchemas

  datatype PasswordForm = PasswordForm(currentPassword: string, newPassword: string, confirmPassword: string)

  /** `/^(?=.*[A-Za-z])(?=.*\d).{8,}$/`: one line of at least 8 characters holding a letter and a digit. */
  predicate LetterAndDigit(s: string) {
    && AuthSchemas.NoLineBreak(s)
    && |s| >= 8
    && (exists k :: 0 <= k < |s| && ('a' <= s[k] <= 'z' || 'A' <= s[k] <= 'Z'))
    && (exists k :: 0 <= k < |s| && IsDigit(s[k]))
  }

  /** The schema's issues: the three fields in order, then the matching refinement on `confirm_password`. */
  function PasswordIssues(f: PasswordForm): (issues: seq<Issue>)
    ensures issues == [] <==>
      |f.currentPassword| >= 1 && 8 <= |f.newPassword| <= 128 && LetterAndDigit(f.newPassword)
      && f.newPassword == f.confirmPassword
    ensures f.newPassword != f.confirmPassword ==>
      issues != [] && issues[|issues| - 1] == Issue("confirm_password", "การยืนยันรหัสผ่านไม่ตรงกัน")
  {
    Check(|f.currentPassword| >= 1, "current_password", "รหัสผ่านปัจจุบันจำเป็น")
    + Check(|f.newPassword| >= 8, "new_password", "รหัสผ่านต้องมีความยาวอย่างน้อย 8 ตัวอักษร")
    + Check(|f.newPassword| <= 128, "new_password", "รหัสผ่านยาวเกินไป")
    + Check(LetterAndDigit(f.newPassword), "new_password", "รหัสผ่านต้องมีตัวอักษรและตัวเลขอย่างน้อย 1 ตัว")
    + Check(f.newPassword == f.confirmPassword, "confirm_password", "การยืนยันรหัสผ่านไม่ตรงกัน")
  }

  /** "password1" is a good new password; "password" (no digit) and a line-broken one are not. */
  lemma NewPasswordExamples()
    ensures LetterAndDigit("password1")
    ensures !LetterAndDigit("password")
    ensures !LetterAndDigit("pass\nword1")
  {
    assert "password1"[0] == 'p' && "password1"[8] == '1';
    assert "pass\nword1"[4] == '\n';
  }

  /** The row after `set({ passwordHash, updatedAt })`. */
  function Rehashed(row: UserRow, passwordHash: string, now: int): UserRow {
    row.(passwordHash := passwordHash, updatedAt := now)
  }

  /** `update(users).set(...).where(eq(users.id, userId))` */
  function UpdatePasswordRows(rows: seq<UserRow>, id: string, passwordHash: string, now: int): (after: seq<UserRow>)
    ensures |after| == |rows|
    ensures forall k :: 0 <= k < |rows| ==> after[k] == if rows[k].id == id then Rehashed(rows[k], passwordHash, now) else rows[k]
  {
    seq(|rows|, k requires 0 <= k < |rows| => if rows[k].id == id then Rehashed(rows[k], passwordHash, now) else rows[k])
  }

  datatype Reply =
    | Changed
    | Failure(status: int, code: string, message: string, fieldErrors: Option<FieldErrorMap>)

  datatype Outcome = Outcome(reply: Reply, rows: seq<UserRow>)

  const WrongPassword := "รหัสผ่านปัจจุบันไม่ถูกต้อง"

  /** `POST`: token, its verification, the body, the schema, the user, the current password, then the write. */
  function ChangeOutcome(rows: seq<UserRow>, token: Option<string>, verify: string -> Option<string>,
                         body: Option<PasswordForm>, matches: (string, string) -> bool, hash: string -> string,
                         now: int): Outcome
  {
    if !Truthy(token) then Outcome(Failure(401, "NO_SESSION", "Authentication required", None), rows)
    else if verify(token.value).None? then Outcome(Failure(401, "INVALID_SESSION", "Invalid session", None), rows)
    else if body.None? then Outcome(Failure(500, "INTERNAL_ERROR", "Internal server error", None), rows)
    else
      var userId := verify(token.value).value;
      var f := body.value;
      var issues := PasswordIssues(f);
      if issues != [] then Outcome(Failure(400, "VALIDATION_ERROR", "ข้อมูลไม่ถูกต้อง", Some(Grouped(issues))), rows)
      else
        match FindById(rows, userId)
        case None => Outcome(Failure(404, "USER_NOT_FOUND", "User not found", None), rows)
        case Some(user) =>
          if !matches(user.passwordHash, f.currentPassword) then
            Outcome(Failure(400, "INVALID_PASSWORD", WrongPassword,
                            Some(FieldErrorMap(["current_password"], map["current_password" := [WrongPassword]]))), rows)
          else Outcome(Changed, UpdatePasswordRows(rows, userId, hash(f.newPassword), now))
  }

  /** The route against the table. */
  method Post(table: UserTable, token: Option<string>, verify: string -> Option<string>, body: Option<PasswordForm>,
              matches: (string, string) -> bool, hash: string -> string, now: int) returns (reply: Reply)
    modifies table
    ensures Outcome(reply, table.rows) == ChangeOutcome(old(table.rows), token, verify, body, matches, hash, now)
  {
    if !Truthy(token) {
      return Failure(401, "NO_SESSION", "Authentication required", None);
    }
    var decoded := verify(token.value);
    if decoded.None? {
      return Failure(401, "INVALID_SESSION", "Invalid session", None);
    }
    if body.None? {
      return Failure(500, "INTERNAL_ERROR", "Internal server error", None);
    }
    var userId := decoded.value;
    var issues := PasswordIssues(body.value);
    if issues != [] {
      var fieldErrors := CollectFieldErrors(issues);
      return Failure(400, "VALIDATION_ERROR", "ข้อมูลไม่ถูกต้อง", Some(fieldErrors));
    }
    var user := FindById(table.rows, userId);
    if user.None? {
      return Failure(404, "USER_NOT_FOUND", "User not found", None);
    }
    if !matches(user.value.passwordHash, body.value.currentPassword) {
      return Failure(400, "INVALID_PASSWORD", WrongPassword,
                     Some(FieldErrorMap(["current_password"], map["current_password" := [WrongPassword]])));
    }
    var newHash := hash(body.value.newPassword);
    table.rows := UpdatePasswordRows(table.rows, userId, newHash, now);
    reply := Changed;
  }

  /** The hash is written only after every check passed. */
  lemma WrittenOnlyAfterEveryCheck(rows: seq<UserRow>, token: Option<string>, verify: string -> Option<string>,
                                   body: Option<PasswordForm>, matches: (string, string) -> bool,
                                   hash: string -> string, now: int)
    ensures var o := ChangeOutcome(rows, token, verify, body, matches, hash, now);
      o.rows != rows ==>
        && o.reply == Changed && Truthy(token) && verify(token.value).Some? && body.Some?
        && PasswordIssues(body.value) == []
        && FindById(rows, verify(token.value).value).Some?
        && matches(FindById(rows, verify(token.value).value).value.passwordHash, body.value.currentPassword)
  {
    var o := ChangeOutcome(rows, token, verify, body, matches, hash, now);
    if o.reply.Failure? {
      assert o.rows == rows;
    }
  }

  /** A change rewrites the caller's rows with the new hash and nothing else. */
  lemma ChangeTouchesOnlyCaller(rows: seq<UserRow>, token: Option<string>, verify: string -> Option<string>,
                                body: Option<PasswordForm>, matches: (string, string) -> bool,
                                hash: string -> string, now: int)
    requires ChangeOutcome(rows, token, verify, body, matches, hash, now).reply == Changed
    ensures Truthy(token) && verify(token.value).Some? && body.Some?
    ensures var after := ChangeOutcome(rows, token, verify, body, matches, hash, now).rows;
      after == UpdatePasswordRows(rows, verify(token.value).value, hash(body.value.newPassword), now)
  {
  }

  /** A wrong current password gives 400 INVALID_PASSWORD on that field and leaves the table alone. */
  lemma WrongPasswordNoWrite(rows: seq<UserRow>, token: Option<string>, verify: string -> Option<string>,
                             body: Option<PasswordForm>, matches: (string, string) -> bool,
                             hash: string -> string, now: int)
    requires Truthy(token) && verify(token.value).Some? && body.Some? && PasswordIssues(body.value) == []
    requires FindById(rows, verify(token.value).value).Some?
    requires !matches(FindById(rows, verify(token.value).value).value.passwordHash, body.value.currentPassword)
    ensures var o := ChangeOutcome(rows, token, verify, body, matches, hash, now);
      && o.rows == rows && o.reply.Failure? && o.reply.status == 400 && o.reply.code == "INVALID_PASSWORD"
      && o.reply.fieldErrors.Some? && o.reply.fieldErrors.value.fields == ["current_password"]
  {
  }

  /** The first failing check decides: a bad form is reported even for a missing user or a wrong password. */
  lemma SchemaBeforeStore(rows: seq<UserRow>, token: Option<string>, verify: string -> Option<string>,
                          body: Option<PasswordForm>, matches: (string, string) -> bool,
                          hash: string -> string, now: int)
    requires Truthy(token) && verify(token.value).Some? && body.Some?
    requires body.value.newPassword != body.value.confirmPassword
    ensures var o := ChangeOutcome(rows, token, verify, body, matches, hash, now);
      && o.rows == rows && o.reply.Failure? && o.reply.code == "VALIDATION_ERROR"
      && o.reply.fieldErrors.Some? && "confirm_password" in o.reply.fieldErrors.value.messages
  {
    var issues := PasswordIssues(body.value);
    ListedIffReported(issues, "confirm_password");
    assert issues[|issues| - 1].path == "confirm_password";
  }

  /** No token, or a token that does not verify, is refused before anything else. */
  lemma SessionCheckedFirst(rows: seq<UserRow>, token: Option<string>, verify: string -> Option<string>,
                            body: Option<PasswordForm>, matches: (string, string) -> bool,
                            hash: string -> string, now: int)
    requires !Truthy(token) || verify(token.value).None?
    ensures var o := ChangeOutcome(rows, token, verify, body, matches, hash, now);
      && o.rows == rows && o.reply.Failure? && o.reply.status == 401
      && o.reply.code == (if !Truthy(token) then "NO_SESSION" else "INVALID_SESSION")
  {
  }
}
