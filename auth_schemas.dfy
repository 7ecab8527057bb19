/**
 * src/lib/schemas/auth.ts: the login, admin-login, registration and
 * admin-creation forms as plain predicates. A schema yields either the
 * parsed data or its issues, in the order the schema reports them: each
 * field's failing checks in declaration order, then the object-level
 * refinement, which runs once every field has the right type. Lengths
 * count characters. Email syntax is a parameter.
 */
module AuthSchemas {
  import opened Common

  type EmailCheck = string -> bool

  /** `/^[0-9]+$/` */
  predicate DigitString(s: string) {
    |s| > 0 && AllDigits(s)
  }

  /** The text before the first line terminator, where the regex's `.` can reach. */
  function FirstLine(s: string): (line: string)
    ensures line <= s
    ensures forall k :: 0 <= k < |line| ==> !IsLineTerminator(line[k])
    ensures |line| < |s| ==> IsLineTerminator(s[|line|])
    decreases |s|
  {
    if |s| == 0 || IsLineTerminator(s[0]) then [] else [s[0]] + FirstLine(s[1..])
  }

  predicate IsLineTerminator(ch: char) {
    ch == '\n' || ch == '\r' || ch == '\U{2028}' || ch == '\U{2029}'
  }

  /** `/^(?=.*[a-z])(?=.*[A-Z])(?=.*\d)/`: the three classes all occur before the first line break. */
  predicate HasCharacterClasses(s: string) {
    var line := FirstLine(s);
    (exists k :: 0 <= k < |line| && 'a' <= line[k] <= 'z')
    && (exists k :: 0 <= k < |line| && 'A' <= line[k] <= 'Z')
    && (exists k :: 0 <= k < |line| && '0' <= line[k] <= '9')
  }

  predicate NoLineBreak(s: string) {
    forall k :: 0 <= k < |s| ==> !IsLineTerminator(s[k])
  }

  /** The first line of a text without line breaks is the whole text. */
  lemma {:induction false} WholeFirstLine(s: string)
    requires NoLineBreak(s)
    ensures FirstLine(s) == s
    decreases |s|
  {
    if |s| > 0 {
      WholeFirstLine(s[1..]);
    }
  }

  /** Whatever follows the first line break is out of the regex's reach. */
  lemma {:induction false} FirstLineStopsAtBreak(line: string, rest: string)
    requires NoLineBreak(line)
    ensures FirstLine(line + "\n" + rest) == line
    decreases |line|
  {
    if |line| > 0 {
      assert (line + "\n" + rest)[1..] == line[1..] + "\n" + rest;
      FirstLineStopsAtBreak(line[1..], rest);
    } else {
      assert (line + "\n" + rest)[0] == '\n';
    }
  }

  /** A letter after a line break does not count: "abc1\nX" fails although it holds every class. */
  lemma ClassesMustPrecedeLineBreak()
    ensures !HasCharacterClasses("abc1\nX")
    ensures HasCharacterClasses("Xabc1")
  {
    LetterAfterBreakIgnored();
    WholeFirstLine("Xabc1");
    assert 'X' == "Xabc1"[0] && 'a' == "Xabc1"[1] && '1' == "Xabc1"[4];
  }

  lemma LetterAfterBreakIgnored()
    ensures !HasCharacterClasses("abc1\nX")
  {
    FirstLineStopsAtBreak("abc1", "X");
    assert "abc1" + "\n" + "X" == "abc1\nX";
  }

  // ---------------------------------------------------------------------
  // Messages

  const StudentIdRequired := "กรุณาใส่รหัสนักศึกษา"
  const StudentIdDigits := "รหัสนักศึกษาต้องเป็นตัวเลขเท่านั้น"
  const StudentIdLength := "รหัสนักศึกษาต้องมีอย่างน้อย 8 หลัก"
  const RegisterIdRequired := "กรุณาใส่รหัสนักเรียน"
  const RegisterIdDigits := "รหัสนักเรียนต้องเป็นตัวเลขเท่านั้น"
  const RegisterIdLength := "รหัสนักเรียนต้องมีอย่างน้อย 8 หลัก"
  const PasswordRequired := "กรุณาใส่รหัสผ่าน"
  const PasswordLength := "รหัสผ่านต้องมีอย่างน้อย 6 ตัวอักษร"
  const PasswordClasses := "รหัสผ่านต้องมีตัวพิมพ์เล็ก พิมพ์ใหญ่ และตัวเลข"
  const EmailRequired := "กรุณาใส่อีเมล"
  const EmailInvalid := "รูปแบบอีเมลไม่ถูกต้อง"
  const PrefixRequired := "กรุณาเลือกคำนำหน้า"
  const PrefixInvalid := "กรุณาเลือกคำนำหน้าที่ถูกต้อง"
  const FirstNameRequired := "กรุณาใส่ชื่อจริง"
  const FirstNameShort := "ชื่อต้องมีอย่างน้อย 2 ตัวอักษร"
  const FirstNameLong := "ชื่อต้องไม่เกิน 50 ตัวอักษร"
  const LastNameRequired := "กรุณาใส่นามสกุล"
  const LastNameShort := "นามสกุลต้องมีอย่างน้อย 2 ตัวอักษร"
  const LastNameLong := "นามสกุลต้องไม่เกิน 50 ตัวอักษร"
  const ConfirmRequired := "กรุณายืนยันรหัสผ่าน"
  const OrganizationRequired := "กรุณาเลือกหน่วยงาน"
  const DepartmentRequired := "กรุณาเลือกสาขาวิชา"
  const PasswordMismatch := "รหัสผ่านไม่ตรงกัน"
  const AdminLevelInvalid := "กรุณาเลือกระดับแอดมิน"
  const OrganizationIdInvalid := "รูปแบบ Organization ID ไม่ถูกต้อง"
  const OrganizationAdminNeedsOrganization := "แอดมินระดับหน่วยงานต้องระบุหน่วยงาน"

  // ---------------------------------------------------------------------
  // Shared field rules

  /** `.min(1).regex(/^[0-9]+$/).min(8)` on a student id. */
  function StudentIdIssues(s: string, required: string, digits: string, length: string): (issues: seq<Issue>)
    ensures issues == [] <==> |s| >= 8 && AllDigits(s)
  {
    Check(|s| >= 1, "student_id", required) + Check(DigitString(s), "student_id", digits)
    + Check(|s| >= 8, "student_id", length)
  }

  /** `.min(1).min(6)` on a password. */
  function LoginPasswordIssues(s: string): (issues: seq<Issue>)
    ensures issues == [] <==> |s| >= 6
  {
    Check(|s| >= 1, "password", PasswordRequired) + Check(|s| >= 6, "password", PasswordLength)
  }

  /** `.min(1).email()` */
  function EmailIssues(s: string, isEmail: EmailCheck): (issues: seq<Issue>)
    ensures issues == [] <==> |s| >= 1 && isEmail(s)
  {
    Check(|s| >= 1, "email", EmailRequired) + Check(isEmail(s), "email", EmailInvalid)
  }

  /** `.min(1).min(2).max(50)` on a name. */
  function NameIssues(s: string, path: string, required: string, short: string, long: string): (issues: seq<Issue>)
    ensures issues == [] <==> 2 <= |s| <= 50
  {
    Check(|s| >= 1, path, required) + Check(|s| >= 2, path, short) + Check(|s| <= 50, path, long)
  }

  /** An empty student id is reported three times over: missing, not digits, too short. */
  lemma EmptyStudentIdIssues()
    ensures StudentIdIssues("", StudentIdRequired, StudentIdDigits, StudentIdLength)
      == [Issue("student_id", StudentIdRequired), Issue("student_id", StudentIdDigits), Issue("student_id", StudentIdLength)]
  {
  }

  // ---------------------------------------------------------------------
  // loginSchema and adminLoginSchema

  datatype LoginData = LoginData(studentId: string, password: string, rememberMe: bool)

  /** `loginSchema`; an absent `remember_me` defaults to false. */
  function LoginSchema(studentId: string, password: string, rememberMe: Option<bool>): (r: Result<LoginData, seq<Issue>>)
    ensures r.Ok? <==> |studentId| >= 8 && AllDigits(studentId) && |password| >= 6
    ensures r.Ok? ==> r.value == LoginData(studentId, password, rememberMe == Some(true))
    ensures r.Err? ==> r.error != [] && forall i :: i in r.error ==> i.path in ["student_id", "password"]
  {
    var issues := StudentIdIssues(studentId, StudentIdRequired, StudentIdDigits, StudentIdLength)
                  + LoginPasswordIssues(password);
    if issues == [] then Ok(LoginData(studentId, password, rememberMe == Some(true))) else Err(issues)
  }

  datatype AdminLoginData = AdminLoginData(email: string, password: string, rememberMe: bool)

  /** `adminLoginSchema` */
  function AdminLoginSchema(email: string, password: string, rememberMe: Option<bool>, isEmail: EmailCheck)
    : (r: Result<AdminLoginData, seq<Issue>>)
    ensures r.Ok? <==> |email| >= 1 && isEmail(email) && |password| >= 6
    ensures r.Ok? ==> r.value == AdminLoginData(email, password, rememberMe == Some(true))
    ensures r.Err? ==> r.error != [] && forall i :: i in r.error ==> i.path in ["email", "password"]
  {
    var issues := EmailIssues(email, isEmail) + LoginPasswordIssues(password);
    if issues == [] then Ok(AdminLoginData(email, password, rememberMe == Some(true))) else Err(issues)
  }

  // ---------------------------------------------------------------------
  // registerSchema

  const BasicPrefixes: seq<string> := ["Mr", "Mrs", "Miss"]

  const AllPrefixes: seq<string> := ["Mr", "Mrs", "Miss", "Dr", "Professor", "AssociateProfessor",
                                     "AssistantProfessor", "Lecturer", "Generic"]

  datatype RegisterInput = RegisterInput(prefix: string, firstName: string, lastName: string, studentId: string,
                                         email: string, password: string, confirmPassword: string,
                                         organizationId: string, departmentId: string)

  /** The issues of the registration fields, in declaration order. */
  function RegisterFieldIssues(input: RegisterInput, isEmail: EmailCheck): seq<Issue> {
    Check(|input.prefix| >= 1, "prefix", PrefixRequired) + Check(input.prefix in BasicPrefixes, "prefix", PrefixInvalid)
    + NameIssues(input.firstName, "first_name", FirstNameRequired, FirstNameShort, FirstNameLong)
    + NameIssues(input.lastName, "last_name", LastNameRequired, LastNameShort, LastNameLong)
    + StudentIdIssues(input.studentId, RegisterIdRequired, RegisterIdDigits, RegisterIdLength)
    + EmailIssues(input.email, isEmail)
    + Check(|input.password| >= 6, "password", PasswordLength)
    + Check(HasCharacterClasses(input.password), "password", PasswordClasses)
    + Check(|input.confirmPassword| >= 1, "confirmPassword", ConfirmRequired)
    + Check(|input.organizationId| >= 1, "organization_id", OrganizationRequired)
    + Check(|input.departmentId| >= 1, "department_id", DepartmentRequired)
  }

  /** Every registration rule, stated field by field. */
  predicate RegisterValid(input: RegisterInput, isEmail: EmailCheck) {
    && input.prefix in BasicPrefixes
    && 2 <= |input.firstName| <= 50 && 2 <= |input.lastName| <= 50
    && |input.studentId| >= 8 && AllDigits(input.studentId)
    && |input.email| >= 1 && isEmail(input.email)
    && |input.password| >= 6 && HasCharacterClasses(input.password)
    && |input.confirmPassword| >= 1 && |input.organizationId| >= 1 && |input.departmentId| >= 1
    && input.password == input.confirmPassword
  }

  /** `registerSchema`: the field checks, then the matching-password refinement on `confirmPassword`. */
  function RegisterSchema(input: RegisterInput, isEmail: EmailCheck): (r: Result<RegisterInput, seq<Issue>>)
    ensures r.Ok? <==> RegisterValid(input, isEmail)
    ensures r.Ok? ==> r.value == input
    ensures input.password != input.confirmPassword ==>
      r.Err? && |r.error| >= 1 && r.error[|r.error| - 1] == Issue("confirmPassword", PasswordMismatch)
  {
    var issues := RegisterFieldIssues(input, isEmail)
                  + Check(input.password == input.confirmPassword, "confirmPassword", PasswordMismatch);
    if issues == [] then Ok(input) else Err(issues)
  }

  // ---------------------------------------------------------------------
  // adminCreateSchema

  /** The values of the `AdminLevel` enum that src/lib/schemas/auth.ts imports. */
  const AdminLevels: seq<string> := ["SuperAdmin", "FacultyAdmin", "RegularAdmin"]

  /** `/^[0-9a-f]{8}-[0-9a-f]{4}-[0-9a-f]{4}-[0-9a-f]{4}-[0-9a-f]{12}$/i`, the textual UUID layout of RFC 4122 section 3. */
  predicate UuidShape(s: string) {
    && |s| == 36
    && (forall k :: 0 <= k < 36 && k in {8, 13, 18, 23} ==> s[k] == '-')
    && (forall k :: 0 <= k < 36 && k !in {8, 13, 18, 23} ==> HexDigit(s[k]))
  }

  /** `!val || val === '' || uuid.test(val)` */
  predicate OrganizationIdAcceptable(organizationId: Option<string>) {
    organizationId.None? || organizationId.value == "" || UuidShape(organizationId.value)
  }

  datatype AdminCreateInput = AdminCreateInput(prefix: string, firstName: string, lastName: string, email: string,
                                               password: string, adminLevel: string,
                                               organizationId: Option<string>, permissions: Option<seq<string>>)

  datatype AdminCreateData = AdminCreateData(prefix: string, firstName: string, lastName: string, email: string,
                                             password: string, adminLevel: string,
                                             organizationId: Option<string>, permissions: seq<string>)

  function AdminCreateFieldIssues(input: AdminCreateInput, isEmail: EmailCheck): seq<Issue> {
    Check(|input.prefix| >= 1, "prefix", PrefixRequired) + Check(input.prefix in AllPrefixes, "prefix", PrefixInvalid)
    + NameIssues(input.firstName, "first_name", FirstNameRequired, FirstNameShort, FirstNameLong)
    + NameIssues(input.lastName, "last_name", LastNameRequired, LastNameShort, LastNameLong)
    + EmailIssues(input.email, isEmail)
    + Check(|input.password| >= 1, "password", PasswordRequired)
    + Check(|input.password| >= 6, "password", PasswordLength)
    + Check(HasCharacterClasses(input.password), "password", PasswordClasses)
    + Check(input.adminLevel in AdminLevels, "admin_level", AdminLevelInvalid)
    + Check(OrganizationIdAcceptable(input.organizationId), "organization_id", OrganizationIdInvalid)
  }

  /**
   * `adminCreateSchema` with the level whose admins must name an
   * organization. The refinement runs only when `admin_level` is a valid
   * enum value, since an invalid enum value stops the object's parse.
   */
  function AdminCreateWith(input: AdminCreateInput, isEmail: EmailCheck, levelNeedingOrganization: Option<string>)
    : (r: Result<AdminCreateData, seq<Issue>>)
    ensures r.Ok? ==> r.value.permissions == (if input.permissions.Some? then input.permissions.value else [])
    ensures r.Ok? ==> input.adminLevel in AdminLevels && OrganizationIdAcceptable(input.organizationId)
    ensures r.Ok? && Some(input.adminLevel) == levelNeedingOrganization ==>
      input.organizationId.Some? && input.organizationId.value != ""
    ensures AdminCreateFieldIssues(input, isEmail) == [] && Some(input.adminLevel) == levelNeedingOrganization
            && input.adminLevel in AdminLevels && input.organizationId.None? ==>
      r == Err([Issue("organization_id", OrganizationAdminNeedsOrganization)])
    ensures r.Ok? <==> (AdminCreateFieldIssues(input, isEmail) == []
      && !(Some(input.adminLevel) == levelNeedingOrganization && (input.organizationId.None? || input.organizationId.value == "")))
  {
    var fieldIssues := AdminCreateFieldIssues(input, isEmail);
    var objectIssues :=
      if input.adminLevel !in AdminLevels then []
      else Check(!(Some(input.adminLevel) == levelNeedingOrganization
                   && (input.organizationId.None? || input.organizationId.value == "")),
                 "organization_id", OrganizationAdminNeedsOrganization);
    assert fieldIssues == [] ==> fieldIssues + objectIssues == objectIssues;
    if fieldIssues + objectIssues == [] then
      Ok(AdminCreateData(input.prefix, input.firstName, input.lastName, input.email, input.password, input.adminLevel,
                         input.organizationId, if input.permissions.Some? then input.permissions.value else []))
    else Err(fieldIssues + objectIssues)
  }

  /**
   * As written, the refinement compares against `AdminLevel.OrganizationAdmin`,
   * which this enum does not define, so it matches no level.
   */
  function AdminCreateSchemaAsWritten(input: AdminCreateInput, isEmail: EmailCheck): (r: Result<AdminCreateData, seq<Issue>>)
    ensures r.Ok? <==> AdminCreateFieldIssues(input, isEmail) == []
    ensures r.Err? ==> r.error == AdminCreateFieldIssues(input, isEmail)
  {
    AdminCreateWith(input, isEmail, None)
  }

  /**
   * The refinement as its comment intends: the organization-level admin, here
   * FacultyAdmin, names its organization. A form parses exactly when every
   * field check passes and a FacultyAdmin form names an organization.
   */
  function AdminCreateSchema(input: AdminCreateInput, isEmail: EmailCheck): (r: Result<AdminCreateData, seq<Issue>>)
    ensures r.Ok? ==> input.adminLevel in AdminLevels && OrganizationIdAcceptable(input.organizationId)
    ensures r.Ok? && input.adminLevel == "FacultyAdmin" ==> input.organizationId.Some? && input.organizationId.value != ""
    ensures r.Ok? <==> (AdminCreateFieldIssues(input, isEmail) == []
      && (input.adminLevel == "FacultyAdmin" ==> input.organizationId.Some? && input.organizationId.value != ""))
    ensures r.Ok? ==> (r.value.email == input.email && r.value.password == input.password
                       && r.value.adminLevel == input.adminLevel && r.value.organizationId == input.organizationId)
  {
    AdminCreateWith(input, isEmail, Some("FacultyAdmin"))
  }

  /** A well-formed SuperAdmin form, which needs no organization. */
  function SampleAdmin(level: string, organizationId: Option<string>): AdminCreateInput {
    AdminCreateInput("Mr", "Somchai", "Jaidee", "admin@example.com", "Passw0rd", level, organizationId, None)
  }

  /** The sample form passes every field check for a valid level and organization id. */
  lemma SampleFieldsPass(level: string, organizationId: Option<string>, isEmail: EmailCheck)
    requires isEmail("admin@example.com") && level in AdminLevels && OrganizationIdAcceptable(organizationId)
    ensures AdminCreateFieldIssues(SampleAdmin(level, organizationId), isEmail) == []
  {
    SamplePasswordPasses();
    assert AllPrefixes[0] == "Mr";
    var input := SampleAdmin(level, organizationId);
    assert NameIssues(input.firstName, "first_name", FirstNameRequired, FirstNameShort, FirstNameLong) == [];
    assert NameIssues(input.lastName, "last_name", LastNameRequired, LastNameShort, LastNameLong) == [];
    assert EmailIssues(input.email, isEmail) == [];
  }

  lemma SamplePasswordPasses()
    ensures HasCharacterClasses("Passw0rd")
  {
    var pw := "Passw0rd";
    WholeFirstLine(pw);
    assert pw[0] == 'P' && pw[1] == 'a' && pw[5] == '0';
  }

  /**
   * The refinement as written never fires: a FacultyAdmin form without an
   * organization passes. The corrected schema rejects the same form and
   * accepts a SuperAdmin without one.
   */
  lemma OrganizationRefinementNeverFires(isEmail: EmailCheck)
    requires isEmail("admin@example.com")
    ensures AdminCreateSchemaAsWritten(SampleAdmin("FacultyAdmin", None), isEmail).Ok?
    ensures AdminCreateSchema(SampleAdmin("FacultyAdmin", None), isEmail)
      == Err([Issue("organization_id", OrganizationAdminNeedsOrganization)])
    ensures AdminCreateSchema(SampleAdmin("SuperAdmin", None), isEmail).Ok?
  {
    SampleFieldsPass("FacultyAdmin", None, isEmail);
    SampleFieldsPass("SuperAdmin", None, isEmail);
  }

  /** Whatever the level, the corrected schema accepts only what the schema as written accepts. */
  lemma CorrectedIsStricter(input: AdminCreateInput, isEmail: EmailCheck)
    ensures AdminCreateSchema(input, isEmail).Ok? ==> AdminCreateSchemaAsWritten(input, isEmail).Ok?
    ensures input.adminLevel != "FacultyAdmin" ==>
      AdminCreateSchema(input, isEmail) == AdminCreateSchemaAsWritten(input, isEmail)
  {
  }
}
