/**
 * src/routes/api/admin/activities/+server.ts: `POST`, after the admin
 * gate. The JSON body is a map from keys to JavaScript values (a key that
 * is absent reads as `undefined`); the insert is the parameter `insert`,
 * which yields the new id or None when the database throws.
 */
module AdminActivityCreate {
  import opened Common

  /** The JavaScript values a JSON body can carry, with arrays of strings and without fractions. */
  datatype Value = Undefined | Null | Bool(b: bool) | Num(n: int) | Str(s: string) | Arr(items: seq<string>)

  type Body = map<string, Value>

  function Get(body: Body, key: string): Value {
    if key in body then body[key] else Undefined
  }

  /** JavaScript truthiness. */
  predicate IsTruthy(v: Value) {
    match v
    case Undefined => false
    case Null => false
    case Bool(b) => b
    case Num(n) => n != 0
    case Str(s) => s != ""
    case Arr(_) => true
  }

  /** `String(v)`, which the template literal `${v}` also gives. */
  function StringOf(v: Value): string {
    match v
    case Undefined => "undefined"
    case Null => "null"
    case Bool(b) => if b then "true" else "false"
    case Num(n) => IntToString(n)
    case Str(s) => s
    case Arr(items) => Join(items, ",")
  }

  /** `Number(v)`, None for NaN. */
  function NumberOf(v: Value): (n: Option<int>)
    ensures v.Num? ==> n == Some(v.n)
    ensures v.Undefined? ==> n.None?
  {
    match v
    case Undefined => None
    case Null => Some(0)
    case Bool(b) => Some(if b then 1 else 0)
    case Num(n) => Some(n)
    case Str(s) => NumberOfString(s)
    case Arr(items) => NumberOfString(Join(items, ","))
  }

  /** The keys the route requires, in declaration order. */
  const Required: seq<string> := ["activity_name", "start_date", "end_date", "start_time", "end_time",
                                  "activity_type", "location", "hours", "organizer", "academic_year"]

  /** `!body[k] || String(body[k]).trim() === ''` */
  predicate Blank(body: Body, key: string) {
    !IsTruthy(Get(body, key)) || Trim(StringOf(Get(body, key))) == ""
  }

  /** The keys among `keys` that are blank, in their order. */
  function MissingOf(keys: seq<string>, body: Body): (missing: seq<string>)
    ensures forall k :: k in missing <==> k in keys && Blank(body, k)
    ensures |missing| <= |keys|
    decreases |keys|
  {
    if |keys| == 0 then []
    else
      var rest := MissingOf(keys[1..], body);
      if Blank(body, keys[0]) then [keys[0]] + rest else rest
  }

  /** Nothing is missing exactly when every key is present. */
  lemma NoneMissing(keys: seq<string>, body: Body)
    ensures MissingOf(keys, body) == [] <==> forall k :: k in keys ==> !Blank(body, k)
  {
    var m := MissingOf(keys, body);
    if m != [] {
      assert m[0] in m;
    }
  }

  /** Blank keys are listed in declaration order. */
  lemma {:induction false} MissingInOrder(keys: seq<string>, body: Body, i: nat, j: nat)
    requires i < j < |keys| && Blank(body, keys[i]) && Blank(body, keys[j])
    ensures exists p, q :: (0 <= p < q < |MissingOf(keys, body)|
      && MissingOf(keys, body)[p] == keys[i] && MissingOf(keys, body)[q] == keys[j])
    decreases |keys|
  {
    if i == 0 {
      FirstBlankPrecedes(keys, body, j);
    } else {
      var tail := keys[1..];
      assert tail[i - 1] == keys[i] && tail[j - 1] == keys[j];
      MissingInOrder(tail, body, i - 1, j - 1);
      var m := MissingOf(keys, body);
      var rest := MissingOf(tail, body);
      var p, q :| 0 <= p < q < |rest| && rest[p] == tail[i - 1] && rest[q] == tail[j - 1];
      if Blank(body, keys[0]) {
        assert m == [keys[0]] + rest;
        assert 0 <= p + 1 < q + 1 < |m| && m[p + 1] == keys[i] && m[q + 1] == keys[j];
      } else {
        assert m == rest;
      }
    }
  }

  lemma FirstBlankPrecedes(keys: seq<string>, body: Body, j: nat)
    requires 0 < j < |keys| && Blank(body, keys[0]) && Blank(body, keys[j])
    ensures exists p, q :: (0 <= p < q < |MissingOf(keys, body)|
      && MissingOf(keys, body)[p] == keys[0] && MissingOf(keys, body)[q] == keys[j])
  {
    var m := MissingOf(keys, body);
    assert keys[j] in keys[1..];
    var rest := MissingOf(keys[1..], body);
    var q :| 0 <= q < |rest| && rest[q] == keys[j];
    assert m[0] == keys[0] && m[q + 1] == keys[j];
  }

  /** `eligible_organizations`: an array as it is, a string split on commas, trimmed and without blanks, else empty. */
  function EligibleOf(v: Value): seq<string> {
    match v
    case Arr(items) => items
    case Str(s) => TrimmedPieces(Split(s, ','))
    case _ => []
  }

  /** `.map((s) => s.trim()).filter((s) => s !== '')` */
  function TrimmedPieces(pieces: seq<string>): (kept: seq<string>)
    ensures forall e :: e in kept <==> e != "" && exists p :: p in pieces && Trim(p) == e
    decreases |pieces|
  {
    if |pieces| == 0 then []
    else
      var rest := TrimmedPieces(pieces[1..]);
      assert forall p :: p in pieces <==> p == pieces[0] || p in pieces[1..];
      if Trim(pieces[0]) != "" then [Trim(pieces[0])] + rest else rest
  }

  /**
   * The filter after the trim keeps each non-empty trimmed piece as often as
   * the map produced it, and in its order; it drops every empty one.
   */
  lemma {:induction false} TrimmedKeepsOrder(pieces: seq<string>)
    ensures forall e :: multiset(TrimmedPieces(pieces))[e] == if e == "" then 0 else multiset(TrimAll(pieces))[e]
    ensures IsSubsequence(TrimmedPieces(pieces), TrimAll(pieces))
    decreases |pieces|
  {
    if |pieces| > 0 {
      TrimmedKeepsOrder(pieces[1..]);
      var rest := TrimmedPieces(pieces[1..]);
      var all := TrimAll(pieces);
      assert all == [Trim(pieces[0])] + TrimAll(pieces[1..]);
      assert all[1..] == TrimAll(pieces[1..]);
      if Trim(pieces[0]) != "" {
        assert ([Trim(pieces[0])] + rest)[1..] == rest;
      } else {
        SubsequenceOfTail(rest, all);
      }
    }
  }

  /** `max_participants`: null when undefined, null or blank, otherwise `Number(...)` (None again for NaN). */
  function MaxParticipantsOf(v: Value): (r: Option<int>)
    ensures v.Undefined? || v.Null? ==> r.None?
    ensures v.Str? && Trim(v.s) == "" ==> r.None?
    ensures v.Num? ==> r == Some(v.n)
    ensures !v.Undefined? && !v.Null? && Trim(StringOf(v)) != "" ==> r == NumberOf(v)
    ensures v.Str? && AllDigits(v.s) && v.s != "" ==> r == Some(DigitsValue(v.s))
  {
    if !v.Undefined? && !v.Null? && Trim(StringOf(v)) != "" then NumberOf(v) else None
  }

  /** `Number(body.hours) || 1` */
  function HoursOf(v: Value): (h: int)
    ensures h != 0
    ensures h == 1 <==> NumberOf(v).None? || NumberOf(v).value == 0 || NumberOf(v).value == 1
    ensures NumberOf(v).Some? && NumberOf(v).value != 0 ==> h == NumberOf(v).value
  {
    var n := NumberOf(v);
    if n.Some? && n.value != 0 then n.value else 1
  }

  datatype AdminUser = AdminUser(userId: string, adminLevel: Option<string>, organizationId: Option<string>)

  /** The row handed to the insert; status is left to the table's default. */
  datatype ActivityInsert = ActivityInsert(title: Value, description: string, location: Value, activityType: Value,
                                           academicYear: Value, organizer: Value, eligibleOrganizations: seq<string>,
                                           startDate: Value, endDate: Value, startTimeOnly: Value, endTimeOnly: Value,
                                           hours: int, maxParticipants: Option<int>, organizationId: Option<string>,
                                           createdBy: string)

  /** `(body.description ?? '').toString()` */
  function DescriptionOf(v: Value): string {
    if v.Undefined? || v.Null? then "" else StringOf(v)
  }

  /** The insert's values for a body that has every required key. */
  function InsertOf(body: Body, user: AdminUser): ActivityInsert {
    ActivityInsert(Get(body, "activity_name"), DescriptionOf(Get(body, "description")), Get(body, "location"),
                   Get(body, "activity_type"), Get(body, "academic_year"), Get(body, "organizer"),
                   EligibleOf(Get(body, "eligible_organizations")), Get(body, "start_date"), Get(body, "end_date"),
                   Get(body, "start_time"), Get(body, "end_time"), HoursOf(Get(body, "hours")),
                   MaxParticipantsOf(Get(body, "max_participants")),
                   if user.adminLevel == Some("OrganizationAdmin") then user.organizationId else None,
                   user.userId)
  }

  datatype Reply = Created(id: string) | Failure(status: int, error: string)

  const MissingPrefix := "ข้อมูลไม่ครบถ้วน: "
  const InsertFailed := "เกิดข้อผิดพลาดในการสร้างกิจกรรม"

  /** `POST`: the body, the required keys, then the insert. */
  function CreateActivity(body: Option<Body>, user: AdminUser, insert: ActivityInsert -> Option<string>): (r: Reply)
    ensures body.None? ==> r == Failure(400, "Invalid JSON body")
    ensures body.Some? && MissingOf(Required, body.value) != [] ==>
      r == Failure(400, MissingPrefix + Join(MissingOf(Required, body.value), ", "))
    ensures r.Created? <==> body.Some? && (forall k :: k in Required ==> !Blank(body.value, k))
                            && insert(InsertOf(body.value, user)).Some?
    ensures r.Created? ==> r.id == insert(InsertOf(body.value, user)).value
    ensures body.Some? && MissingOf(Required, body.value) == [] && insert(InsertOf(body.value, user)).None? ==>
      r == Failure(500, InsertFailed)
  {
    if body.None? then Failure(400, "Invalid JSON body")
    else
      NoneMissing(Required, body.value);
      var missing := MissingOf(Required, body.value);
      if |missing| > 0 then Failure(400, MissingPrefix + Join(missing, ", "))
      else
        match insert(InsertOf(body.value, user))
        case Some(id) => Created(id)
        case None => Failure(500, InsertFailed)
  }

  /** Only an OrganizationAdmin's activities carry an organization, and then the admin's own. */
  lemma OrganizationOnlyForOrganizationAdmin(body: Body, user: AdminUser)
    ensures InsertOf(body, user).organizationId.Some? ==>
      user.adminLevel == Some("OrganizationAdmin") && InsertOf(body, user).organizationId == user.organizationId
    ensures InsertOf(body, user).createdBy == user.userId
  {
  }

  /** An empty array counts as missing, since `String([])` is blank although `[]` is truthy. */
  lemma EmptyArrayIsMissing(body: Body, key: string)
    requires key in body && body[key] == Arr([])
    ensures Blank(body, key)
  {
  }

  /** A whitespace-only array item, on the other hand, is not blank when others accompany it. */
  lemma SeparatedArrayIsPresent(body: Body, key: string)
    requires key in body && body[key] == Arr([" ", " "])
    ensures !Blank(body, key)
  {
    assert StringOf(body[key]) == " , ";
    assert TrimStart(" , ") == ", ";
    assert TrimEnd(", ") == ",";
  }

  /** A string list keeps every non-blank item, trimmed, and nothing else. */
  lemma EligibleFromString(s: string)
    ensures forall e :: e in EligibleOf(Str(s)) <==> e != "" && exists p :: p in Split(s, ',') && Trim(p) == e
    ensures forall e :: multiset(EligibleOf(Str(s)))[e] == if e == "" then 0 else multiset(TrimAll(Split(s, ',')))[e]
    ensures IsSubsequence(EligibleOf(Str(s)), TrimAll(Split(s, ',')))
  {
    TrimmedKeepsOrder(Split(s, ','));
  }
}
