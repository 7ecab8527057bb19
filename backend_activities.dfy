/**
 * The activities handlers of the Rust backend
 * (backend/src/modules/activities/handlers.rs): the list visibility rule,
 * the admin gate on create, update and delete, the dynamic UPDATE statement
 * with its numbered placeholders and binds, and registration with its
 * conflict mapping. The table rows are the fields of `ActivityTable`.
 */
module BackendActivities {
  import opened Common
  import opened BackendModels
  import opened BackendAuth

  datatype ActivityType = Academic | Sports | Cultural | Social | Other

  /** One row of `activities`; dates and times are kept as their text. */
  datatype Activity = Activity(
    id: string,
    title: string,
    description: string,
    location: string,
    activityType: ActivityType,
    startDate: string,
    endDate: string,
    startTime: Option<string>,
    endTime: Option<string>,
    hours: int,
    maxParticipants: Option<int>,
    registrationOpen: bool,
    status: ActivityStatus,
    organizerId: string,
    createdBy: string,
    updatedAt: int,
    academicYear: int)

  datatype Participation = Participation(id: string, userId: string, activityId: string, registered: bool)

  // ---------------------------------------------------------------------
  // List visibility

  /** The rows with status 'published', in their order. */
  function Published(rows: seq<Activity>): (r: seq<Activity>)
    ensures forall k :: 0 <= k < |r| ==> r[k].status == ActivityStatus.Published
    ensures forall a :: a in rows && a.status == ActivityStatus.Published ==> a in r
    ensures forall a :: a in r ==> a in rows
    decreases |rows|
  {
    if |rows| == 0 then []
    else if rows[0].status == ActivityStatus.Published then [rows[0]] + Published(rows[1..])
    else Published(rows[1..])
  }

  /** The published rows keep their order and occur as often as in the table. */
  lemma {:induction false} PublishedKeepsOrder(rows: seq<Activity>)
    ensures forall a :: multiset(Published(rows))[a] == if a.status == ActivityStatus.Published then multiset(rows)[a] else 0
    ensures IsSubsequence(Published(rows), rows)
    decreases |rows|
  {
    if |rows| > 0 {
      PublishedKeepsOrder(rows[1..]);
      var rest := Published(rows[1..]);
      assert rows == [rows[0]] + rows[1..];
      if rows[0].status == ActivityStatus.Published {
        assert ([rows[0]] + rest)[1..] == rest;
      } else {
        SubsequenceOfTail(rest, rows);
      }
    }
  }

  /**
   * `list_activities`: admins see every row; everyone else, including a
   * caller whose credentials fail, sees only the published rows.
   */
  function ListActivities(claims: Result<Claims, HttpError>, rows: seq<Activity>): (r: seq<Activity>)
    ensures claims.Ok? && claims.value.isAdmin ==> r == rows
    ensures !(claims.Ok? && claims.value.isAdmin) ==> r == Published(rows)
  {
    if claims.Ok? && claims.value.isAdmin then rows else Published(rows)
  }

  /** A caller who is not an admin never sees an unpublished row. */
  lemma NonAdminSeesOnlyPublished(claims: Result<Claims, HttpError>, rows: seq<Activity>, a: Activity)
    requires !(claims.Ok? && claims.value.isAdmin)
    ensures a in ListActivities(claims, rows) <==> a in rows && a.status == ActivityStatus.Published
  {
  }

  // ---------------------------------------------------------------------
  // The dynamic UPDATE of `update_activity`

  datatype UpdateActivityInput = UpdateActivityInput(
    title: Option<string>,
    description: Option<string>,
    location: Option<string>,
    status: Option<ActivityStatus>,
    registrationOpen: Option<bool>,
    maxParticipants: Option<int>)

  /** A value bound to a placeholder. */
  datatype BindValue = IdValue(id: string) | TextValue(text: string) | StatusValue(status: ActivityStatus)
                     | FlagValue(flag: bool) | CountValue(count: int)

  datatype Field = Field(column: string, value: BindValue)

  function TitleField(p: UpdateActivityInput): seq<Field> {
    if p.title.Some? then [Field("title", TextValue(p.title.value))] else []
  }

  function DescriptionField(p: UpdateActivityInput): seq<Field> {
    if p.description.Some? then [Field("description", TextValue(p.description.value))] else []
  }

  function LocationField(p: UpdateActivityInput): seq<Field> {
    if p.location.Some? then [Field("location", TextValue(p.location.value))] else []
  }

  function StatusField(p: UpdateActivityInput): seq<Field> {
    if p.status.Some? then [Field("status", StatusValue(p.status.value))] else []
  }

  function RegistrationOpenField(p: UpdateActivityInput): seq<Field> {
    if p.registrationOpen.Some? then [Field("registration_open", FlagValue(p.registrationOpen.value))] else []
  }

  function MaxParticipantsField(p: UpdateActivityInput): seq<Field> {
    if p.maxParticipants.Some? then [Field("max_participants", CountValue(p.maxParticipants.value))] else []
  }

  /** The provided fields, in the order the handler tests them. */
  function ProvidedFields(p: UpdateActivityInput): (fs: seq<Field>)
    ensures |fs| <= 6
  {
    TitleField(p) + DescriptionField(p) + LocationField(p) + StatusField(p)
      + RegistrationOpenField(p) + MaxParticipantsField(p)
  }

  const UpdatedAtNow := "updated_at = NOW()"

  /** `col = $k` */
  function Assignment(column: string, k: nat): string {
    column + " = $" + NatToString(k)
  }

  /** One assignment per field, numbered from `k` upwards. */
  function Assignments(fs: seq<Field>, k: nat): (r: seq<string>)
    ensures |r| == |fs|
    decreases |fs|
  {
    if |fs| == 0 then [] else [Assignment(fs[0].column, k)] + Assignments(fs[1..], k + 1)
  }

  function BindValues(fs: seq<Field>): (r: seq<BindValue>)
    ensures |r| == |fs|
    decreases |fs|
  {
    if |fs| == 0 then [] else [fs[0].value] + BindValues(fs[1..])
  }

  /** The j-th assignment names the j-th field with placeholder k + j. */
  lemma {:induction false} AssignmentAt(fs: seq<Field>, k: nat, j: nat)
    requires j < |fs|
    ensures Assignments(fs, k)[j] == Assignment(fs[j].column, k + j)
    decreases j
  {
    if j > 0 {
      AssignmentAt(fs[1..], k + 1, j - 1);
    }
  }

  lemma {:induction false} BindValueAt(fs: seq<Field>, j: nat)
    requires j < |fs|
    ensures BindValues(fs)[j] == fs[j].value
    decreases j
  {
    if j > 0 {
      BindValueAt(fs[1..], j - 1);
    }
  }

  lemma {:induction false} AssignmentsSnoc(fs: seq<Field>, f: Field, k: nat)
    ensures Assignments(fs + [f], k) == Assignments(fs, k) + [Assignment(f.column, k + |fs|)]
    decreases |fs|
  {
    if |fs| > 0 {
      AssignmentsSnoc(fs[1..], f, k + 1);
      assert (fs + [f])[1..] == fs[1..] + [f];
    } else {
      assert fs + [f] == [f];
    }
  }

  lemma {:induction false} BindValuesSnoc(fs: seq<Field>, f: Field)
    ensures BindValues(fs + [f]) == BindValues(fs) + [f.value]
    decreases |fs|
  {
    if |fs| > 0 {
      BindValuesSnoc(fs[1..], f);
      assert (fs + [f])[1..] == fs[1..] + [f];
    } else {
      assert fs + [f] == [f];
    }
  }

  /** The statement text around a SET clause. */
  function UpdateStatement(setParts: seq<string>): string {
    "UPDATE activities SET " + Join(setParts, ", ") + " WHERE id = $1"
  }

  /** `i += 1; set_parts.push(format!("col = ${}", i))` */
  method PushAssignment(setParts: seq<string>, i: nat, ghost done: seq<Field>, column: string, ghost v: BindValue)
    returns (setParts': seq<string>, i': nat)
    requires setParts == [UpdatedAtNow] + Assignments(done, 2) && i == |done| + 1
    ensures setParts' == [UpdatedAtNow] + Assignments(done + [Field(column, v)], 2)
    ensures i' == |done| + 2
  {
    i' := i + 1;
    setParts' := setParts + [Assignment(column, i')];
    AssignmentsSnoc(done, Field(column, v), 2);
  }

  /** `q = q.bind(value)` */
  method PushBind(binds: seq<BindValue>, ghost first: BindValue, ghost bound: seq<Field>, f: Field)
    returns (binds': seq<BindValue>)
    requires binds == [first] + BindValues(bound)
    ensures binds' == [first] + BindValues(bound + [f])
  {
    binds' := binds + [f.value];
    BindValuesSnoc(bound, f);
  }

  /**
   * The SET-clause and bind builder of `update_activity`, step by step as the
   * handler pushes onto `set_parts` and rebinds the query.
   */
  method BuildUpdate(p: UpdateActivityInput, activityId: string)
    returns (query: string, setParts: seq<string>, binds: seq<BindValue>)
    ensures setParts == [UpdatedAtNow] + Assignments(ProvidedFields(p), 2)
    ensures binds == [IdValue(activityId)] + BindValues(ProvidedFields(p))
    ensures query == UpdateStatement(setParts)
  {
    setParts := BuildSetParts(p);
    query := UpdateStatement(setParts);
    binds := BindProvided(p, activityId);
  }

  /** The pushes onto `set_parts`, with `i` counting the placeholders. */
  method BuildSetParts(p: UpdateActivityInput) returns (setParts: seq<string>)
    ensures setParts == [UpdatedAtNow] + Assignments(ProvidedFields(p), 2)
  {
    ghost var fs1 := TitleField(p);
    ghost var fs2 := fs1 + DescriptionField(p);
    ghost var fs3 := fs2 + LocationField(p);
    ghost var fs4 := fs3 + StatusField(p);
    ghost var fs5 := fs4 + RegistrationOpenField(p);
    setParts := [UpdatedAtNow];
    var i: nat := 1;
    setParts, i := PushIfProvided(setParts, i, [], TitleField(p), p.title.Some?, "title");
    assert [] + TitleField(p) == fs1;
    setParts, i := PushIfProvided(setParts, i, fs1, DescriptionField(p), p.description.Some?, "description");
    setParts, i := PushIfProvided(setParts, i, fs2, LocationField(p), p.location.Some?, "location");
    setParts, i := PushIfProvided(setParts, i, fs3, StatusField(p), p.status.Some?, "status");
    setParts, i := PushIfProvided(setParts, i, fs4, RegistrationOpenField(p), p.registrationOpen.Some?,
                                  "registration_open");
    setParts, i := PushIfProvided(setParts, i, fs5, MaxParticipantsField(p), p.maxParticipants.Some?,
                                  "max_participants");
  }

  /** `if let Some(..) = payload.column { i += 1; set_parts.push(...) }`; `field` is the column's provided value, if any. */
  method PushIfProvided(setParts: seq<string>, i: nat, ghost done: seq<Field>, ghost field: seq<Field>,
                        provided: bool, column: string)
    returns (setParts': seq<string>, i': nat)
    requires setParts == [UpdatedAtNow] + Assignments(done, 2) && i == |done| + 1
    requires |field| <= 1 && (provided <==> |field| == 1) && (provided ==> field[0].column == column)
    ensures setParts' == [UpdatedAtNow] + Assignments(done + field, 2)
    ensures i' == |done + field| + 1
  {
    if provided {
      setParts', i' := PushAssignment(setParts, i, done, column, field[0].value);
      assert field == [Field(column, field[0].value)];
    } else {
      setParts', i' := setParts, i;
      assert done + field == done;
    }
  }

  /** The bind chain: the activity id, then each provided value. */
  method BindProvided(p: UpdateActivityInput, activityId: string) returns (binds: seq<BindValue>)
    ensures binds == [IdValue(activityId)] + BindValues(ProvidedFields(p))
  {
    ghost var fs1 := TitleField(p);
    ghost var fs2 := fs1 + DescriptionField(p);
    ghost var fs3 := fs2 + LocationField(p);
    ghost var fs4 := fs3 + StatusField(p);
    ghost var fs5 := fs4 + RegistrationOpenField(p);
    ghost var fs6 := fs5 + MaxParticipantsField(p);
    binds := [IdValue(activityId)];
    if p.title.Some? {
      binds := PushBind(binds, IdValue(activityId), [], Field("title", TextValue(p.title.value)));
    }
    assert binds == [IdValue(activityId)] + BindValues(fs1);
    if p.description.Some? {
      binds := PushBind(binds, IdValue(activityId), fs1, Field("description", TextValue(p.description.value)));
    } else {
      assert fs2 == fs1;
    }
    assert binds == [IdValue(activityId)] + BindValues(fs2);
    if p.location.Some? {
      binds := PushBind(binds, IdValue(activityId), fs2, Field("location", TextValue(p.location.value)));
    } else {
      assert fs3 == fs2;
    }
    assert binds == [IdValue(activityId)] + BindValues(fs3);
    if p.status.Some? {
      binds := PushBind(binds, IdValue(activityId), fs3, Field("status", StatusValue(p.status.value)));
    } else {
      assert fs4 == fs3;
    }
    assert binds == [IdValue(activityId)] + BindValues(fs4);
    if p.registrationOpen.Some? {
      binds := PushBind(binds, IdValue(activityId), fs4, Field("registration_open", FlagValue(p.registrationOpen.value)));
    } else {
      assert fs5 == fs4;
    }
    assert binds == [IdValue(activityId)] + BindValues(fs5);
    if p.maxParticipants.Some? {
      binds := PushBind(binds, IdValue(activityId), fs5, Field("max_participants", CountValue(p.maxParticipants.value)));
    } else {
      assert fs6 == fs5;
    }
    assert binds == [IdValue(activityId)] + BindValues(fs6);
  }

  /**
   * Placeholders line up with binds: `$1` is the activity id, and for every
   * k from 2 to the number of binds, the (k-1)-th SET part assigns `$k` to
   * the (k-1)-th provided field, whose value is exactly bind k.
   */
  lemma PlaceholdersMatchBinds(p: UpdateActivityInput, activityId: string, k: nat)
    requires 2 <= k <= |ProvidedFields(p)| + 1
    ensures var fs := ProvidedFields(p);
      var setParts := [UpdatedAtNow] + Assignments(fs, 2);
      var binds := [IdValue(activityId)] + BindValues(fs);
      |binds| == |setParts| == |fs| + 1
      && binds[0] == IdValue(activityId)
      && setParts[k - 1] == Assignment(fs[k - 2].column, k)
      && binds[k - 1] == fs[k - 2].value
  {
    var fs := ProvidedFields(p);
    AssignmentAt(fs, 2, k - 2);
    BindValueAt(fs, k - 2);
  }

  /** Distinct SET parts carry distinct placeholder numbers. */
  lemma {:induction false} PlaceholdersDistinct(fs: seq<Field>, k: nat, i: nat, j: nat)
    requires i < j < |fs|
    ensures NatToString(k + i) != NatToString(k + j)
  {
    if NatToString(k + i) == NatToString(k + j) {
      NatToStringInjective(k + i, k + j);
    }
  }

  /** With no optional field the statement only touches `updated_at`. */
  lemma EmptyUpdate(p: UpdateActivityInput)
    requires p == UpdateActivityInput(None, None, None, None, None, None)
    ensures UpdateStatement([UpdatedAtNow] + Assignments(ProvidedFields(p), 2))
         == "UPDATE activities SET updated_at = NOW() WHERE id = $1"
  {
    assert ProvidedFields(p) == [];
    var parts := [UpdatedAtNow] + Assignments([], 2);
    assert parts == [UpdatedAtNow];
    assert Join(parts, ", ") == UpdatedAtNow;
  }

  /**
   * The row after the UPDATE: each of the six optional columns takes the
   * provided value or keeps its own, `updated_at` becomes now, and every
   * other column is untouched.
   */
  function ApplyUpdate(a: Activity, p: UpdateActivityInput, now: int): (b: Activity)
    ensures b.updatedAt == now
    ensures b.title == (if p.title.Some? then p.title.value else a.title)
    ensures b.description == (if p.description.Some? then p.description.value else a.description)
    ensures b.location == (if p.location.Some? then p.location.value else a.location)
    ensures b.status == (if p.status.Some? then p.status.value else a.status)
    ensures b.registrationOpen == (if p.registrationOpen.Some? then p.registrationOpen.value else a.registrationOpen)
    ensures b.maxParticipants == (if p.maxParticipants.Some? then Some(p.maxParticipants.value) else a.maxParticipants)
    ensures b.id == a.id && b.activityType == a.activityType && b.startDate == a.startDate && b.endDate == a.endDate
    ensures b.startTime == a.startTime && b.endTime == a.endTime && b.hours == a.hours
    ensures b.organizerId == a.organizerId && b.createdBy == a.createdBy && b.academicYear == a.academicYear
    ensures p == UpdateActivityInput(None, None, None, None, None, None) ==> b == a.(updatedAt := now)
  {
    a.(title := if p.title.Some? then p.title.value else a.title,
       description := if p.description.Some? then p.description.value else a.description,
       location := if p.location.Some? then p.location.value else a.location,
       status := if p.status.Some? then p.status.value else a.status,
       registrationOpen := if p.registrationOpen.Some? then p.registrationOpen.value else a.registrationOpen,
       maxParticipants := if p.maxParticipants.Some? then Some(p.maxParticipants.value) else a.maxParticipants,
       updatedAt := now)
  }

  /** Re-applying the same update at the same time changes nothing more. */
  lemma ApplyUpdateIdempotent(a: Activity, p: UpdateActivityInput, now: int)
    ensures ApplyUpdate(ApplyUpdate(a, p, now), p, now) == ApplyUpdate(a, p, now)
  {
  }

  // ---------------------------------------------------------------------
  // Creation and the store

  datatype CreateActivityInput = CreateActivityInput(
    title: string,
    description: Option<string>,
    location: Option<string>,
    activityType: ActivityType,
    startDate: string,
    endDate: string,
    startTime: Option<string>,
    endTime: Option<string>,
    hours: int,
    maxParticipants: Option<int>,
    organizerId: string)

  /** `Uuid::parse_str` is foreign: it yields the canonical id or fails. */
  type UuidParser = string -> Option<string>

  /** The row `create_activity` inserts: Published, registration open. */
  function NewActivity(input: CreateActivityInput, id: string, creator: string, now: int, year: int): (a: Activity)
    ensures a.status == ActivityStatus.Published && a.registrationOpen
    ensures a.id == id && a.createdBy == creator && a.title == input.title
    ensures a.description == (if input.description.Some? then input.description.value else "")
    ensures a.location == (if input.location.Some? then input.location.value else "")
  {
    Activity(id, input.title,
             if input.description.Some? then input.description.value else "",
             if input.location.Some? then input.location.value else "",
             input.activityType, input.startDate, input.endDate, input.startTime, input.endTime,
             input.hours, input.maxParticipants, true, ActivityStatus.Published,
             input.organizerId, creator, now, year)
  }

  const AdminRequired := HttpError(403, "Admin access required")

  class ActivityTable {
    var activities: map<string, Activity>
    var participations: seq<Participation>

    constructor (rows: map<string, Activity>)
      ensures activities == rows && participations == []
    {
      activities, participations := rows, [];
    }

    /** `create_activity`: 403 for non-admins before anything is written. */
    method CreateActivity(claims: Result<Claims, HttpError>, input: CreateActivityInput, parse: UuidParser,
                          id: string, now: int, year: int) returns (r: Result<string, HttpError>)
      modifies this`activities
      ensures claims.Err? ==> r == Err(claims.error) && activities == old(activities)
      ensures claims.Ok? && !claims.value.isAdmin ==> r == Err(AdminRequired) && activities == old(activities)
      ensures claims.Ok? && claims.value.isAdmin && parse(claims.value.sub).None? ==>
        r == Err(HttpError(401, "Invalid user ID")) && activities == old(activities)
      ensures claims.Ok? && claims.value.isAdmin && parse(claims.value.sub).Some? ==>
        r == Ok(id) && activities == old(activities)[id := NewActivity(input, id, parse(claims.value.sub).value, now, year)]
    {
      if claims.Err? {
        return Err(claims.error);
      }
      if !claims.value.isAdmin {
        return Err(AdminRequired);
      }
      var creator := parse(claims.value.sub);
      if creator.None? {
        return Err(HttpError(401, "Invalid user ID"));
      }
      activities := activities[id := NewActivity(input, id, creator.value, now, year)];
      r := Ok(id);
    }

    /**
     * `update_activity`: 403 for non-admins before anything is written;
     * otherwise the built statement is executed and the row re-read (404
     * when there is none).
     */
    method UpdateActivity(claims: Result<Claims, HttpError>, activityId: string, p: UpdateActivityInput, now: int)
      returns (r: Result<Activity, HttpError>)
      modifies this`activities
      ensures claims.Err? ==> r == Err(claims.error) && activities == old(activities)
      ensures claims.Ok? && !claims.value.isAdmin ==> r == Err(AdminRequired) && activities == old(activities)
      ensures claims.Ok? && claims.value.isAdmin && activityId !in old(activities) ==>
        r == Err(HttpError(404, "Activity not found")) && activities == old(activities)
      ensures claims.Ok? && claims.value.isAdmin && activityId in old(activities) ==>
        var b := ApplyUpdate(old(activities)[activityId], p, now);
        r == Ok(b) && activities == old(activities)[activityId := b]
    {
      if claims.Err? {
        return Err(claims.error);
      }
      if !claims.value.isAdmin {
        return Err(AdminRequired);
      }
      var query, setParts, binds := BuildUpdate(p, activityId);
      if activityId in activities {
        activities := activities[activityId := ApplyUpdate(activities[activityId], p, now)];
      }
      if activityId !in activities {
        return Err(HttpError(404, "Activity not found"));
      }
      r := Ok(activities[activityId]);
    }

    /**
     * `delete_activity`: 403 for non-admins before anything is written. The
     * participations table references activities with `ON DELETE CASCADE`
     * (src/lib/server/db/schema.ts), so the activity's participations go too.
     */
    method DeleteActivity(claims: Result<Claims, HttpError>, activityId: string) returns (r: Result<string, HttpError>)
      modifies this`activities, this`participations
      ensures claims.Err? ==> r == Err(claims.error) && activities == old(activities) && participations == old(participations)
      ensures claims.Ok? && !claims.value.isAdmin ==>
        r == Err(AdminRequired) && activities == old(activities) && participations == old(participations)
      ensures claims.Ok? && claims.value.isAdmin ==>
        r == Ok("Activity deleted successfully") && activities == old(activities) - {activityId}
        && participations == WithoutActivity(old(participations), activityId)
    {
      if claims.Err? {
        return Err(claims.error);
      }
      if !claims.value.isAdmin {
        return Err(AdminRequired);
      }
      activities := activities - {activityId};
      participations := WithoutActivity(participations, activityId);
      r := Ok("Activity deleted successfully");
    }

    /**
     * `join_activity`: a 'registered' participation is inserted; the unique
     * (user, activity) constraint turns a second registration into 409, and
     * the foreign key on the activity into a 500 database error.
     */
    method JoinActivity(claims: Result<Claims, HttpError>, activityId: string, parse: UuidParser,
                        participationId: string, dbMessage: string) returns (r: Result<string, HttpError>)
      modifies this`participations
      ensures claims.Err? ==> r == Err(claims.error) && participations == old(participations)
      ensures claims.Ok? && parse(claims.value.sub).None? ==>
        r == Err(HttpError(401, "Invalid user ID")) && participations == old(participations)
      ensures claims.Ok? && parse(claims.value.sub).Some? ==>
        var uid := parse(claims.value.sub).value;
        if Registered(old(participations), uid, activityId) then
          r == Err(HttpError(409, "Already registered for this activity")) && participations == old(participations)
        else if activityId !in activities then
          r == Err(HttpError(500, "Database error: " + dbMessage)) && participations == old(participations)
        else
          r == Ok(participationId)
          && participations == old(participations) + [Participation(participationId, uid, activityId, true)]
    {
      if claims.Err? {
        return Err(claims.error);
      }
      var uid := parse(claims.value.sub);
      if uid.None? {
        return Err(HttpError(401, "Invalid user ID"));
      }
      if Registered(participations, uid.value, activityId) {
        return Err(HttpError(409, "Already registered for this activity"));
      }
      if activityId !in activities {
        return Err(HttpError(500, "Database error: " + dbMessage));
      }
      participations := participations + [Participation(participationId, uid.value, activityId, true)];
      r := Ok(participationId);
    }
  }

  predicate Registered(ps: seq<Participation>, userId: string, activityId: string) {
    exists k :: 0 <= k < |ps| && ps[k].userId == userId && ps[k].activityId == activityId
  }

  /** The cascade of a deleted activity: every other participation, in order. */
  function WithoutActivity(ps: seq<Participation>, activityId: string): (kept: seq<Participation>)
    ensures forall p :: p in kept <==> p in ps && p.activityId != activityId
    ensures IsSubsequence(kept, ps)
    decreases |ps|
  {
    if |ps| == 0 then []
    else
      var rest := WithoutActivity(ps[1..], activityId);
      if ps[0].activityId != activityId then
        assert ([ps[0]] + rest)[1..] == rest;
        [ps[0]] + rest
      else
        SubsequenceOfTail(rest, ps);
        rest
  }

  /**
   * After the cascade nobody is registered for the deleted activity, so a
   * later join of it is not a 409 conflict but meets the missing activity.
   */
  lemma CascadeClearsRegistrations(ps: seq<Participation>, activityId: string, userId: string)
    ensures !Registered(WithoutActivity(ps, activityId), userId, activityId)
  {
    var kept := WithoutActivity(ps, activityId);
    forall k | 0 <= k < |kept| ensures kept[k].activityId != activityId {
      assert kept[k] in kept;
    }
  }

  /** After a successful join, joining again is a conflict. */
  lemma JoinTwiceConflicts(ps: seq<Participation>, p: Participation)
    ensures Registered(ps + [p], p.userId, p.activityId)
  {
    assert (ps + [p])[|ps|] == p;
  }
}
