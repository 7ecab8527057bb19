/**
 * frontend/src/lib/utils/activity-hours.ts: cumulative hours from the
 * participation history, progress against the faculty and university
 * requirements, the status text and the remaining hours. Hours are whole
 * numbers; percentages are exact reals.
 */
module ActivityHours {
  import opened Common

  datatype HourActivity = HourActivity(id: string, hours: nat, activityLevel: string, status: string)

  datatype HourParticipation = HourParticipation(status: string, activity: HourActivity)

  datatype HoursSummary = HoursSummary(totalHours: nat, facultyHours: nat, universityHours: nat,
                                       completedActivities: nat, totalActivities: nat)

  /** A finished participation in a finished activity; only these are counted. */
  predicate Counts(p: HourParticipation) {
    (p.status == "checked_out" || p.status == "completed") && p.activity.status == "completed"
  }

  /** The `countedActivities` set after the records of `ps`. */
  function CountedIds(ps: seq<HourParticipation>): (ids: set<string>)
    ensures forall id :: id in ids <==> exists k :: 0 <= k < |ps| && Counts(ps[k]) && ps[k].activity.id == id
    decreases |ps|
  {
    if |ps| == 0 then {}
    else
      var prefix := ps[..|ps| - 1];
      var last := ps[|ps| - 1];
      var before := CountedIds(prefix);
      assert forall k :: 0 <= k < |prefix| ==> prefix[k] == ps[k];
      if Counts(last) then before + {last.activity.id} else before
  }

  /** The running counters: faculty hours, university hours and counted activities. */
  datatype Counters = Counters(faculty: nat, university: nat, completed: nat)

  /** The counters after the records of `ps`: each counting activity id contributes once, at its first record. */
  function CountersOf(ps: seq<HourParticipation>): Counters
    decreases |ps|
  {
    if |ps| == 0 then Counters(0, 0, 0)
    else
      var prefix := ps[..|ps| - 1];
      var last := ps[|ps| - 1];
      var c := CountersOf(prefix);
      if Counts(last) && last.activity.id !in CountedIds(prefix) then
        Counters(if last.activity.activityLevel == "faculty" then c.faculty + last.activity.hours else c.faculty,
                 if last.activity.activityLevel == "university" then c.university + last.activity.hours else c.university,
                 c.completed + 1)
      else c
  }

  /** `completedActivities` is the number of distinct counting activities, never more than the records. */
  lemma {:induction false} CompletedIsDistinctCount(ps: seq<HourParticipation>)
    ensures CountersOf(ps).completed == |CountedIds(ps)|
    ensures |CountedIds(ps)| <= |ps|
    decreases |ps|
  {
    if |ps| > 0 {
      var prefix := ps[..|ps| - 1];
      var last := ps[|ps| - 1];
      CompletedIsDistinctCount(prefix);
      if Counts(last) && last.activity.id in CountedIds(prefix) {
        assert CountedIds(ps) == CountedIds(prefix);
      }
    }
  }

  /** A record for an activity already counted changes no counter. */
  lemma RepeatIgnored(ps: seq<HourParticipation>, p: HourParticipation)
    requires exists k :: 0 <= k < |ps| && Counts(ps[k]) && ps[k].activity.id == p.activity.id
    ensures CountersOf(ps + [p]) == CountersOf(ps)
  {
    assert (ps + [p])[..|ps|] == ps;
  }

  /** `calculateCumulativeHours`: the `forEach` with its `countedActivities` set. */
  method CalculateCumulativeHours(ps: seq<HourParticipation>) returns (summary: HoursSummary)
    ensures summary.facultyHours == CountersOf(ps).faculty
    ensures summary.universityHours == CountersOf(ps).university
    ensures summary.totalHours == summary.facultyHours + summary.universityHours
    ensures summary.completedActivities == |CountedIds(ps)| <= summary.totalActivities == |ps|
  {
    var facultyHours: nat := 0;
    var universityHours: nat := 0;
    var completedActivities: nat := 0;
    var counted: set<string> := {};
    var i := 0;
    while i < |ps|
      invariant 0 <= i <= |ps|
      invariant counted == CountedIds(ps[..i])
      invariant Counters(facultyHours, universityHours, completedActivities) == CountersOf(ps[..i])
    {
      assert ps[..i + 1][..i] == ps[..i];
      var p := ps[i];
      if (p.status == "checked_out" || p.status == "completed") && p.activity.status == "completed"
         && p.activity.id !in counted
      {
        counted := counted + {p.activity.id};
        if p.activity.activityLevel == "faculty" {
          facultyHours := facultyHours + p.activity.hours;
        } else if p.activity.activityLevel == "university" {
          universityHours := universityHours + p.activity.hours;
        }
        completedActivities := completedActivities + 1;
      }
      i := i + 1;
    }
    assert ps[..|ps|] == ps;
    CompletedIsDistinctCount(ps);
    summary := HoursSummary(facultyHours + universityHours, facultyHours, universityHours, completedActivities, |ps|);
  }

  // ---------------------------------------------------------------------
  // Requirement progress

  datatype Requirements = Requirements(requiredFacultyHours: nat, requiredUniversityHours: nat)

  datatype LevelProgress = LevelProgress(current: nat, required: nat, percentage: real, isComplete: bool)

  datatype RequirementProgress = RequirementProgress(facultyHours: LevelProgress, universityHours: LevelProgress,
                                                     overall: LevelProgress)

  /** `required > 0 ? Math.min(current / required * 100, 100) : 100` */
  function Percentage(current: nat, required: nat): (pct: real)
    ensures 0.0 <= pct <= 100.0
    ensures required == 0 ==> pct == 100.0
    ensures pct == 100.0 <==> current >= required
    ensures required > 0 && current < required ==> pct == current as real / required as real * 100.0
  {
    if required > 0 then
      var ratio := current as real / required as real * 100.0;
      assert current < required ==> ratio < 100.0 by {
        if current < required {
          assert current as real < required as real;
        }
      }
      if ratio <= 100.0 then ratio else 100.0
    else 100.0
  }

  /** `calculateRequirementProgress` */
  function CalculateRequirementProgress(hours: HoursSummary, requirements: Option<Requirements>): (r: RequirementProgress)
    ensures r.facultyHours.current == hours.facultyHours && r.universityHours.current == hours.universityHours
    ensures r.overall.current == hours.totalHours
    ensures requirements.None? ==>
      && r.facultyHours.required == 0 && r.universityHours.required == 0 && r.overall.required == 0
      && r.facultyHours.isComplete && r.universityHours.isComplete && r.overall.isComplete
      && r.facultyHours.percentage == 100.0 && r.universityHours.percentage == 100.0 && r.overall.percentage == 100.0
    ensures requirements.Some? ==>
      && r.facultyHours.required == requirements.value.requiredFacultyHours
      && r.universityHours.required == requirements.value.requiredUniversityHours
      && r.overall.required == r.facultyHours.required + r.universityHours.required
      && (r.facultyHours.isComplete <==> hours.facultyHours >= r.facultyHours.required)
      && (r.universityHours.isComplete <==> hours.universityHours >= r.universityHours.required)
      && (r.overall.isComplete <==>
            hours.totalHours >= r.overall.required && r.facultyHours.isComplete && r.universityHours.isComplete)
    ensures requirements.Some? ==>
      && r.facultyHours.percentage == Percentage(hours.facultyHours, r.facultyHours.required)
      && r.universityHours.percentage == Percentage(hours.universityHours, r.universityHours.required)
      && r.overall.percentage == Percentage(hours.totalHours, r.overall.required)
    ensures r.overall.isComplete ==> r.facultyHours.isComplete && r.universityHours.isComplete
    ensures forall lp :: lp in [r.facultyHours, r.universityHours, r.overall] ==> 0.0 <= lp.percentage <= 100.0
  {
    match requirements
    case None =>
      RequirementProgress(LevelProgress(hours.facultyHours, 0, 100.0, true),
                          LevelProgress(hours.universityHours, 0, 100.0, true),
                          LevelProgress(hours.totalHours, 0, 100.0, true))
    case Some(req) =>
      var requiredTotal := req.requiredFacultyHours + req.requiredUniversityHours;
      var facultyComplete := hours.facultyHours >= req.requiredFacultyHours;
      var universityComplete := hours.universityHours >= req.requiredUniversityHours;
      RequirementProgress(
        LevelProgress(hours.facultyHours, req.requiredFacultyHours,
                      Percentage(hours.facultyHours, req.requiredFacultyHours), facultyComplete),
        LevelProgress(hours.universityHours, req.requiredUniversityHours,
                      Percentage(hours.universityHours, req.requiredUniversityHours), universityComplete),
        LevelProgress(hours.totalHours, requiredTotal, Percentage(hours.totalHours, requiredTotal),
                      hours.totalHours >= requiredTotal && facultyComplete && universityComplete))
  }

  /**
   * For a summary whose total is the sum of its levels, as
   * `calculateCumulativeHours` returns, overall completion is exactly
   * completion of both levels, and then every percentage is 100.
   */
  lemma OverallIsBothLevels(hours: HoursSummary, requirements: Option<Requirements>)
    requires hours.totalHours == hours.facultyHours + hours.universityHours
    ensures CalculateRequirementProgress(hours, requirements).overall.isComplete <==>
      (CalculateRequirementProgress(hours, requirements).facultyHours.isComplete
       && CalculateRequirementProgress(hours, requirements).universityHours.isComplete)
    ensures CalculateRequirementProgress(hours, requirements).overall.isComplete ==>
      CalculateRequirementProgress(hours, requirements).overall.percentage == 100.0
  {
  }

  /** With a per-level shortfall the overall percentage can still read 100. */
  lemma FullOverallPercentageNotComplete()
    ensures var r := CalculateRequirementProgress(HoursSummary(20, 20, 0, 2, 2), Some(Requirements(10, 10)));
      r.overall.percentage == 100.0 && !r.overall.isComplete
  {
  }

  // ---------------------------------------------------------------------
  // Status text and remaining hours

  datatype ProgressState = Complete | InProgress | NotStarted

  datatype StatusText = StatusText(status: ProgressState, text: string, color: string)

  /** `getProgressStatusText`; `toFixed1` stands for `percentage.toFixed(1)`. */
  function GetProgressStatusText(progress: RequirementProgress, toFixed1: real -> string): (s: StatusText)
    ensures s.status == Complete <==> progress.overall.isComplete
    ensures s.status == InProgress <==> !progress.overall.isComplete && progress.overall.current > 0
    ensures s.status == NotStarted <==> !progress.overall.isComplete && progress.overall.current == 0
    ensures s.status == Complete ==> s.text == "ผ่านเกณฑ์แล้ว" && s.color == "text-green-600"
    ensures s.status == InProgress ==>
      s.text == "กำลังดำเนินการ (" + toFixed1(progress.overall.percentage) + "%)" && s.color == "text-blue-600"
    ensures s.status == NotStarted ==> s.text == "ยังไม่ได้เริ่ม" && s.color == "text-gray-500"
  {
    if progress.overall.isComplete then StatusText(Complete, "ผ่านเกณฑ์แล้ว", "text-green-600")
    else if progress.overall.current > 0 then
      StatusText(InProgress, "กำลังดำเนินการ (" + toFixed1(progress.overall.percentage) + "%)", "text-blue-600")
    else StatusText(NotStarted, "ยังไม่ได้เริ่ม", "text-gray-500")
  }

  datatype Remaining = Remaining(facultyRemaining: nat, universityRemaining: nat, totalRemaining: nat)

  /** `calculateRemainingHours` */
  function CalculateRemainingHours(progress: RequirementProgress): (r: Remaining)
    ensures r.facultyRemaining == Max(0, progress.facultyHours.required - progress.facultyHours.current)
    ensures r.universityRemaining == Max(0, progress.universityHours.required - progress.universityHours.current)
    ensures r.totalRemaining == Max(0, progress.overall.required - progress.overall.current)
  {
    Remaining(if progress.facultyHours.required > progress.facultyHours.current
              then progress.facultyHours.required - progress.facultyHours.current else 0,
              if progress.universityHours.required > progress.universityHours.current
              then progress.universityHours.required - progress.universityHours.current else 0,
              if progress.overall.required > progress.overall.current
              then progress.overall.required - progress.overall.current else 0)
  }

  /**
   * Nothing remains at a level exactly when that level is complete, and
   * nothing remains in all when the overall requirement is complete.
   */
  lemma RemainingMatchesCompletion(hours: HoursSummary, requirements: Option<Requirements>)
    ensures var p := CalculateRequirementProgress(hours, requirements);
      var r := CalculateRemainingHours(p);
      && (r.facultyRemaining == 0 <==> p.facultyHours.isComplete)
      && (r.universityRemaining == 0 <==> p.universityHours.isComplete)
      && (p.overall.isComplete ==> r.totalRemaining == 0)
  {
  }
}
