/**
 * src/lib/utils/activity-summary.ts: the participation summary (one record
 * per activity, hours by level and by type), the progress against the
 * faculty and university requirements, and the progress colour.
 * Timestamps are the milliseconds `new Date(participated_at)` denotes;
 * hours are whole numbers.
 */
module ActivitySummary {
  import opened Common

  datatype Activity = Activity(id: string, activityType: Option<string>, activityLevel: Option<string>,
                               hours: Option<nat>)

  datatype Participation = Participation(id: string, status: string, participatedAtMs: int,
                                         activity: Option<Activity>)

  /** One `byType` entry; the list keeps the order in which types first appear. */
  datatype TypeTally = TypeTally(activityType: string, count: nat, hours: nat)

  datatype LevelStats = LevelStats(activities: nat, hours: nat, byType: seq<TypeTally>)

  datatype SummaryStats = SummaryStats(totalActivities: nat, completedActivities: nat, totalHours: nat,
                                       facultyLevel: LevelStats, universityLevel: LevelStats,
                                       completionRate: real)

  // ---------------------------------------------------------------------
  // One record per activity

  /** `participation.activity?.id`, when truthy. */
  function ActivityId(p: Participation): (id: Option<string>)
    ensures id.Some? <==> p.activity.Some? && p.activity.value.id != ""
    ensures id.Some? ==> id.value == p.activity.value.id
  {
    if p.activity.Some? && p.activity.value.id != "" then Some(p.activity.value.id) else None
  }

  /** One step of the `forEach`: a record replaces the stored one only when strictly later. */
  function Keep(m: map<string, Participation>, p: Participation): map<string, Participation> {
    match ActivityId(p)
    case None => m
    case Some(id) =>
      if id !in m || p.participatedAtMs > m[id].participatedAtMs then m[id := p] else m
  }

  /** The `uniqueActivities` map after the records of `h`. */
  function Kept(h: seq<Participation>): map<string, Participation>
    decreases |h|
  {
    if |h| == 0 then map[] else Keep(Kept(h[..|h| - 1]), h[|h| - 1])
  }

  /** The map's key order: an id is placed when first stored and keeps its place. */
  function KeyOrder(h: seq<Participation>): seq<string>
    decreases |h|
  {
    if |h| == 0 then []
    else
      var rest := KeyOrder(h[..|h| - 1]);
      match ActivityId(h[|h| - 1])
      case None => rest
      case Some(id) => if id in Kept(h[..|h| - 1]) then rest else rest + [id]
  }

  /** The kept ids are exactly the truthy activity ids of the history, each listed once in key order. */
  lemma {:induction false} KeptIds(h: seq<Participation>)
    ensures forall id :: id in Kept(h) <==> exists j :: 0 <= j < |h| && ActivityId(h[j]) == Some(id)
    ensures forall id :: id in KeyOrder(h) <==> id in Kept(h)
    ensures NoDuplicates(KeyOrder(h))
    decreases |h|
  {
    if |h| > 0 {
      var prefix := h[..|h| - 1];
      KeptIds(prefix);
      forall id ensures id in Kept(h) <==> exists j :: 0 <= j < |h| && ActivityId(h[j]) == Some(id) {
        if id in Kept(h) && id !in Kept(prefix) {
          assert ActivityId(h[|h| - 1]) == Some(id);
        }
        if id in Kept(prefix) {
          var j :| 0 <= j < |prefix| && ActivityId(prefix[j]) == Some(id);
          assert h[j] == prefix[j];
        }
        if exists j :: 0 <= j < |h| && ActivityId(h[j]) == Some(id) {
          var j :| 0 <= j < |h| && ActivityId(h[j]) == Some(id);
          if j < |h| - 1 {
            assert prefix[j] == h[j];
          }
        }
      }
    }
  }

  /** `h[i]` is `r`, a record of the activity at least as late as all others and later than all before it. */
  predicate LatestRecordAt(h: seq<Participation>, id: string, i: int, r: Participation) {
    && 0 <= i < |h| && h[i] == r && ActivityId(h[i]) == Some(id)
    && (forall j :: 0 <= j < |h| && ActivityId(h[j]) == Some(id) ==> h[j].participatedAtMs <= r.participatedAtMs)
    && (forall j :: 0 <= j < i && ActivityId(h[j]) == Some(id) ==> h[j].participatedAtMs < r.participatedAtMs)
  }

  /**
   * The record kept for an activity is one of its records with the latest
   * timestamp, and the first such record in the history.
   */
  lemma {:induction false} KeptIsLatest(h: seq<Participation>, id: string)
    requires id in Kept(h)
    ensures exists i :: LatestRecordAt(h, id, i, Kept(h)[id])
    decreases |h|, 2
  {
    var n := |h|;
    var prefix := h[..n - 1];
    var last := h[n - 1];
    var before := Kept(prefix);
    if ActivityId(last) == Some(id) && (id !in before || last.participatedAtMs > before[id].participatedAtMs) {
      LastReplaces(h, id);
      assert LatestRecordAt(h, id, n - 1, Kept(h)[id]);
    } else {
      assert id in before && Kept(h)[id] == before[id];
      KeptIsLatest(prefix, id);
      var i :| LatestRecordAt(prefix, id, i, before[id]);
      EarlierStays(h, id, i);
    }
  }

  /** A strictly later last record becomes the latest one. */
  lemma LastReplaces(h: seq<Participation>, id: string)
    requires |h| > 0 && ActivityId(h[|h| - 1]) == Some(id)
    requires var before := Kept(h[..|h| - 1]);
      id !in before || h[|h| - 1].participatedAtMs > before[id].participatedAtMs
    ensures LatestRecordAt(h, id, |h| - 1, h[|h| - 1])
    decreases |h|, 1
  {
    var n := |h|;
    var prefix := h[..n - 1];
    var last := h[n - 1];
    var before := Kept(prefix);
    if id in before {
      KeptIsLatest(prefix, id);
      var i :| LatestRecordAt(prefix, id, i, before[id]);
      forall j | 0 <= j < n - 1 && ActivityId(h[j]) == Some(id)
        ensures h[j].participatedAtMs < last.participatedAtMs
      {
        assert h[j] == prefix[j];
      }
    } else {
      KeptIds(prefix);
      forall j | 0 <= j < n - 1
        ensures ActivityId(h[j]) != Some(id)
      {
        assert h[j] == prefix[j];
      }
    }
  }

  /** A last record that is not strictly later leaves the latest record where it was. */
  lemma EarlierStays(h: seq<Participation>, id: string, i: int)
    requires 0 <= i < |h| - 1
    requires LatestRecordAt(h[..|h| - 1], id, i, h[i])
    requires ActivityId(h[|h| - 1]) == Some(id) ==> h[|h| - 1].participatedAtMs <= h[i].participatedAtMs
    ensures LatestRecordAt(h, id, i, h[i])
  {
    var n := |h|;
    var prefix := h[..n - 1];
    forall j | 0 <= j < n && ActivityId(h[j]) == Some(id)
      ensures h[j].participatedAtMs <= h[i].participatedAtMs
    {
      if j < n - 1 {
        assert h[j] == prefix[j];
      }
    }
    forall j | 0 <= j < i && ActivityId(h[j]) == Some(id)
      ensures h[j].participatedAtMs < h[i].participatedAtMs
    {
      assert h[j] == prefix[j];
    }
  }

  // ---------------------------------------------------------------------
  // Counting the completed records

  predicate Completed(p: Participation) {
    p.status == "completed" || p.status == "checked_out"
  }

  /** `completedParticipations`: exactly the completed records. */
  function CompletedOf(ps: seq<Participation>): (cs: seq<Participation>)
    ensures |cs| <= |ps|
    ensures forall k :: 0 <= k < |cs| ==> Completed(cs[k]) && cs[k] in ps
    ensures forall p :: p in cs <==> p in ps && Completed(p)
    decreases |ps|
  {
    if |ps| == 0 then []
    else
      var rest := CompletedOf(ps[1..]);
      if Completed(ps[0]) then [ps[0]] + rest else rest
  }

  /** The completed records are kept each as often as it occurs, in their order. */
  lemma {:induction false} CompletedKeepsOrder(ps: seq<Participation>)
    ensures forall p :: multiset(CompletedOf(ps))[p] == if Completed(p) then multiset(ps)[p] else 0
    ensures IsSubsequence(CompletedOf(ps), ps)
    decreases |ps|
  {
    if |ps| > 0 {
      CompletedKeepsOrder(ps[1..]);
      var rest := CompletedOf(ps[1..]);
      assert ps == [ps[0]] + ps[1..];
      if Completed(ps[0]) {
        assert ([ps[0]] + rest)[1..] == rest;
      } else {
        SubsequenceOfTail(rest, ps);
      }
    }
  }

  /** `activity.hours || 0` */
  function HoursOf(p: Participation): nat {
    if p.activity.Some? && p.activity.value.hours.Some? then p.activity.value.hours.value else 0
  }

  /** `activity.activity_type || 'Other'` */
  function TypeOf(p: Participation): string
    requires p.activity.Some?
  {
    OrElse(p.activity.value.activityType, "Other")
  }

  function LevelOf(p: Participation): Option<string>
    requires p.activity.Some?
  {
    p.activity.value.activityLevel
  }

  /** `byType[type]`: the entry for a type, if any. */
  function Lookup(tally: seq<TypeTally>, activityType: string): Option<TypeTally>
    decreases |tally|
  {
    if |tally| == 0 then None
    else if tally[0].activityType == activityType then Some(tally[0])
    else Lookup(tally[1..], activityType)
  }

  /**
   * `byType[type].count++` and `byType[type].hours += hours`, creating the
   * entry at zero if missing: the entry of `type` gains one and `hours`, and
   * every other type's entry is as it was.
   */
  function AddToTally(tally: seq<TypeTally>, activityType: string, hours: nat): (t: seq<TypeTally>)
    ensures SumCounts(t) == SumCounts(tally) + 1
    ensures SumTallyHours(t) == SumTallyHours(tally) + hours
    ensures Lookup(t, activityType) == Some(match Lookup(tally, activityType)
      case None => TypeTally(activityType, 1, hours)
      case Some(e) => TypeTally(activityType, e.count + 1, e.hours + hours))
    ensures forall other :: other != activityType ==> Lookup(t, other) == Lookup(tally, other)
    decreases |tally|
  {
    if |tally| == 0 then [TypeTally(activityType, 1, hours)]
    else if tally[0].activityType == activityType then
      [tally[0].(count := tally[0].count + 1, hours := tally[0].hours + hours)] + tally[1..]
    else [tally[0]] + AddToTally(tally[1..], activityType, hours)
  }

  function SumCounts(tally: seq<TypeTally>): nat
    decreases |tally|
  {
    if |tally| == 0 then 0 else tally[0].count + SumCounts(tally[1..])
  }

  function SumTallyHours(tally: seq<TypeTally>): nat
    decreases |tally|
  {
    if |tally| == 0 then 0 else tally[0].hours + SumTallyHours(tally[1..])
  }

  /** The counters of one level after the records of `ps`. */
  function LevelStatsOf(ps: seq<Participation>, level: string): LevelStats
    decreases |ps|
  {
    if |ps| == 0 then LevelStats(0, 0, [])
    else
      var s := LevelStatsOf(ps[..|ps| - 1], level);
      var p := ps[|ps| - 1];
      if p.activity.Some? && LevelOf(p) == Some(level) then
        LevelStats(s.activities + 1, s.hours + HoursOf(p), AddToTally(s.byType, TypeOf(p), HoursOf(p)))
      else s
  }

  /** `totalHours` after the records of `ps`. */
  function TotalHoursOf(ps: seq<Participation>): nat
    decreases |ps|
  {
    if |ps| == 0 then 0
    else TotalHoursOf(ps[..|ps| - 1]) + (if ps[|ps| - 1].activity.Some? then HoursOf(ps[|ps| - 1]) else 0)
  }

  /** Within a level the `byType` counts add up to `activities` and the `byType` hours to `hours`. */
  lemma {:induction false} ByTypeSums(ps: seq<Participation>, level: string)
    ensures SumCounts(LevelStatsOf(ps, level).byType) == LevelStatsOf(ps, level).activities
    ensures SumTallyHours(LevelStatsOf(ps, level).byType) == LevelStatsOf(ps, level).hours
    decreases |ps|
  {
    if |ps| > 0 {
      ByTypeSums(ps[..|ps| - 1], level);
    }
  }

  /** Every record at one of the two levels. */
  predicate AtKnownLevel(ps: seq<Participation>) {
    forall k :: 0 <= k < |ps| ==> ps[k].activity.Some? && LevelOf(ps[k]) in {Some("faculty"), Some("university")}
  }

  /** Total hours cover both level totals, exactly when every record is at one of the two levels. */
  lemma {:induction false} TotalCoversLevels(ps: seq<Participation>)
    ensures TotalHoursOf(ps) >= LevelStatsOf(ps, "faculty").hours + LevelStatsOf(ps, "university").hours
    ensures AtKnownLevel(ps) ==>
      TotalHoursOf(ps) == LevelStatsOf(ps, "faculty").hours + LevelStatsOf(ps, "university").hours
    decreases |ps|
  {
    if |ps| > 0 {
      var prefix := ps[..|ps| - 1];
      TotalCoversLevels(prefix);
      if AtKnownLevel(ps) {
        assert AtKnownLevel(prefix) by {
          forall k | 0 <= k < |prefix| ensures prefix[k].activity.Some? && LevelOf(prefix[k]) in {Some("faculty"), Some("university")} {
            assert prefix[k] == ps[k];
          }
        }
      }
    }
  }

  /** `Math.round(completed / total * 100 * 100) / 100`, 0 when there is nothing. */
  function CompletionRate(completed: nat, total: nat): (rate: real)
    ensures total == 0 ==> rate == 0.0
    ensures completed <= total ==> 0.0 <= rate <= 100.0
  {
    if total == 0 then 0.0
    else
      RateAtMostHundred(completed, total);
      ((20000 * completed + total) / (2 * total)) as real / 100.0
  }

  lemma RateAtMostHundred(completed: nat, total: nat)
    requires total > 0
    ensures completed <= total ==> (20000 * completed + total) / (2 * total) <= 10000
  {
    if completed <= total {
      DivAtMost(20000 * completed + total, 2 * total, 10000);
    }
  }

  /** The summary the loops compute, stated on the history. */
  function Summary(h: seq<Participation>): SummaryStats {
    var order := KeyOrder(h);
    var unique := seq(|order|, k requires 0 <= k < |order| => if order[k] in Kept(h) then Kept(h)[order[k]] else h[0]);
    var completed := CompletedOf(unique);
    SummaryStats(|unique|, |completed|, TotalHoursOf(completed),
                 LevelStatsOf(completed, "faculty"), LevelStatsOf(completed, "university"),
                 CompletionRate(|completed|, |unique|))
  }

  /** The `forEach` over the history that fills `uniqueActivities`, with its key order. */
  method Deduplicate(h: seq<Participation>) returns (kept: map<string, Participation>, order: seq<string>)
    ensures kept == Kept(h) && order == KeyOrder(h)
  {
    kept := map[];
    order := [];
    var i := 0;
    while i < |h|
      invariant 0 <= i <= |h|
      invariant kept == Kept(h[..i]) && order == KeyOrder(h[..i])
    {
      assert h[..i + 1][..i] == h[..i];
      var p := h[i];
      var activityId := ActivityId(p);
      if activityId.Some? {
        if activityId.value !in kept || p.participatedAtMs > kept[activityId.value].participatedAtMs {
          if activityId.value !in kept {
            order := order + [activityId.value];
          }
          kept := kept[activityId.value := p];
        }
      }
      i := i + 1;
    }
    assert h[..|h|] == h;
  }

  /** The `forEach` over the completed records that adds up hours by level and type. */
  method Tally(completed: seq<Participation>) returns (totalHours: nat, faculty: LevelStats, university: LevelStats)
    ensures totalHours == TotalHoursOf(completed)
    ensures faculty == LevelStatsOf(completed, "faculty") && university == LevelStatsOf(completed, "university")
  {
    totalHours := 0;
    faculty := LevelStats(0, 0, []);
    university := LevelStats(0, 0, []);
    var j := 0;
    while j < |completed|
      invariant 0 <= j <= |completed|
      invariant totalHours == TotalHoursOf(completed[..j])
      invariant faculty == LevelStatsOf(completed[..j], "faculty")
      invariant university == LevelStatsOf(completed[..j], "university")
    {
      assert completed[..j + 1][..j] == completed[..j];
      var p := completed[j];
      if p.activity.Some? {
        var hours := HoursOf(p);
        var activityType := TypeOf(p);
        totalHours := totalHours + hours;
        if LevelOf(p) == Some("faculty") {
          faculty := LevelStats(faculty.activities + 1, faculty.hours + hours, AddToTally(faculty.byType, activityType, hours));
        } else if LevelOf(p) == Some("university") {
          university := LevelStats(university.activities + 1, university.hours + hours,
                                   AddToTally(university.byType, activityType, hours));
        }
      }
      j := j + 1;
    }
    assert completed[..|completed|] == completed;
  }

  /** `calculateActivitySummary` */
  method CalculateActivitySummary(h: seq<Participation>) returns (stats: SummaryStats)
    ensures stats == Summary(h)
    ensures stats.completedActivities <= stats.totalActivities
    ensures stats.totalHours >= stats.facultyLevel.hours + stats.universityLevel.hours
    ensures SumCounts(stats.facultyLevel.byType) == stats.facultyLevel.activities
    ensures SumCounts(stats.universityLevel.byType) == stats.universityLevel.activities
    ensures h == [] ==> stats.totalActivities == 0 && stats.completionRate == 0.0
  {
    var kept, order := Deduplicate(h);
    var unique := seq(|order|, k requires 0 <= k < |order| => if order[k] in kept then kept[order[k]] else h[0]);
    var completed := CompletedOf(unique);
    var totalHours, faculty, university := Tally(completed);
    TotalCoversLevels(completed);
    ByTypeSums(completed, "faculty");
    ByTypeSums(completed, "university");
    stats := SummaryStats(|unique|, |completed|, totalHours, faculty, university,
                          CompletionRate(|completed|, |unique|));
  }

  // ---------------------------------------------------------------------
  // Progress

  /** `calculatePercentage`: `Math.round(value / total * 100)`, and 0 for a zero total. */
  function CalculatePercentage(value: nat, total: nat): (pct: nat)
    ensures total == 0 ==> pct == 0
    ensures total > 0 ==> 2 * total * pct <= 200 * value + total < 2 * total * (pct + 1)
  {
    if total == 0 then 0 else (200 * value + total) / (2 * total)
  }

  /** A value at or above a positive total is at least 100 percent. */
  lemma FullPercentage(value: nat, total: nat)
    ensures 0 < total <= value ==> CalculatePercentage(value, total) >= 100
  {
    if 0 < total <= value {
      var pct := CalculatePercentage(value, total);
      assert 2 * total * (pct + 1) > 2 * total * 99;
      MulCancel(2 * total, pct + 1, 99);
    }
  }

  datatype Progress = Progress(current: nat, required: nat, percentage: nat, remaining: nat, isPassing: bool)

  /**
   * One level's progress. The percentage is 0 for a zero requirement, 100 once
   * the requirement is met, and otherwise the ratio rounded half up.
   */
  function LevelProgress(current: nat, required: nat): (p: Progress)
    ensures p.current == current && p.required == required
    ensures p.percentage <= 100
    ensures required == 0 ==> p.percentage == 0
    ensures 0 < required <= current ==> p.percentage == 100
    ensures current < required ==>
      2 * required * p.percentage <= 200 * current + required < 2 * required * (p.percentage + 1)
    ensures p.remaining == Max(0, required - current)
    ensures p.isPassing <==> current >= required
    ensures p.isPassing <==> p.remaining == 0
    ensures p.isPassing && required > 0 ==> p.percentage == 100
  {
    FullPercentage(current, required);
    Progress(current, required, Min(100, CalculatePercentage(current, required)),
             if required - current > 0 then required - current else 0, current >= required)
  }

  datatype ProgressInfo = ProgressInfo(facultyProgress: Progress, universityProgress: Progress, overallProgress: Progress)

  /** `calculateProgress` */
  function CalculateProgress(stats: SummaryStats, requiredFaculty: nat, requiredUniversity: nat): (info: ProgressInfo)
    ensures info.facultyProgress == LevelProgress(stats.facultyLevel.hours, requiredFaculty)
    ensures info.universityProgress == LevelProgress(stats.universityLevel.hours, requiredUniversity)
    ensures info.overallProgress.current == stats.facultyLevel.hours + stats.universityLevel.hours
    ensures info.overallProgress.required == requiredFaculty + requiredUniversity
    ensures info.overallProgress.isPassing <==> info.facultyProgress.isPassing && info.universityProgress.isPassing
    ensures info.overallProgress.percentage <= 100
    ensures var overall := LevelProgress(stats.facultyLevel.hours + stats.universityLevel.hours, requiredFaculty + requiredUniversity);
      info.overallProgress.percentage == overall.percentage && info.overallProgress.remaining == overall.remaining
  {
    var faculty := LevelProgress(stats.facultyLevel.hours, requiredFaculty);
    var university := LevelProgress(stats.universityLevel.hours, requiredUniversity);
    var total := LevelProgress(stats.facultyLevel.hours + stats.universityLevel.hours, requiredFaculty + requiredUniversity);
    ProgressInfo(faculty, university, total.(isPassing := faculty.isPassing && university.isPassing))
  }

  /** Overall passing implies nothing remains overall; the converse fails when one level covers the other. */
  lemma OverallRemaining(stats: SummaryStats)
    ensures CalculateProgress(stats, 10, 10).overallProgress.isPassing ==>
      CalculateProgress(stats, 10, 10).overallProgress.remaining == 0
    ensures stats.facultyLevel.hours == 20 && stats.universityLevel.hours == 0 ==>
      CalculateProgress(stats, 10, 10).overallProgress.remaining == 0
      && !CalculateProgress(stats, 10, 10).overallProgress.isPassing
  {
  }

  /** A zero requirement is passed, yet its percentage shows 0. */
  lemma ZeroRequirementShowsZero(current: nat)
    ensures LevelProgress(current, 0).isPassing && LevelProgress(current, 0).percentage == 0
  {
  }

  datatype ProgressColor = Green | Blue | Yellow | Red

  /** `getProgressColor`, by the colour family of its classes. */
  function GetProgressColor(percentage: int, isPassing: bool): (c: ProgressColor)
    ensures c == Green <==> isPassing || percentage >= 100
    ensures c == Blue <==> !isPassing && 75 <= percentage < 100
    ensures c == Yellow <==> !isPassing && 50 <= percentage < 75
    ensures c == Red <==> !isPassing && percentage < 50
  {
    if isPassing || percentage >= 100 then Green
    else if percentage >= 75 then Blue
    else if percentage >= 50 then Yellow
    else Red
  }

  function ColorRank(c: ProgressColor): nat {
    match c
    case Red => 0
    case Yellow => 1
    case Blue => 2
    case Green => 3
  }

  /** More progress never gives a worse colour. */
  lemma ColorMonotone(p: int, q: int, isPassing: bool)
    requires p <= q
    ensures ColorRank(GetProgressColor(p, isPassing)) <= ColorRank(GetProgressColor(q, isPassing))
  {
  }
}
