/**
 * src/routes/api/admin/activities/update-statuses/+server.ts: each
 * activity's status recomputed from the clock and its dates, written back
 * only where it changed. Dates are the milliseconds `new Date(...)` gives;
 * the store is the list of rows, and the method returns the writes it
 * issues.
 */
module UpdateStatuses {
  import opened Common

  datatype ActivityRow = ActivityRow(id: string, organizationId: Option<string>, startDate: Option<int>,
                                     endDate: Option<int>, status: string)

  /** `computeStatus` */
  function ComputeStatus(now: int, startDate: int, endDate: int): (s: string)
    ensures s == "published" <==> now < startDate
    ensures s == "ongoing" <==> startDate <= now <= endDate
    ensures s == "completed" <==> now >= startDate && now > endDate
  {
    if now < startDate then "published"
    else if now >= startDate && now <= endDate then "ongoing"
    else "completed"
  }

  /** Position of a computed status in the lifecycle. */
  function Stage(s: string): nat {
    if s == "published" then 0 else if s == "ongoing" then 1 else 2
  }

  /** As time passes an activity only moves forward: published, ongoing, completed. */
  lemma StatusOnlyAdvances(t1: int, t2: int, startDate: int, endDate: int)
    requires t1 <= t2
    ensures Stage(ComputeStatus(t1, startDate, endDate)) <= Stage(ComputeStatus(t2, startDate, endDate))
  {
  }

  /** The `where` clause: an OrganizationAdmin with an organization sees only its own activities. */
  function Scope(adminLevel: Option<string>, organizationId: Option<string>): (scope: Option<string>)
    ensures scope.Some? <==> adminLevel == Some("OrganizationAdmin") && Truthy(organizationId)
    ensures scope.Some? ==> scope == organizationId
  {
    if adminLevel == Some("OrganizationAdmin") && Truthy(organizationId) then organizationId else None
  }

  /** `rows`: the activities the scope selects. */
  function Selected(table: seq<ActivityRow>, scope: Option<string>): (rows: seq<ActivityRow>)
    ensures |rows| <= |table|
    ensures forall r :: r in rows <==> r in table && (scope.None? || r.organizationId == scope)
    decreases |table|
  {
    if |table| == 0 then []
    else
      var rest := Selected(table[1..], scope);
      if scope.None? || table[0].organizationId == scope then [table[0]] + rest else rest
  }

  /** The selected rows are the scope's rows, each as often as it is stored, in store order. */
  lemma {:induction false} SelectedKeepsOrder(table: seq<ActivityRow>, scope: Option<string>)
    ensures forall r :: (multiset(Selected(table, scope))[r] ==
                          if scope.None? || r.organizationId == scope then multiset(table)[r] else 0)
    ensures IsSubsequence(Selected(table, scope), table)
    decreases |table|
  {
    if |table| > 0 {
      SelectedKeepsOrder(table[1..], scope);
      var rest := Selected(table[1..], scope);
      assert table == [table[0]] + table[1..];
      if scope.None? || table[0].organizationId == scope {
        assert ([table[0]] + rest)[1..] == rest;
      } else {
        SubsequenceOfTail(rest, table);
      }
    }
  }

  /** The status a row should have now, or None when the loop skips it. */
  function Target(row: ActivityRow, now: int): (t: Option<string>)
    ensures t.Some? <==> row.startDate.Some? && row.endDate.Some? && row.status != "cancelled" && row.status != "draft"
    ensures t.Some? ==> t.value == ComputeStatus(now, row.startDate.value, row.endDate.value)
  {
    if row.startDate.None? || row.endDate.None? then None
    else if row.status == "cancelled" || row.status == "draft" then None
    else Some(ComputeStatus(now, row.startDate.value, row.endDate.value))
  }

  /** One `UPDATE activities SET status = ... WHERE id = ...`. */
  datatype Write = Write(id: string, status: string)

  /** The writes the loop issues for `rows`, in row order. */
  function WritesFor(rows: seq<ActivityRow>, now: int): (ws: seq<Write>)
    ensures |ws| <= |rows|
    decreases |rows|
  {
    if |rows| == 0 then []
    else
      var ws := WritesFor(rows[..|rows| - 1], now);
      var row := rows[|rows| - 1];
      var t := Target(row, now);
      if t.Some? && t.value != row.status then ws + [Write(row.id, t.value)] else ws
  }

  /** A row after its write, if any. */
  function Updated(row: ActivityRow, now: int): (r: ActivityRow)
    ensures r.id == row.id && r.organizationId == row.organizationId
    ensures r.startDate == row.startDate && r.endDate == row.endDate
    ensures Target(row, now).None? ==> r == row
    ensures Target(row, now).Some? ==> r == row.(status := Target(row, now).value)
  {
    match Target(row, now)
    case None => row
    case Some(s) => row.(status := s)
  }

  /** The rows after the loop's writes. */
  function AfterRun(rows: seq<ActivityRow>, now: int): (after: seq<ActivityRow>)
    ensures |after| == |rows|
    ensures forall k :: 0 <= k < |rows| ==> after[k] == Updated(rows[k], now)
  {
    seq(|rows|, k requires 0 <= k < |rows| => Updated(rows[k], now))
  }

  /** A second run at the same instant writes nothing: the loop is idempotent. */
  lemma {:induction false} SecondRunWritesNothing(rows: seq<ActivityRow>, now: int)
    ensures WritesFor(AfterRun(rows, now), now) == []
    decreases |rows|
  {
    if |rows| > 0 {
      var prefix := rows[..|rows| - 1];
      SecondRunWritesNothing(prefix, now);
      assert AfterRun(rows, now)[..|rows| - 1] == AfterRun(prefix, now);
    }
  }

  /** Every write changes a status, to the one the dates call for; rows without one are left as they were. */
  lemma {:induction false} WritesAreChanges(rows: seq<ActivityRow>, now: int)
    ensures forall w :: w in WritesFor(rows, now) ==>
      exists k :: 0 <= k < |rows| && rows[k].id == w.id && Target(rows[k], now) == Some(w.status) && rows[k].status != w.status
    decreases |rows|
  {
    if |rows| > 0 {
      var prefix := rows[..|rows| - 1];
      WritesAreChanges(prefix, now);
      forall w | w in WritesFor(rows, now)
        ensures exists k :: 0 <= k < |rows| && rows[k].id == w.id && Target(rows[k], now) == Some(w.status) && rows[k].status != w.status
      {
        if w in WritesFor(prefix, now) {
          var k :| 0 <= k < |prefix| && prefix[k].id == w.id && Target(prefix[k], now) == Some(w.status) && prefix[k].status != w.status;
          assert rows[k] == prefix[k];
        } else {
          assert rows[|rows| - 1].id == w.id;
        }
      }
    }
  }

  /** The writes for one more row: the earlier ones, then this row's if its status changes. */
  lemma WritesForStep(rows: seq<ActivityRow>, i: nat, now: int)
    requires i < |rows|
    ensures var t := Target(rows[i], now);
      WritesFor(rows[..i + 1], now)
        == WritesFor(rows[..i], now) + (if t.Some? && t.value != rows[i].status then [Write(rows[i].id, t.value)] else [])
  {
    assert rows[..i + 1][..i] == rows[..i];
  }

  datatype Reply = Success(updated: nat) | Failure(message: string)

  /** `POST`, after the admin gate: the loop over the selected rows. */
  method UpdateStatuses(table: seq<ActivityRow>, adminLevel: Option<string>, organizationId: Option<string>, now: int)
    returns (reply: Reply, writes: seq<Write>)
    ensures writes == WritesFor(Selected(table, Scope(adminLevel, organizationId)), now)
    ensures reply == Success(|writes|)
  {
    var rows := Selected(table, Scope(adminLevel, organizationId));
    var updated := 0;
    writes := [];
    var i := 0;
    while i < |rows|
      invariant 0 <= i <= |rows|
      invariant writes == WritesFor(rows[..i], now) && updated == |writes|
    {
      WritesForStep(rows, i, now);
      var a := rows[i];
      if a.startDate.Some? && a.endDate.Some? && a.status != "cancelled" && a.status != "draft" {
        var newStatus := ComputeStatus(now, a.startDate.value, a.endDate.value);
        assert Target(a, now) == Some(newStatus);
        if newStatus != a.status {
          writes := writes + [Write(a.id, newStatus)];
          updated := updated + 1;
        }
      } else {
        assert Target(a, now).None?;
      }
      i := i + 1;
    }
    assert rows[..|rows|] == rows;
    reply := Success(updated);
  }
}
