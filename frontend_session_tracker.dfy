/**
 * frontend/src/lib/activity-tracker.ts: the `ActivityTracker` that checks
 * every thirty minutes, while the user is active, that the session still
 * holds. The clock is the parameter `now`, the pending `setTimeout` is
 * modelled by the time it fires, the outcome of `auth.me()` is a parameter,
 * and `authStore.logout()` is reported by the method that would call it.
 */
module FrontendSessionTracker {
  import opened Common

  /** `CHECK_INTERVAL`: thirty minutes. */
  const CheckInterval: int := 30 * 60 * 1000

  /** `INACTIVE_THRESHOLD`: sixty minutes. */
  const InactiveThreshold: int := 60 * 60 * 1000

  /** How `auth.me()` ended: it resolved, or it threw with an HTTP status if the error had one. */
  datatype CheckOutcome = Verified | Failed(status: Option<int>)

  /** A 401 or 403: the session expired or was revoked. */
  predicate SessionRejected(outcome: CheckOutcome) {
    outcome.Failed? && (outcome.status == Some(401) || outcome.status == Some(403))
  }

  class ActivityTracker {
    var lastActivity: int
    /** `checkTimer`: None for `null`, otherwise when the scheduled check fires. */
    var checkTimer: Option<int>
    var isTracking: bool

    /** A check is scheduled only while tracking; every method keeps this. */
    predicate Valid()
      reads this
    {
      checkTimer.Some? ==> isTracking
    }

    constructor(now: int)
      ensures Valid()
      ensures lastActivity == now && checkTimer.None? && !isTracking
    {
      lastActivity := now;
      checkTimer := None;
      isTracking := false;
    }

    /** `onUserActivity`: record the time and start tracking if it had stopped. */
    method OnUserActivity(now: int)
      requires Valid()
      modifies this
      ensures Valid()
      ensures lastActivity == now && isTracking
      ensures checkTimer == if old(isTracking) then old(checkTimer) else Some(now + CheckInterval)
    {
      lastActivity := now;
      if !isTracking {
        StartTracking(now);
      }
    }

    /** The `visibilitychange` listener: activity only when the page became visible. */
    method OnVisibilityChange(now: int, visible: bool)
      requires Valid()
      modifies this
      ensures Valid()
      ensures !visible ==> lastActivity == old(lastActivity) && isTracking == old(isTracking) && checkTimer == old(checkTimer)
      ensures visible ==> lastActivity == now && isTracking
      ensures visible ==> checkTimer == if old(isTracking) then old(checkTimer) else Some(now + CheckInterval)
    {
      if visible {
        OnUserActivity(now);
      }
    }

    /** `startTracking`: nothing while already tracking; otherwise track and schedule a check. */
    method StartTracking(now: int)
      requires Valid()
      modifies this
      ensures Valid()
      ensures old(isTracking) ==> isTracking == old(isTracking) && checkTimer == old(checkTimer)
      ensures !old(isTracking) ==> isTracking && checkTimer == Some(now + CheckInterval)
      ensures lastActivity == old(lastActivity)
    {
      if isTracking {
        return;
      }
      isTracking := true;
      ScheduleCheck(now);
    }

    /** `stopTracking`: clears the flag and the timer. */
    method StopTracking()
      modifies this
      ensures Valid()
      ensures !isTracking && checkTimer.None? && lastActivity == old(lastActivity)
    {
      isTracking := false;
      if checkTimer.Some? {
        checkTimer := None;
      }
    }

    /** `scheduleCheck`: any pending timer is replaced by one firing an interval from now. */
    method ScheduleCheck(now: int)
      modifies this
      ensures checkTimer == Some(now + CheckInterval)
      ensures isTracking == old(isTracking) && lastActivity == old(lastActivity)
    {
      checkTimer := Some(now + CheckInterval);
    }

    /** `runCheck`: pause when idle, log out on a rejected session, otherwise check again later. */
    method RunCheck(now: int, outcome: CheckOutcome) returns (logout: bool)
      requires Valid()
      modifies this
      ensures Valid()
      ensures lastActivity == old(lastActivity)
      ensures logout <==> old(isTracking) && old(IsUserActive(now)) && SessionRejected(outcome)
      ensures !old(isTracking) || logout ==> isTracking == old(isTracking) && checkTimer == old(checkTimer)
      ensures old(isTracking) && !old(IsUserActive(now)) ==> !isTracking && checkTimer.None?
      ensures old(isTracking) && old(IsUserActive(now)) && !SessionRejected(outcome) ==>
        isTracking && checkTimer == Some(now + CheckInterval)
    {
      logout := false;
      if !isTracking {
        return;
      }
      var idle := now - lastActivity;
      if idle > InactiveThreshold {
        StopTracking();
        return;
      }
      if outcome.Failed? {
        var status := outcome.status;
        if status == Some(401) || status == Some(403) {
          logout := true;
          return;
        }
      }
      ScheduleCheck(now);
    }

    /** `isUserActive`: at most sixty minutes since the last activity. */
    function IsUserActive(now: int): (active: bool)
      reads this
      ensures active <==> now - lastActivity <= InactiveThreshold
    {
      now - lastActivity <= InactiveThreshold
    }

    function GetLastActivity(): int
      reads this
    {
      lastActivity
    }
  }

  /**
   * After the logout the tracker still counts as tracking, so later activity
   * records the time but schedules nothing: the fired timer's handle stays
   * and no new check is set.
   */
  method LogoutLeavesTrackerIdle() returns (tracking: bool, timer: Option<int>)
    ensures tracking && timer == Some(CheckInterval)
  {
    var t := new ActivityTracker(0);
    t.OnUserActivity(0);
    var logout := t.RunCheck(CheckInterval, Failed(Some(401)));
    assert logout;
    t.OnUserActivity(CheckInterval + 1000);
    tracking, timer := t.isTracking, t.checkTimer;
  }
}
