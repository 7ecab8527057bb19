/**
 * src/lib/activity-tracker.ts: the `ActivityTracker` that keeps a session
 * alive while the user is active. The clock is the parameter `now`, the
 * handle of the pending `setTimeout` is modelled by the time it fires, and
 * the outcome of `apiClient.refreshSession()` is a parameter.
 */
module SessionTracker {
  import opened Common

  /** `REFRESH_INTERVAL`: thirty minutes. */
  const RefreshInterval: int := 30 * 60 * 1000

  /** `ACTIVITY_THRESHOLD`: five minutes since the last activity. */
  const ActivityThreshold: int := 5 * 60 * 1000

  class ActivityTracker {
    var lastActivity: int
    /** `refreshTimer`: None for `null`, otherwise when the scheduled refresh fires. */
    var refreshTimer: Option<int>
    var isTracking: bool

    /** A refresh is scheduled only while tracking. */
    predicate Valid()
      reads this
    {
      refreshTimer.Some? ==> isTracking
    }

    /** The field initialisers; binding the listeners is left to the browser. */
    constructor(now: int)
      ensures Valid()
      ensures lastActivity == now && refreshTimer.None? && !isTracking
    {
      lastActivity := now;
      refreshTimer := None;
      isTracking := false;
    }

    /** `updateActivity`: every listened event records the time and starts tracking if it had stopped. */
    method UpdateActivity(now: int)
      requires Valid()
      modifies this
      ensures Valid()
      ensures lastActivity == now && isTracking
      ensures refreshTimer == if old(isTracking) then old(refreshTimer) else Some(now + RefreshInterval)
    {
      lastActivity := now;
      if !isTracking {
        StartTracking(now);
      }
    }

    /** `startTracking`: nothing while already tracking; otherwise track and schedule a refresh. */
    method StartTracking(now: int)
      requires Valid()
      modifies this
      ensures Valid()
      ensures old(isTracking) ==> isTracking == old(isTracking) && refreshTimer == old(refreshTimer)
      ensures !old(isTracking) ==> isTracking && refreshTimer == Some(now + RefreshInterval)
      ensures lastActivity == old(lastActivity)
    {
      if isTracking {
        return;
      }
      isTracking := true;
      ScheduleRefresh(now);
    }

    /** `stopTracking`: not tracking, and no timer. */
    method StopTracking()
      modifies this
      ensures Valid()
      ensures !isTracking && refreshTimer.None? && lastActivity == old(lastActivity)
    {
      isTracking := false;
      if refreshTimer.Some? {
        refreshTimer := None;
      }
    }

    /** `scheduleRefresh`: any pending timer is replaced by one firing an interval from now. */
    method ScheduleRefresh(now: int)
      modifies this
      ensures refreshTimer == Some(now + RefreshInterval)
      ensures isTracking == old(isTracking) && lastActivity == old(lastActivity)
    {
      refreshTimer := Some(now + RefreshInterval);
    }

    /** `checkAndRefresh` as written: after a failed refresh the tracker stops, then schedules again. */
    method CheckAndRefresh(now: int, refreshSucceeds: bool)
      modifies this
      ensures lastActivity == old(lastActivity)
      ensures !old(isTracking) ==> isTracking == old(isTracking) && refreshTimer == old(refreshTimer)
      ensures old(isTracking) && !old(IsUserActive(now)) ==> !isTracking && refreshTimer.None?
      ensures old(isTracking) && old(IsUserActive(now)) ==>
        isTracking == refreshSucceeds && refreshTimer == Some(now + RefreshInterval)
    {
      if !isTracking {
        return;
      }
      var timeSinceActivity := now - lastActivity;
      if timeSinceActivity > ActivityThreshold {
        StopTracking();
        return;
      }
      if !refreshSucceeds {
        StopTracking();
      }
      ScheduleRefresh(now);
    }

    /** `checkAndRefresh` with a return after the failed refresh, so that a stopped tracker keeps no timer. */
    method CheckAndRefreshCorrected(now: int, refreshSucceeds: bool)
      requires Valid()
      modifies this
      ensures Valid()
      ensures lastActivity == old(lastActivity)
      ensures !old(isTracking) ==> isTracking == old(isTracking) && refreshTimer == old(refreshTimer)
      ensures old(isTracking) && (!old(IsUserActive(now)) || !refreshSucceeds) ==>
        !isTracking && refreshTimer.None?
      ensures old(isTracking) && old(IsUserActive(now)) && refreshSucceeds ==>
        isTracking && refreshTimer == Some(now + RefreshInterval)
    {
      if !isTracking {
        return;
      }
      var timeSinceActivity := now - lastActivity;
      if timeSinceActivity > ActivityThreshold {
        StopTracking();
        return;
      }
      if !refreshSucceeds {
        StopTracking();
        return;
      }
      ScheduleRefresh(now);
    }

    function GetLastActivity(): int
      reads this
    {
      lastActivity
    }

    /** `isUserActive`: at most five minutes since the last activity. */
    function IsUserActive(now: int): (active: bool)
      reads this
      ensures active <==> now - lastActivity <= ActivityThreshold
    {
      now - lastActivity <= ActivityThreshold
    }
  }

  /**
   * A refresh that fails a minute after the last activity leaves the tracker stopped
   * with a refresh still scheduled: the invariant that a timer means
   * tracking does not survive `checkAndRefresh` as written.
   */
  method FailedRefreshKeepsTimer() returns (tracking: bool, scheduled: bool)
    ensures !tracking && scheduled
  {
    var t := new ActivityTracker(0);
    t.UpdateActivity(0);
    t.CheckAndRefresh(60 * 1000, false);
    tracking, scheduled := t.isTracking, t.refreshTimer.Some?;
  }
}
