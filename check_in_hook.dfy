/** The `useCheckIn` hook: the client's view of the caller's check-in timer,
    the countdown derived from it, and how creating a timer and checking in
    through the `check-in-timer` edge function update that view. */
module CheckInHook {
  import opened Common
  import opened Schema
  import opened Database
  import CheckInTimer

  /** `getTimeRemaining`: null without an active timer, otherwise the
      milliseconds left, never negative. */
  function TimeRemaining(timer: Option<Timer>, now: int): (r: Option<int>)
    ensures r.None? <==> timer.None? || timer.value.status != TimerActive
    ensures r.Some? ==> r.value >= 0
    ensures r.Some? && now < timer.value.expiresAt ==> r.value == timer.value.expiresAt - now
    ensures r.Some? ==> (r.value == 0 <==> now >= timer.value.expiresAt)
  {
    if timer.None? || timer.value.status != TimerActive then None
    else
      var remaining := timer.value.expiresAt - now;
      Some(if remaining > 0 then remaining else 0)
  }

  /** `isExpired`: an active timer with no time left. */
  function IsExpired(timer: Option<Timer>, now: int): (r: bool)
    ensures r <==> timer.Some? && timer.value.status == TimerActive && now >= timer.value.expiresAt
  {
    if timer.None? || timer.value.status != TimerActive then false
    else TimeRemaining(timer, now) == Some(0)
  }

  /** The client shows a timer as expired from `expires_at` on, while the
      server's sweep only takes it strictly after: at exactly `expires_at`
      the two disagree. */
  lemma ClientExpiresNoLaterThanSweep(t: Timer, now: int)
    ensures CheckInTimer.IsDue(t, now) ==> IsExpired(Some(t), now)
    ensures t.status == TimerActive && now == t.expiresAt ==> IsExpired(Some(t), now) && !CheckInTimer.IsDue(t, now)
  {
  }

  /** The hook's state. */
  class CheckInView {
    var activeTimer: Option<Timer>
    var loading: bool
    var failed: bool

    constructor ()
      ensures activeTimer.None? && loading && !failed
    {
      activeTimer, loading, failed := None, true, false;
    }

    /** `loadActiveTimer`: asks `get_active`. */
    method Load(db: Db, me: UserId)
      modifies this
      ensures activeTimer == CheckInTimer.LatestActive(db.timers, me)
      ensures !loading && failed == old(failed)
    {
      loading := true;
      activeTimer := CheckInTimer.LatestActive(db.timers, me);
      loading := false;
    }

    /** `createTimer`: on success the view holds the new timer, which is the
        caller's only active timer on the server. */
    method CreateTimer(db: Db, me: UserId, durationMinutes: int, now: int) returns (r: Outcome<Timer>)
      requires db.Valid()
      modifies this, db`timers, db`nextId
      ensures db.Valid()
      ensures durationMinutes <= 0 ==> r.Err? && activeTimer == old(activeTimer) && failed && unchanged(db)
      ensures durationMinutes > 0 ==>
        && r == Ok(CheckInTimer.NewTimer(old(db.nextId), me, durationMinutes, now))
        && db.timers == CheckInTimer.ExpireActiveOf(old(db.timers), me) + [r.value]
        && activeTimer == Some(r.value) && failed == old(failed)
        && activeTimer == CheckInTimer.LatestActive(db.timers, me)
    {
      r := CheckInTimer.Create(db, me, Some(durationMinutes), now);
      if r.Err? {
        failed := true;
        return;
      }
      activeTimer := Some(r.value);
      assert db.timers[|db.timers| - 1] == r.value;
    }

    /** `checkIn`: on success the view drops the timer. */
    method CheckIn(db: Db, me: UserId, timerId: RowId, awardFails: bool) returns (r: Outcome<CheckInTimer.CheckInReply>)
      requires db.Valid()
      modifies this, db`timers, db`points, db`calls
      ensures db.Valid()
      ensures r.Ok? ==> activeTimer.None? && r.value.timer.status == TimerCheckedIn && failed == old(failed)
      ensures r.Err? ==> activeTimer == old(activeTimer) && failed && unchanged(db)
      ensures r.Ok? <==> CheckInTimer.FindOpen(old(db.timers), timerId, me).Some?
      ensures r.Ok? ==>
        && db.timers == CheckInTimer.CheckInRows(old(db.timers), timerId, me)
        && db.calls == old(db.calls) + [AwardUserPoints(me, CheckInTimer.CheckInPoints, CheckInTimer.CheckInReason)]
        && db.points == (if awardFails then old(db.points) else Credit(old(db.points), me, CheckInTimer.CheckInPoints))
    {
      r := CheckInTimer.CheckInTimer(db, me, Some(timerId), awardFails);
      if r.Err? {
        failed := true;
        return;
      }
      activeTimer := None;
    }
  }
}
