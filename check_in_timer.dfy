/** The `check-in-timer` edge function: `create`, `check_in`,
    `check_expired` (the expiry sweep run by a scheduler) and `get_active`,
    dispatched on the request's `action`. */
module CheckInTimer {
  import opened Common
  import opened Seqs
  import opened Schema
  import opened Database

  const MinuteMs := 60 * 1000
  const CheckInPoints := 10
  const CheckInReason := "check_in_timer_used"
  const ExpiredDescription := "Check-in timer expired without check-in"
  const InvalidAction := "Invalid action. Use: create, check_in, check_expired, or get_active"

  // ---- create ----

  /** Every `active` timer of `u` marked `expired`; nothing else changes. */
  function ExpireActiveOf(ts: seq<Timer>, u: UserId): seq<Timer> {
    seq(|ts|, i requires 0 <= i < |ts| =>
      if ts[i].userId == u && ts[i].status == TimerActive then ts[i].(status := TimerExpired) else ts[i])
  }

  function NewTimer(id: RowId, u: UserId, minutes: int, now: int): Timer {
    Timer(id, u, minutes, now, now + minutes * MinuteMs, TimerActive, now)
  }

  /** After `create`, the new timer is the caller's only active timer, and
      every user still has at most one. */
  lemma CreateLeavesOneActive(ts: seq<Timer>, t: Timer)
    requires OneActiveTimerPerUser(ts)
    requires t.status == TimerActive
    ensures var r := ExpireActiveOf(ts, t.userId) + [t];
      && OneActiveTimerPerUser(r)
      && forall i :: 0 <= i < |r| && r[i].userId == t.userId && r[i].status == TimerActive ==> i == |r| - 1
  {
  }

  method Create(db: Db, caller: UserId, durationMinutes: Option<int>, now: int) returns (r: Outcome<Timer>)
    requires db.Valid()
    modifies db`timers, db`nextId
    ensures db.Valid()
    ensures durationMinutes.None? || durationMinutes.value <= 0 ==>
      r == Err("durationMinutes must be greater than 0") && unchanged(db)
    ensures durationMinutes.Some? && durationMinutes.value > 0 ==>
      && r == Ok(NewTimer(old(db.nextId), caller, durationMinutes.value, now))
      && r.value.expiresAt == now + durationMinutes.value * 60000
      && db.timers == ExpireActiveOf(old(db.timers), caller) + [r.value]
  {
    if durationMinutes.None? || durationMinutes.value <= 0 {
      return Err("durationMinutes must be greater than 0");
    }
    db.timers := ExpireActiveOf(db.timers, caller);
    var id := db.NewId();
    var t := NewTimer(id, caller, durationMinutes.value, now);
    CreateLeavesOneActive(old(db.timers), t);
    db.timers := db.timers + [t];
    r := Ok(t);
  }

  // ---- check_in ----

  predicate IsOpen(t: Timer, id: RowId, u: UserId) {
    t.id == id && t.userId == u && t.status == TimerActive
  }

  /** `update({status: 'checked_in'}).eq('id').eq('user_id').eq('status', 'active')`. */
  function CheckInRows(ts: seq<Timer>, id: RowId, u: UserId): seq<Timer> {
    seq(|ts|, i requires 0 <= i < |ts| =>
      if IsOpen(ts[i], id, u) then ts[i].(status := TimerCheckedIn) else ts[i])
  }

  function FindOpen(ts: seq<Timer>, id: RowId, u: UserId): (r: Option<Timer>)
    ensures r.Some? ==> r.value in ts && IsOpen(r.value, id, u)
    ensures r.None? ==> forall i :: 0 <= i < |ts| ==> !IsOpen(ts[i], id, u)
  {
    if ts == [] then None
    else if IsOpen(ts[0], id, u) then Some(ts[0])
    else FindOpen(ts[1..], id, u)
  }

  /** With row ids unique, checking in changes exactly the one open timer. */
  lemma CheckInChangesOnlyThatTimer(ts: seq<Timer>, next: nat, id: RowId, u: UserId, k: nat)
    requires TimerIdsBelow(ts, next)
    requires k < |ts| && IsOpen(ts[k], id, u)
    ensures CheckInRows(ts, id, u) == ts[k := ts[k].(status := TimerCheckedIn)]
  {
  }

  datatype CheckInReply = CheckInReply(timer: Timer, pointsAwarded: bool)

  method CheckInTimer(db: Db, caller: UserId, timerId: Option<RowId>, awardFails: bool) returns (r: Outcome<CheckInReply>)
    requires db.Valid()
    modifies db`timers, db`points, db`calls
    ensures db.Valid()
    ensures timerId.None? ==> r == Err("Missing required field: timerId") && unchanged(db)
    ensures timerId.Some? && FindOpen(old(db.timers), timerId.value, caller).None? ==>
      r == Err("Timer not found or already expired/checked in") && unchanged(db)
    ensures timerId.Some? && FindOpen(old(db.timers), timerId.value, caller).Some? ==>
      var t := FindOpen(old(db.timers), timerId.value, caller).value;
      && r == Ok(CheckInReply(t.(status := TimerCheckedIn), !awardFails))
      && db.timers == CheckInRows(old(db.timers), timerId.value, caller)
      && db.calls == old(db.calls) + [AwardUserPoints(caller, CheckInPoints, CheckInReason)]
      && db.points == (if awardFails then old(db.points) else Credit(old(db.points), caller, CheckInPoints))
  {
    if timerId.None? {
      return Err("Missing required field: timerId");
    }
    var found := FindOpen(db.timers, timerId.value, caller);
    if found.None? {
      return Err("Timer not found or already expired/checked in");
    }
    db.timers := CheckInRows(db.timers, timerId.value, caller);
    var ok := db.Award(caller, CheckInPoints, CheckInReason, awardFails);
    r := Ok(CheckInReply(found.value.(status := TimerCheckedIn), ok));
  }

  // ---- check_expired ----

  predicate IsDue(t: Timer, now: int) {
    t.status == TimerActive && t.expiresAt < now
  }

  /** `.eq('status', 'active').lt('expires_at', now)`, in table order. */
  function Due(ts: seq<Timer>, now: int): seq<Timer> {
    Filter(DueAt(now), ts)
  }

  function DueAt(now: int): Timer -> bool {
    (t: Timer) => IsDue(t, now)
  }

  /** The sweep's effect on the timers table: exactly the due timers expire. */
  function SweepTimers(ts: seq<Timer>, now: int): seq<Timer> {
    seq(|ts|, i requires 0 <= i < |ts| =>
      if IsDue(ts[i], now) then ts[i].(status := TimerExpired) else ts[i])
  }

  /** `update({status: 'expired'}).eq('id', ...)` for every id in `ids`. */
  function MarkExpired(ts: seq<Timer>, ids: set<RowId>): seq<Timer> {
    seq(|ts|, i requires 0 <= i < |ts| =>
      if ts[i].id in ids then ts[i].(status := TimerExpired) else ts[i])
  }

  function IdsOf(ts: seq<Timer>): set<RowId> {
    set i | 0 <= i < |ts| :: ts[i].id
  }

  /** The stored coordinate, or null when there is no location row or the
      coordinate is 0 (`userLocation?.latitude || null`). */
  function StoredCoordinate(locs: map<UserId, UserLocation>, u: UserId, wantLat: bool): (r: Option<real>)
    ensures r.Some? <==> u in locs && (if wantLat then locs[u].lat else locs[u].lng) != 0.0
  {
    if u !in locs then None
    else
      var c := if wantLat then locs[u].lat else locs[u].lng;
      if c != 0.0 then Some(c) else None
  }

  /** The silent incident raised for an expired timer. */
  function AlertFor(t: Timer, locs: map<UserId, UserLocation>, id: RowId, now: int): Incident {
    Incident(id, t.userId, Silent, None,
             StoredCoordinate(locs, t.userId, true), StoredCoordinate(locs, t.userId, false),
             Some(ExpiredDescription), None, false, false, false, Active, now, None)
  }

  /** The due timers whose incident insert succeeded. */
  function Succeeded(due: seq<Timer>, insertFails: set<RowId>): seq<Timer> {
    Filter(Inserted(insertFails), due)
  }

  function Inserted(insertFails: set<RowId>): Timer -> bool {
    (t: Timer) => t.id !in insertFails
  }

  function Alerts(ok: seq<Timer>, locs: map<UserId, UserLocation>, firstId: nat, now: int): seq<Incident> {
    seq(|ok|, j requires 0 <= j < |ok| => AlertFor(ok[j], locs, firstId + j, now))
  }

  datatype SweepResult = SweepResult(timerId: RowId, userId: UserId, incidentId: RowId)
  datatype SweepReport = SweepReport(expiredCount: nat, alertsCreated: nat, results: seq<SweepResult>)

  function Results(ok: seq<Timer>, firstId: nat): seq<SweepResult> {
    seq(|ok|, j requires 0 <= j < |ok| => SweepResult(ok[j].id, ok[j].userId, firstId + j))
  }

  /** Expiring the due timers one id at a time is the sweep's effect, because
      row ids are unique. */
  lemma MarkExpiredDueIsSweep(ts: seq<Timer>, next: nat, now: int)
    requires TimerIdsBelow(ts, next)
    ensures MarkExpired(ts, IdsOf(Due(ts, now))) == SweepTimers(ts, now)
  {
    var due := Due(ts, now);
    forall i | 0 <= i < |ts| ensures (ts[i].id in IdsOf(due)) == IsDue(ts[i], now) {
      if IsDue(ts[i], now) {
        assert ts[i] in due;
        var j :| 0 <= j < |due| && due[j] == ts[i];
        assert due[j].id in IdsOf(due);
      }
      if ts[i].id in IdsOf(due) {
        var j :| 0 <= j < |due| && due[j].id == ts[i].id;
        var k :| 0 <= k < |ts| && ts[k] == due[j];
        assert k == i;
      }
    }
  }

  lemma MarkExpiredStep(ts: seq<Timer>, ids: set<RowId>, id: RowId)
    ensures MarkExpired(MarkExpired(ts, ids), {id}) == MarkExpired(ts, ids + {id})
  {
  }

  /** Expiring timers keeps their ids and never adds an active timer. */
  lemma MarkExpiredKeepsInvariants(ts: seq<Timer>, ids: set<RowId>, next: nat)
    requires TimerIdsBelow(ts, next) && OneActiveTimerPerUser(ts)
    ensures TimerIdsBelow(MarkExpired(ts, ids), next) && OneActiveTimerPerUser(MarkExpired(ts, ids))
  {
  }

  lemma IdsOfStep(s: seq<Timer>, k: nat)
    requires k < |s|
    ensures IdsOf(s[..k + 1]) == IdsOf(s[..k]) + {s[k].id}
  {
    var a, b := s[..k + 1], s[..k];
    forall x | x in IdsOf(a) ensures x in IdsOf(b) + {s[k].id} {
      var i :| 0 <= i < |a| && a[i].id == x;
      if i < k {
        assert b[i] == a[i];
      }
    }
    forall x | x in IdsOf(b) + {s[k].id} ensures x in IdsOf(a) {
      if x == s[k].id {
        assert a[k] == s[k];
      } else {
        var i :| 0 <= i < |b| && b[i].id == x;
        assert a[i] == b[i];
      }
    }
  }

  lemma SucceededStep(due: seq<Timer>, k: nat, insertFails: set<RowId>)
    requires k < |due|
    ensures Succeeded(due[..k + 1], insertFails) ==
      Succeeded(due[..k], insertFails) + (if due[k].id !in insertFails then [due[k]] else [])
  {
    assert due[..k + 1] == due[..k] + [due[k]];
    FilterAppend(Inserted(insertFails), due[..k], [due[k]]);
  }

  lemma AlertsStep(ok: seq<Timer>, t: Timer, locs: map<UserId, UserLocation>, firstId: nat, now: int)
    ensures Alerts(ok + [t], locs, firstId, now) == Alerts(ok, locs, firstId, now) + [AlertFor(t, locs, firstId + |ok|, now)]
    ensures Results(ok + [t], firstId) == Results(ok, firstId) + [SweepResult(t.id, t.userId, firstId + |ok|)]
  {
  }

  /** The sweep never raises more alerts than it expires timers, and every
      alert is an active silent incident of the timer's owner. */
  lemma AlertsWithinExpired(ts: seq<Timer>, insertFails: set<RowId>, locs: map<UserId, UserLocation>, firstId: nat, now: int)
    ensures var due := Due(ts, now);
      var alerts := Alerts(Succeeded(due, insertFails), locs, firstId, now);
      && |alerts| <= |due|
      && forall j :: 0 <= j < |alerts| ==>
           && alerts[j].kind == Silent && alerts[j].status == Active
           && alerts[j].description == Some(ExpiredDescription)
           && exists i :: 0 <= i < |ts| && IsDue(ts[i], now) && ts[i].userId == alerts[j].userId
  {
    var due := Due(ts, now);
    var ok := Succeeded(due, insertFails);
    forall j | 0 <= j < |ok|
      ensures exists i :: 0 <= i < |ts| && IsDue(ts[i], now) && ts[i].userId == ok[j].userId
    {
      assert ok[j] in due;
      assert ok[j] in ts && IsDue(ok[j], now);
    }
  }

  /** A second sweep at the same time finds nothing left to expire. */
  lemma SweepIsIdempotent(ts: seq<Timer>, now: int)
    ensures Due(SweepTimers(ts, now), now) == []
  {
    FilterNone(DueAt(now), SweepTimers(ts, now));
  }

  lemma AlertsAppend(incs0: seq<Incident>, ok: seq<Timer>, t: Timer, locs: map<UserId, UserLocation>, firstId: nat, now: int)
    ensures incs0 + Alerts(ok, locs, firstId, now) + [AlertFor(t, locs, firstId + |ok|, now)]
         == incs0 + Alerts(ok + [t], locs, firstId, now)
  {
    AlertsStep(ok, t, locs, firstId, now);
  }

  /** One iteration of the sweep over `due`: expire the `k`-th timer by id,
      then insert its alert unless the insert fails. The loop state before
      and after is stated in terms of the first `k` and `k + 1` due timers. */
  method SweepOne(db: Db, due: seq<Timer>, k: nat, ok: seq<Timer>, ghost ts0: seq<Timer>, ghost incs0: seq<Incident>,
                  first: nat, now: int, insertFails: set<RowId>) returns (ok': seq<Timer>)
    requires k < |due|
    requires ok == Succeeded(due[..k], insertFails)
    requires db.timers == MarkExpired(ts0, IdsOf(due[..k]))
    requires db.incidents == incs0 + Alerts(ok, db.locations, first, now)
    requires db.nextId == first + |ok|
    requires ResolvedAtMatchesStatus(db.incidents) && IncidentIdsBelow(db.incidents, db.nextId)
    modifies db`timers, db`incidents, db`nextId
    ensures ok' == Succeeded(due[..k + 1], insertFails)
    ensures db.timers == MarkExpired(ts0, IdsOf(due[..k + 1]))
    ensures db.incidents == incs0 + Alerts(ok', db.locations, first, now)
    ensures db.nextId == first + |ok'|
    ensures ResolvedAtMatchesStatus(db.incidents) && IncidentIdsBelow(db.incidents, db.nextId)
  {
    var t := due[k];
    SucceededStep(due, k, insertFails);
    IdsOfStep(due, k);
    MarkExpiredStep(ts0, IdsOf(due[..k]), t.id);
    db.timers := MarkExpired(db.timers, {t.id});
    if t.id in insertFails {
      return ok;
    }
    AlertsAppend(incs0, ok, t, db.locations, first, now);
    var id := db.NewId();
    var incident := AlertFor(t, db.locations, id, now);
    IncidentAppendKeepsIds(db.incidents, incident, id);
    ActiveAppendKeepsResolvedAt(db.incidents, incident);
    db.incidents := db.incidents + [incident];
    ok' := ok + [t];
  }

  /** The sweep's loop over the due timers, in order. */
  method ExpireDue(db: Db, due: seq<Timer>, now: int, insertFails: set<RowId>) returns (ok: seq<Timer>)
    requires ResolvedAtMatchesStatus(db.incidents) && IncidentIdsBelow(db.incidents, db.nextId)
    modifies db`timers, db`incidents, db`nextId
    ensures ResolvedAtMatchesStatus(db.incidents) && IncidentIdsBelow(db.incidents, db.nextId)
    ensures ok == Succeeded(due, insertFails)
    ensures db.timers == MarkExpired(old(db.timers), IdsOf(due))
    ensures db.incidents == old(db.incidents) + Alerts(ok, db.locations, old(db.nextId), now)
    ensures db.nextId == old(db.nextId) + |ok|
  {
    ghost var ts0 := db.timers;
    ghost var incs0 := db.incidents;
    var first := db.nextId;
    ok := [];
    var k := 0;
    assert due[..0] == [];
    while k < |due|
      invariant 0 <= k <= |due|
      invariant ok == Succeeded(due[..k], insertFails)
      invariant db.timers == MarkExpired(ts0, IdsOf(due[..k]))
      invariant db.incidents == incs0 + Alerts(ok, db.locations, first, now)
      invariant db.nextId == first + |ok|
      invariant ResolvedAtMatchesStatus(db.incidents) && IncidentIdsBelow(db.incidents, db.nextId)
    {
      ok := SweepOne(db, due, k, ok, ts0, incs0, first, now, insertFails);
      k := k + 1;
    }
    assert due[..k] == due;
  }

  method CheckExpired(db: Db, now: int, insertFails: set<RowId>) returns (r: SweepReport)
    requires db.Valid()
    modifies db`timers, db`incidents, db`nextId
    ensures db.Valid()
    ensures var due := Due(old(db.timers), now);
      var ok := Succeeded(due, insertFails);
      && db.timers == SweepTimers(old(db.timers), now)
      && db.incidents == old(db.incidents) + Alerts(ok, old(db.locations), old(db.nextId), now)
      && r == SweepReport(|due|, |ok|, Results(ok, old(db.nextId)))
  {
    var due := Due(db.timers, now);
    var first := db.nextId;
    MarkExpiredDueIsSweep(db.timers, first, now);
    MarkExpiredKeepsInvariants(db.timers, IdsOf(due), first);
    var ok := ExpireDue(db, due, now, insertFails);
    r := SweepReport(|due|, |ok|, Results(ok, first));
  }

  // ---- get_active ----

  /** The caller's most recently created `active` timer (table order is
      creation order), or null. */
  function LatestActive(ts: seq<Timer>, u: UserId): (r: Option<Timer>)
    ensures r.Some? ==> r.value in ts && r.value.userId == u && r.value.status == TimerActive
    ensures r.None? ==> forall i :: 0 <= i < |ts| ==> ts[i].userId != u || ts[i].status != TimerActive
  {
    if ts == [] then None
    else
      var last := ts[|ts| - 1];
      if last.userId == u && last.status == TimerActive then Some(last)
      else LatestActive(ts[..|ts| - 1], u)
  }

  /** Under the one-active-timer invariant, `get_active` returns the user's
      unique active timer. */
  lemma {:induction false} LatestActiveIsTheActiveTimer(ts: seq<Timer>, u: UserId, k: nat)
    requires OneActiveTimerPerUser(ts)
    requires k < |ts| && ts[k].userId == u && ts[k].status == TimerActive
    ensures LatestActive(ts, u) == Some(ts[k])
  {
    if k < |ts| - 1 {
      var last := ts[|ts| - 1];
      assert !(last.userId == u && last.status == TimerActive);
      LatestActiveIsTheActiveTimer(ts[..|ts| - 1], u, k);
    }
  }

  // ---- dispatch ----

  datatype TimerReply =
    | Created(timer: Timer)
    | CheckedIn(reply: CheckInReply)
    | Swept(report: SweepReport)
    | ActiveTimer(active: Option<Timer>)

  method Handle(db: Db, caller: UserId, action: string, timerId: Option<RowId>, durationMinutes: Option<int>,
                now: int, awardFails: bool, insertFails: set<RowId>) returns (r: Outcome<TimerReply>)
    requires db.Valid()
    modifies db
    ensures db.Valid()
    ensures action != "create" && action != "check_in" && action != "check_expired" && action != "get_active" ==>
      r == Err(InvalidAction) && unchanged(db)
    ensures action == "get_active" ==>
      r == Ok(ActiveTimer(LatestActive(old(db.timers), caller))) && unchanged(db)
    ensures action == "create" && r.Ok? ==> r.value.Created? && db.timers == ExpireActiveOf(old(db.timers), caller) + [r.value.timer]
    ensures action == "check_expired" ==> r.Ok? && r.value.Swept? && db.timers == SweepTimers(old(db.timers), now)
    ensures action == "check_in" && r.Ok? ==> r.value.CheckedIn? && r.value.reply.timer.status == TimerCheckedIn
  {
    if action == "create" {
      var c := Create(db, caller, durationMinutes, now);
      r := if c.Ok? then Ok(Created(c.value)) else Err(c.message);
    } else if action == "check_in" {
      var c := CheckInTimer(db, caller, timerId, awardFails);
      r := if c.Ok? then Ok(CheckedIn(c.value)) else Err(c.message);
    } else if action == "check_expired" {
      var report := CheckExpired(db, now, insertFails);
      r := Ok(Swept(report));
    } else if action == "get_active" {
      r := Ok(ActiveTimer(LatestActive(db.timers, caller)));
    } else {
      r := Err(InvalidAction);
    }
  }
}
