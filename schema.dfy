/** Rows of the backend tables read and written by the edge functions
    (`incidents`, `incident_helpers`, `check_in_timers`, `user_locations`,
    `trusted_circles`), the status enumerations, and the table invariants the
    edge functions keep. Times are milliseconds since the epoch; ids are the
    store's row ids. */
module Schema {
  import opened Common
  import opened Seqs

  type UserId = string
  type RowId = nat

  datatype IncidentKind = Sos | Silent | CheckIn | Escort
  datatype IncidentStatus = Active | Resolved | Cancelled
  datatype HelperStatus = Responding | Arrived | Completed
  datatype TimerStatus = TimerActive | TimerCheckedIn | TimerExpired
  datatype CircleStatus = Pending | Accepted | Rejected

  datatype Incident = Incident(
    id: RowId,
    userId: UserId,
    kind: IncidentKind,
    emergencyType: Option<string>,
    lat: Option<real>,
    lng: Option<real>,
    description: Option<string>,
    voiceNoteUrl: Option<string>,
    isSilent: bool,
    byShake: bool,
    byCalculator: bool,
    status: IncidentStatus,
    createdAt: int,
    resolvedAt: Option<int>)

  datatype HelperRow = HelperRow(
    id: RowId, incidentId: RowId, helperId: UserId, respondedAt: int, status: HelperStatus)

  datatype Timer = Timer(
    id: RowId, userId: UserId, durationMinutes: int,
    startedAt: int, expiresAt: int, status: TimerStatus, createdAt: int)

  datatype UserLocation = UserLocation(lat: real, lng: real, isSharing: bool, updatedAt: int)

  datatype CircleEdge = CircleEdge(
    id: RowId, userId: UserId, trustedUserId: UserId, status: CircleStatus)

  /** Calls into the store's stored procedures, whose bodies are not part of
      this model; only the call and, for the points award, its additive effect
      on the ledger are modelled. */
  datatype Rpc =
    | AwardUserPoints(target: UserId, amount: int, reason: string)
    | CheckBadgeUnlocks(target: UserId)
    | CreateIncidentNotifications(incidentId: RowId)
    | AutoContactEmergencyServices(incidentId: RowId)
    | FindNearbyHelpers(lat: real, lng: real, radiusKm: int)

  // ---- table invariants ----

  /** `resolved_at` is set exactly on incidents that are no longer active. */
  ghost predicate ResolvedAtMatchesStatus(incs: seq<Incident>) {
    forall i :: 0 <= i < |incs| ==> (incs[i].resolvedAt.Some? <==> incs[i].status != Active)
  }

  /** At most one helper row per (incident, helper) pair. */
  ghost predicate OneRowPerHelper(hs: seq<HelperRow>) {
    forall i, j :: 0 <= i < j < |hs| ==>
      hs[i].incidentId != hs[j].incidentId || hs[i].helperId != hs[j].helperId
  }

  /** At most one `active` check-in timer per user. */
  ghost predicate OneActiveTimerPerUser(ts: seq<Timer>) {
    forall i, j :: 0 <= i < j < |ts| && ts[i].status == TimerActive && ts[j].status == TimerActive ==>
      ts[i].userId != ts[j].userId
  }

  // Row ids increase along each table and stay below the next id to hand out.
  ghost predicate IncidentIdsBelow(incs: seq<Incident>, next: nat) {
    (forall i :: 0 <= i < |incs| ==> incs[i].id < next) &&
    (forall i, j :: 0 <= i < j < |incs| ==> incs[i].id < incs[j].id)
  }
  ghost predicate HelperIdsBelow(hs: seq<HelperRow>, next: nat) {
    (forall i :: 0 <= i < |hs| ==> hs[i].id < next) &&
    (forall i, j :: 0 <= i < j < |hs| ==> hs[i].id < hs[j].id)
  }
  ghost predicate TimerIdsBelow(ts: seq<Timer>, next: nat) {
    (forall i :: 0 <= i < |ts| ==> ts[i].id < next) &&
    (forall i, j :: 0 <= i < j < |ts| ==> ts[i].id < ts[j].id)
  }
  ghost predicate CircleIdsBelow(cs: seq<CircleEdge>, next: nat) {
    (forall i :: 0 <= i < |cs| ==> cs[i].id < next) &&
    (forall i, j :: 0 <= i < j < |cs| ==> cs[i].id < cs[j].id)
  }

  /** Appending a row carrying the next id keeps ids increasing. */
  lemma IncidentAppendKeepsIds(incs: seq<Incident>, row: Incident, next: nat)
    requires IncidentIdsBelow(incs, next) && row.id == next
    ensures IncidentIdsBelow(incs + [row], next + 1)
  {
  }

  lemma HelperAppendKeepsIds(hs: seq<HelperRow>, row: HelperRow, next: nat)
    requires HelperIdsBelow(hs, next) && row.id == next
    ensures HelperIdsBelow(hs + [row], next + 1)
  {
  }

  lemma CircleAppendKeepsIds(cs: seq<CircleEdge>, row: CircleEdge, next: nat)
    requires CircleIdsBelow(cs, next) && row.id == next
    ensures CircleIdsBelow(cs + [row], next + 1)
  {
  }

  /** A new active incident has no resolution time. */
  lemma ActiveAppendKeepsResolvedAt(incs: seq<Incident>, row: Incident)
    requires ResolvedAtMatchesStatus(incs) && row.status == Active && row.resolvedAt.None?
    ensures ResolvedAtMatchesStatus(incs + [row])
  {
  }

  /** Handing out an id keeps every table's ids below the next one. */
  lemma IdsBelowGrow(incs: seq<Incident>, hs: seq<HelperRow>, ts: seq<Timer>, cs: seq<CircleEdge>, next: nat)
    requires IncidentIdsBelow(incs, next) && HelperIdsBelow(hs, next)
    requires TimerIdsBelow(ts, next) && CircleIdsBelow(cs, next)
    ensures IncidentIdsBelow(incs, next + 1) && HelperIdsBelow(hs, next + 1)
    ensures TimerIdsBelow(ts, next + 1) && CircleIdsBelow(cs, next + 1)
  {
  }

  // ---- queries shared by several edge functions ----

  /** `.from('incidents').eq('id', id).single()`: the row with that id. */
  function FindIncident(incs: seq<Incident>, id: RowId): (r: Option<Incident>)
    ensures r.Some? ==> r.value in incs && r.value.id == id
    ensures r.None? ==> forall i :: 0 <= i < |incs| ==> incs[i].id != id
  {
    if incs == [] then None
    else if incs[0].id == id then Some(incs[0])
    else FindIncident(incs[1..], id)
  }

  /** The helper rows of one incident, in table order. */
  function HelpersOf(hs: seq<HelperRow>, incidentId: RowId): (r: seq<HelperRow>)
    ensures forall i :: 0 <= i < |r| ==> r[i] in hs && r[i].incidentId == incidentId
    ensures forall i :: 0 <= i < |hs| && hs[i].incidentId == incidentId ==> hs[i] in r
  {
    Filter((h: HelperRow) => h.incidentId == incidentId, hs)
  }

  lemma HelpersOfAppend(hs: seq<HelperRow>, row: HelperRow, incidentId: RowId)
    ensures HelpersOf(hs + [row], incidentId) ==
      HelpersOf(hs, incidentId) + (if row.incidentId == incidentId then [row] else [])
  {
    FilterAppend((h: HelperRow) => h.incidentId == incidentId, hs, [row]);
  }

  /** The helper row of `helper` for the incident, if any. */
  function FindHelperRow(hs: seq<HelperRow>, incidentId: RowId, helper: UserId): (r: Option<HelperRow>)
    ensures r.Some? ==> r.value in hs && r.value.incidentId == incidentId && r.value.helperId == helper
    ensures r.None? ==> forall i :: 0 <= i < |hs| ==> hs[i].incidentId != incidentId || hs[i].helperId != helper
  {
    if hs == [] then None
    else if hs[0].incidentId == incidentId && hs[0].helperId == helper then Some(hs[0])
    else FindHelperRow(hs[1..], incidentId, helper)
  }

  /** The user's `accepted` outgoing trusted-circle rows. */
  function AcceptedContactsOf(cs: seq<CircleEdge>, u: UserId): (r: seq<CircleEdge>)
    ensures forall i :: 0 <= i < |r| ==> r[i] in cs && r[i].userId == u && r[i].status == Accepted
    ensures forall i :: 0 <= i < |cs| && cs[i].userId == u && cs[i].status == Accepted ==> cs[i] in r
  {
    Filter(AcceptedBy(u), cs)
  }

  function AcceptedBy(u: UserId): CircleEdge -> bool {
    (e: CircleEdge) => e.userId == u && e.status == Accepted
  }
}
