/** The `respond-to-incident` edge function: a user answers an active
    incident, joining it as a helper (or refreshing their existing helper
    row), and is paid the first-responder bonus or the normal response
    points. */
module RespondToIncident {
  import opened Common
  import opened Seqs
  import opened Schema
  import opened Database

  const MissingIncidentId := "Missing required field: incidentId"
  const NotActive := "Incident not found or not active"
  const FirstResponderPoints := 150
  const ResponsePoints := 100

  /** `.eq('id', id).eq('status', 'active').single()` finds a row. */
  predicate IsActiveIncident(incs: seq<Incident>, id: RowId) {
    FindIncident(incs, id).Some? && FindIncident(incs, id).value.status == Active
  }

  /** The existing row is refreshed: new `responded_at`, back to `responding`. */
  function Touch(hs: seq<HelperRow>, rowId: RowId, now: int): seq<HelperRow> {
    seq(|hs|, i requires 0 <= i < |hs| =>
      if hs[i].id == rowId then hs[i].(respondedAt := now, status := Responding) else hs[i])
  }

  /** Points and ledger reason for a responder. */
  function Reward(isFirst: bool): (r: (int, string))
    ensures r.0 == (if isFirst then 150 else 100)
    ensures r.1 == (if isFirst then "first_responder" else "sos_response")
  {
    if isFirst then (FirstResponderPoints, "first_responder") else (ResponsePoints, "sos_response")
  }

  /** Where the helper's location row ends up: upserted with sharing on only
      when both coordinates are truthy. */
  function LocationsAfter(locs: map<UserId, UserLocation>, u: UserId, latitude: Option<real>, longitude: Option<real>, now: int)
    : (r: map<UserId, UserLocation>)
    ensures TruthyNumber(latitude) && TruthyNumber(longitude) ==>
      u in r && r[u] == UserLocation(latitude.value, longitude.value, true, now)
    ensures !(TruthyNumber(latitude) && TruthyNumber(longitude)) ==> r == locs
    ensures forall v :: v != u ==> (v in r <==> v in locs) && (v in r ==> r[v] == locs[v])
  {
    if TruthyNumber(latitude) && TruthyNumber(longitude)
    then locs[u := UserLocation(latitude.value, longitude.value, true, now)]
    else locs
  }

  /** Counted after the insert, "exactly one helper row" means the new row
      is the incident's first. */
  lemma FirstResponderIffNoEarlierHelper(hs: seq<HelperRow>, row: HelperRow)
    ensures |HelpersOf(hs + [row], row.incidentId)| == 1 <==> HelpersOf(hs, row.incidentId) == []
  {
    HelpersOfAppend(hs, row, row.incidentId);
  }

  /** Refreshing a row keeps one row per (incident, helper) and every id. */
  lemma TouchKeepsInvariants(hs: seq<HelperRow>, rowId: RowId, now: int, next: nat)
    requires OneRowPerHelper(hs) && HelperIdsBelow(hs, next)
    ensures OneRowPerHelper(Touch(hs, rowId, now)) && HelperIdsBelow(Touch(hs, rowId, now), next)
  {
  }

  /** Inserting a row only when the helper has none keeps one row per
      (incident, helper). */
  lemma InsertKeepsOneRowPerHelper(hs: seq<HelperRow>, row: HelperRow)
    requires OneRowPerHelper(hs)
    requires FindHelperRow(hs, row.incidentId, row.helperId).None?
    ensures OneRowPerHelper(hs + [row])
  {
  }

  datatype RespondReply =
    | Updated(response: HelperRow)
    | Joined(response: HelperRow, pointsAwarded: bool, isFirstResponder: bool)

  method Respond(db: Db, caller: UserId, incidentId: Option<RowId>, latitude: Option<real>, longitude: Option<real>,
                 now: int, insertFails: bool, awardFails: bool) returns (r: Outcome<RespondReply>)
    requires db.Valid()
    modifies db`helpers, db`locations, db`points, db`calls, db`nextId
    ensures db.Valid()
    ensures incidentId.None? ==> r == Err(MissingIncidentId) && unchanged(db)
    ensures incidentId.Some? && !IsActiveIncident(old(db.incidents), incidentId.value) ==>
      r == Err(NotActive) && unchanged(db)
    ensures incidentId.Some? && IsActiveIncident(old(db.incidents), incidentId.value)
            && FindHelperRow(old(db.helpers), incidentId.value, caller).Some? ==>
      var row := FindHelperRow(old(db.helpers), incidentId.value, caller).value;
      && r == Ok(Updated(row.(respondedAt := now, status := Responding)))
      && db.helpers == Touch(old(db.helpers), row.id, now)
      && db.points == old(db.points) && db.calls == old(db.calls)
      && db.locations == old(db.locations) && db.nextId == old(db.nextId)
    ensures incidentId.Some? && IsActiveIncident(old(db.incidents), incidentId.value)
            && FindHelperRow(old(db.helpers), incidentId.value, caller).None? && insertFails ==>
      r.Err? && unchanged(db)
    ensures incidentId.Some? && IsActiveIncident(old(db.incidents), incidentId.value)
            && FindHelperRow(old(db.helpers), incidentId.value, caller).None? && !insertFails ==>
      var row := HelperRow(old(db.nextId), incidentId.value, caller, now, Responding);
      var isFirst := HelpersOf(old(db.helpers), incidentId.value) == [];
      var reward := Reward(isFirst);
      && r == Ok(Joined(row, !awardFails, isFirst))
      && db.helpers == old(db.helpers) + [row]
      && db.locations == LocationsAfter(old(db.locations), caller, latitude, longitude, now)
      && db.calls == old(db.calls) + [AwardUserPoints(caller, reward.0, reward.1), CheckBadgeUnlocks(caller)]
      && db.points == (if awardFails then old(db.points) else Credit(old(db.points), caller, reward.0))
  {
    if incidentId.None? {
      return Err(MissingIncidentId);
    }
    var id := incidentId.value;
    if !IsActiveIncident(db.incidents, id) {
      return Err(NotActive);
    }
    var existing := FindHelperRow(db.helpers, id, caller);
    if existing.Some? {
      TouchKeepsInvariants(db.helpers, existing.value.id, now, db.nextId);
      db.helpers := Touch(db.helpers, existing.value.id, now);
      return Ok(Updated(existing.value.(respondedAt := now, status := Responding)));
    }
    if insertFails {
      return Err("incident_helpers insert failed");
    }
    var row, ok, isFirst := Join(db, id, caller, latitude, longitude, now, awardFails);
    r := Ok(Joined(row, ok, isFirst));
  }

  /** The insert path of `Respond`: a new `responding` row, the location
      upsert, and the first-responder or regular award. */
  method Join(db: Db, id: RowId, caller: UserId, latitude: Option<real>, longitude: Option<real>,
              now: int, awardFails: bool) returns (row: HelperRow, ok: bool, isFirst: bool)
    requires db.Valid() && FindHelperRow(db.helpers, id, caller).None?
    modifies db`helpers, db`locations, db`points, db`calls, db`nextId
    ensures db.Valid()
    ensures row == HelperRow(old(db.nextId), id, caller, now, Responding)
    ensures isFirst == (HelpersOf(old(db.helpers), id) == []) && ok == !awardFails
    ensures db.helpers == old(db.helpers) + [row]
    ensures db.locations == LocationsAfter(old(db.locations), caller, latitude, longitude, now)
    ensures db.calls == old(db.calls) +
      [AwardUserPoints(caller, Reward(isFirst).0, Reward(isFirst).1), CheckBadgeUnlocks(caller)]
    ensures db.points == (if awardFails then old(db.points) else Credit(old(db.points), caller, Reward(isFirst).0))
  {
    row, isFirst := InsertHelper(db, id, caller, now);
    db.locations := LocationsAfter(db.locations, caller, latitude, longitude, now);
    var reward := Reward(isFirst);
    ok := db.Award(caller, reward.0, reward.1, awardFails);
    db.CheckBadges(caller);
  }

  /** The `incident_helpers` insert: the row gets the next id, and the
      caller is the first responder when the incident had no helper rows. */
  method InsertHelper(db: Db, id: RowId, caller: UserId, now: int) returns (row: HelperRow, isFirst: bool)
    requires db.Valid() && FindHelperRow(db.helpers, id, caller).None?
    modifies db`helpers, db`nextId
    ensures db.Valid()
    ensures row == HelperRow(old(db.nextId), id, caller, now, Responding)
    ensures isFirst == (HelpersOf(old(db.helpers), id) == [])
    ensures db.helpers == old(db.helpers) + [row]
  {
    IdsBelowGrow(db.incidents, db.helpers, db.timers, db.circles, db.nextId);
    var rowId := db.NewId();
    row := HelperRow(rowId, id, caller, now, Responding);
    InsertKeepsOneRowPerHelper(db.helpers, row);
    HelperAppendKeepsIds(db.helpers, row, rowId);
    FirstResponderIffNoEarlierHelper(db.helpers, row);
    var helpers := db.helpers + [row];
    isFirst := |HelpersOf(helpers, id)| == 1;
    db.helpers := helpers;
  }
}
