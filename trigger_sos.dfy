/** The `trigger-sos` edge function: validates the alert, inserts the
    incident, fires the best-effort notification, auto-contact and
    nearby-helper procedures, counts the reporter's accepted trusted
    contacts and records the reporter's location. */
module TriggerSos {
  import opened Common
  import opened Seqs
  import opened Schema
  import opened Database

  const MissingFields := "Missing required fields: type, latitude, longitude"
  const NearbyRadiusKm := 2

  /** Which services the client asks to contact; the flags themselves are
      never forwarded, only the object's presence matters. */
  datatype AutoContactFlags = AutoContactFlags(campusSecurity: bool, police: bool, ambulance: bool, trustedCircle: bool)

  /** The request body; absent fields are `None`. */
  datatype SosRequest = SosRequest(
    kind: Option<IncidentKind>,
    latitude: Option<real>,
    longitude: Option<real>,
    description: Option<string>,
    emergencyType: Option<string>,
    voiceNoteUrl: Option<string>,
    isSilentAlert: Option<bool>,
    triggeredByShake: Option<bool>,
    triggeredByCalculator: Option<bool>,
    autoContact: Option<AutoContactFlags>)

  /** `!type || !latitude || !longitude` rejects the request, so a
      coordinate of exactly 0 is refused. */
  predicate HasRequiredFields(req: SosRequest)
    ensures HasRequiredFields(req) ==>
      req.kind.Some? && req.latitude.Some? && req.longitude.Some? &&
      req.latitude.value != 0.0 && req.longitude.value != 0.0
  {
    req.kind.Some? && TruthyNumber(req.latitude) && TruthyNumber(req.longitude)
  }

  /** The inserted row: optional text defaults to null, flags to false. */
  function NewIncident(id: RowId, caller: UserId, req: SosRequest, now: int): (r: Incident)
    requires HasRequiredFields(req)
    ensures r.id == id && r.userId == caller && r.kind == req.kind.value
    ensures r.status == Active && r.resolvedAt.None? && r.createdAt == now
    ensures r.lat == req.latitude && r.lng == req.longitude
    ensures r.description.Some? <==> TruthyString(req.description)
    ensures r.emergencyType.Some? <==> TruthyString(req.emergencyType)
    ensures r.voiceNoteUrl.Some? <==> TruthyString(req.voiceNoteUrl)
    ensures r.isSilent <==> req.isSilentAlert == Some(true)
    ensures r.byShake <==> req.triggeredByShake == Some(true)
    ensures r.byCalculator <==> req.triggeredByCalculator == Some(true)
  {
    Incident(id, caller, req.kind.value, StringOrNull(req.emergencyType), req.latitude, req.longitude,
             StringOrNull(req.description), StringOrNull(req.voiceNoteUrl),
             FlagOr(req.isSilentAlert), FlagOr(req.triggeredByShake), FlagOr(req.triggeredByCalculator),
             Active, now, None)
  }

  /** The best-effort procedures, in call order. Their failures are caught,
      so they are recorded whether or not they succeed. */
  function SosCalls(incidentId: RowId, req: SosRequest): seq<Rpc>
    requires HasRequiredFields(req)
  {
    [CreateIncidentNotifications(incidentId)]
      + (if req.autoContact.Some? then [AutoContactEmergencyServices(incidentId)] else [])
      + [FindNearbyHelpers(req.latitude.value, req.longitude.value, NearbyRadiusKm)]
  }

  /** Auto-contact is requested exactly when the body carries an
      `auto_contact` object, whatever its flags say. */
  lemma AutoContactOnlyWhenPresent(incidentId: RowId, req: SosRequest)
    requires HasRequiredFields(req)
    ensures AutoContactEmergencyServices(incidentId) in SosCalls(incidentId, req) <==> req.autoContact.Some?
    ensures SosCalls(incidentId, req)[0] == CreateIncidentNotifications(incidentId)
    ensures SosCalls(incidentId, req)[|SosCalls(incidentId, req)| - 1] == FindNearbyHelpers(req.latitude.value, req.longitude.value, 2)
  {
  }

  /** `notifiedCount` counts the caller's outgoing `accepted` rows, one per
      matching row of `trusted_circles`. */
  lemma NotifiedCountIsAcceptedRows(cs: seq<CircleEdge>, caller: UserId)
    ensures |AcceptedContactsOf(cs, caller)|
         == |set i | 0 <= i < |cs| && cs[i].userId == caller && cs[i].status == Accepted|
  {
    FilterLengthIsIndexCount(AcceptedBy(caller), cs);
    assert IndicesWhere(AcceptedBy(caller), cs)
        == set i | 0 <= i < |cs| && cs[i].userId == caller && cs[i].status == Accepted;
  }

  datatype SosReply = SosReply(incident: Incident, notifiedCount: nat, nearbyHelpersCount: nat, nearbyHelpers: seq<UserId>)

  /** `nearby` is what `find_nearby_helpers` returns, `None` when it fails. */
  method TriggerSos(db: Db, caller: UserId, req: SosRequest, now: int, insertFails: bool, nearby: Option<seq<UserId>>)
    returns (r: Outcome<SosReply>)
    requires db.Valid()
    modifies db`incidents, db`locations, db`calls, db`nextId
    ensures db.Valid()
    ensures !HasRequiredFields(req) ==> r == Err(MissingFields) && unchanged(db)
    ensures HasRequiredFields(req) && insertFails ==> r.Err? && unchanged(db)
    ensures HasRequiredFields(req) && !insertFails ==>
      var incident := NewIncident(old(db.nextId), caller, req, now);
      var helpers := if nearby.Some? then nearby.value else [];
      && db.incidents == old(db.incidents) + [incident]
      && db.calls == old(db.calls) + SosCalls(incident.id, req)
      && db.locations == old(db.locations)[caller := UserLocation(req.latitude.value, req.longitude.value, true, now)]
      && r == Ok(SosReply(incident, |AcceptedContactsOf(old(db.circles), caller)|, |helpers|, helpers))
  {
    if !HasRequiredFields(req) {
      return Err(MissingFields);
    }
    if insertFails {
      return Err("incidents insert failed");
    }
    var incident, trusted, helpers := Raise(db, caller, req, now, nearby);
    r := Ok(SosReply(incident, trusted, |helpers|, helpers));
  }

  /** The success path of `TriggerSos`: the incident insert, the
      best-effort calls and the location upsert. */
  method Raise(db: Db, caller: UserId, req: SosRequest, now: int, nearby: Option<seq<UserId>>)
    returns (incident: Incident, trusted: nat, helpers: seq<UserId>)
    requires db.Valid() && HasRequiredFields(req)
    modifies db`incidents, db`locations, db`calls, db`nextId
    ensures db.Valid()
    ensures incident == NewIncident(old(db.nextId), caller, req, now)
    ensures helpers == (if nearby.Some? then nearby.value else [])
    ensures trusted == |AcceptedContactsOf(old(db.circles), caller)|
    ensures db.incidents == old(db.incidents) + [incident]
    ensures db.calls == old(db.calls) + SosCalls(incident.id, req)
    ensures db.locations == old(db.locations)[caller := UserLocation(req.latitude.value, req.longitude.value, true, now)]
  {
    IdsBelowGrow(db.incidents, db.helpers, db.timers, db.circles, db.nextId);
    var id := db.NewId();
    incident := NewIncident(id, caller, req, now);
    IncidentAppendKeepsIds(db.incidents, incident, id);
    ActiveAppendKeepsResolvedAt(db.incidents, incident);
    var calls := [CreateIncidentNotifications(id)];
    if req.autoContact.Some? {
      calls := calls + [AutoContactEmergencyServices(id)];
    }
    trusted := |AcceptedContactsOf(db.circles, caller)|;
    calls := calls + [FindNearbyHelpers(req.latitude.value, req.longitude.value, NearbyRadiusKm)];
    helpers := if nearby.Some? then nearby.value else [];
    db.incidents := db.incidents + [incident];
    db.calls := db.calls + calls;
    db.locations := db.locations[caller := UserLocation(req.latitude.value, req.longitude.value, true, now)];
  }
}
