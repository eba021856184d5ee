/** The `resolve-incident` edge function: the reporter or one of the
    incident's helpers closes the incident; helpers that arrived or
    completed are paid, a resolving reporter gets a small reward, and every
    helper row of the incident ends `completed`. */
module ResolveIncident {
  import opened Common
  import opened Seqs
  import opened Schema
  import opened Database

  const MissingIncidentId := "Missing required field: incidentId"
  const NotFound := "Incident not found"
  const Unauthorized := "Unauthorized to resolve this incident"
  const CompletionPoints := 100
  const CompletionReason := "sos_completed"
  const ReporterPoints := 10
  const ReporterReason := "check_in_timer_used"

  /** The update `{status: 'resolved', resolved_at: now}` by id, with no
      filter on the current status. */
  function MarkResolved(incs: seq<Incident>, id: RowId, now: int): seq<Incident> {
    seq(|incs|, i requires 0 <= i < |incs| =>
      if incs[i].id == id then incs[i].(status := Resolved, resolvedAt := Some(now)) else incs[i])
  }

  /** Only the reporter or a user holding a helper row may resolve. */
  predicate MayResolve(incident: Incident, hs: seq<HelperRow>, caller: UserId) {
    incident.userId == caller || FindHelperRow(hs, incident.id, caller).Some?
  }

  /** Helpers paid on resolution: status `completed` or `arrived`. */
  predicate Payable(h: HelperRow) {
    h.status == Completed || h.status == Arrived
  }

  /** The bulk update `{status: 'completed'}` on the incident's rows whose
      status is not already `completed`. */
  function CompleteAll(hs: seq<HelperRow>, id: RowId): seq<HelperRow> {
    seq(|hs|, i requires 0 <= i < |hs| =>
      if hs[i].incidentId == id && hs[i].status != Completed then hs[i].(status := Completed) else hs[i])
  }

  // The payout loop, specified over a prefix of the helper rows so that
  // each iteration extends the specification by its last element.

  /** Users pushed onto `pointsResults`: payable helpers whose award succeeded. */
  function PaidHelpers(helpers: seq<HelperRow>, awardFails: set<UserId>): seq<UserId>
    decreases |helpers|
  {
    if helpers == [] then []
    else
      var h := helpers[|helpers| - 1];
      PaidHelpers(helpers[..|helpers| - 1], awardFails)
        + (if Payable(h) && h.helperId !in awardFails then [h.helperId] else [])
  }

  /** The RPCs the loop issues: an award per payable helper, then a badge
      check only if that award succeeded. */
  function PayoutCalls(helpers: seq<HelperRow>, awardFails: set<UserId>): seq<Rpc>
    decreases |helpers|
  {
    if helpers == [] then []
    else
      var h := helpers[|helpers| - 1];
      PayoutCalls(helpers[..|helpers| - 1], awardFails)
        + (if !Payable(h) then []
           else [AwardUserPoints(h.helperId, CompletionPoints, CompletionReason)]
                + (if h.helperId in awardFails then [] else [CheckBadgeUnlocks(h.helperId)]))
  }

  function PayoutLedger(ledger: map<UserId, int>, helpers: seq<HelperRow>, awardFails: set<UserId>): map<UserId, int>
    decreases |helpers|
  {
    if helpers == [] then ledger
    else
      var h := helpers[|helpers| - 1];
      var before := PayoutLedger(ledger, helpers[..|helpers| - 1], awardFails);
      if Payable(h) && h.helperId !in awardFails then Credit(before, h.helperId, CompletionPoints) else before
  }

  function HelperIds(hs: seq<HelperRow>): seq<UserId> {
    seq(|hs|, i requires 0 <= i < |hs| => hs[i].helperId)
  }

  function PaidRow(awardFails: set<UserId>): HelperRow -> bool {
    (h: HelperRow) => Payable(h) && h.helperId !in awardFails
  }

  function PaidRowOf(u: UserId, awardFails: set<UserId>): HelperRow -> bool {
    (h: HelperRow) => Payable(h) && h.helperId == u && u !in awardFails
  }

  /** The paid helpers are exactly the payable rows whose award succeeded,
      in row order; `responding` helpers are never paid. */
  lemma {:induction false} PaidHelpersArePayableRows(helpers: seq<HelperRow>, awardFails: set<UserId>)
    ensures PaidHelpers(helpers, awardFails) == HelperIds(Filter(PaidRow(awardFails), helpers))
    decreases |helpers|
  {
    if helpers != [] {
      var init, h := helpers[..|helpers| - 1], helpers[|helpers| - 1];
      assert helpers == init + [h];
      PaidHelpersArePayableRows(init, awardFails);
      FilterAppend(PaidRow(awardFails), init, [h]);
      assert Filter(PaidRow(awardFails), [h]) == if PaidRow(awardFails)(h) then [h] else [];
      HelperIdsAppend(Filter(PaidRow(awardFails), init), Filter(PaidRow(awardFails), [h]));
    }
  }

  lemma HelperIdsAppend(a: seq<HelperRow>, b: seq<HelperRow>)
    ensures HelperIds(a + b) == HelperIds(a) + HelperIds(b)
  {
  }

  /** Each user's balance grows by 100 per payable row of theirs whose award
      succeeded, and by nothing else. */
  lemma {:induction false} PayoutLedgerBalance(ledger: map<UserId, int>, helpers: seq<HelperRow>, awardFails: set<UserId>, u: UserId)
    ensures Balance(PayoutLedger(ledger, helpers, awardFails), u)
         == Balance(ledger, u) + CompletionPoints * |Filter(PaidRowOf(u, awardFails), helpers)|
    decreases |helpers|
  {
    if helpers != [] {
      var init, h := helpers[..|helpers| - 1], helpers[|helpers| - 1];
      assert helpers == init + [h];
      PayoutLedgerBalance(ledger, init, awardFails, u);
      FilterAppend(PaidRowOf(u, awardFails), init, [h]);
    }
  }

  /** After the bulk update every helper row of the incident is `completed`,
      and rows of other incidents are untouched. */
  lemma ResolveCompletesEveryHelper(hs: seq<HelperRow>, id: RowId)
    ensures |CompleteAll(hs, id)| == |hs|
    ensures forall i :: 0 <= i < |hs| && hs[i].incidentId == id ==>
      CompleteAll(hs, id)[i] == hs[i].(status := Completed)
    ensures forall i :: 0 <= i < |hs| && hs[i].incidentId != id ==> CompleteAll(hs, id)[i] == hs[i]
  {
  }

  lemma {:induction false} CompleteAllKeepsHelperCount(hs: seq<HelperRow>, id: RowId)
    ensures |HelpersOf(CompleteAll(hs, id), id)| == |HelpersOf(hs, id)|
    ensures forall i :: 0 <= i < |HelpersOf(CompleteAll(hs, id), id)| ==> HelpersOf(CompleteAll(hs, id), id)[i].status == Completed
  {
    var c := CompleteAll(hs, id);
    if hs != [] {
      CompleteAllKeepsHelperCount(hs[1..], id);
      assert c == [c[0]] + CompleteAll(hs[1..], id);
      assert hs == [hs[0]] + hs[1..];
      FilterAppend((h: HelperRow) => h.incidentId == id, [c[0]], CompleteAll(hs[1..], id));
      FilterAppend((h: HelperRow) => h.incidentId == id, [hs[0]], hs[1..]);
    }
  }

  /** Because resolution leaves every helper row `completed` and nothing
      checks the incident's status, resolving again (with no award failing)
      pays every helper of the incident once more. */
  lemma RepeatResolvePaysEveryHelper(hs: seq<HelperRow>, id: RowId)
    ensures |PaidHelpers(HelpersOf(CompleteAll(hs, id), id), {})| == |HelpersOf(hs, id)|
  {
    var again := HelpersOf(CompleteAll(hs, id), id);
    CompleteAllKeepsHelperCount(hs, id);
    PaidHelpersArePayableRows(again, {});
    FilterAll(PaidRow({}), again);
  }

  /** The payout loop over the incident's helper rows (read before the bulk
      update). */
  method PayHelpers(db: Db, helpers: seq<HelperRow>, awardFails: set<UserId>) returns (paid: seq<UserId>)
    modifies db`points, db`calls
    ensures paid == PaidHelpers(helpers, awardFails)
    ensures db.calls == old(db.calls) + PayoutCalls(helpers, awardFails)
    ensures db.points == PayoutLedger(old(db.points), helpers, awardFails)
  {
    paid := [];
    var k := 0;
    while k < |helpers|
      invariant 0 <= k <= |helpers|
      invariant paid == PaidHelpers(helpers[..k], awardFails)
      invariant db.calls == old(db.calls) + PayoutCalls(helpers[..k], awardFails)
      invariant db.points == PayoutLedger(old(db.points), helpers[..k], awardFails)
    {
      var h := helpers[k];
      assert helpers[..k + 1][..k] == helpers[..k];
      if Payable(h) {
        var ok := db.Award(h.helperId, CompletionPoints, CompletionReason, h.helperId in awardFails);
        if ok {
          paid := paid + [h.helperId];
          db.CheckBadges(h.helperId);
        }
      }
      k := k + 1;
    }
    assert helpers[..k] == helpers;
  }

  lemma MarkResolvedKeepsInvariants(incs: seq<Incident>, id: RowId, now: int, next: nat)
    requires ResolvedAtMatchesStatus(incs) && IncidentIdsBelow(incs, next)
    ensures ResolvedAtMatchesStatus(MarkResolved(incs, id, now)) && IncidentIdsBelow(MarkResolved(incs, id, now), next)
  {
  }

  lemma CompleteAllKeepsInvariants(hs: seq<HelperRow>, id: RowId, next: nat)
    requires OneRowPerHelper(hs) && HelperIdsBelow(hs, next)
    ensures OneRowPerHelper(CompleteAll(hs, id)) && HelperIdsBelow(CompleteAll(hs, id), next)
  {
  }

  /** With no helper rows the bulk update changes nothing. */
  lemma NoHelpersNothingToComplete(hs: seq<HelperRow>, id: RowId)
    requires HelpersOf(hs, id) == []
    ensures CompleteAll(hs, id) == hs
  {
  }

  /** Everything after the authorisation check: resolve, pay the helpers,
      reward a resolving reporter, bulk-complete the helper rows. The
      reporter's reward is a call of its own, so whether it fails
      (`reporterAwardFails`) is independent of the helper payouts, even when
      the reporter also holds a helper row. */
  method Close(db: Db, id: RowId, caller: UserId, isReporter: bool, now: int, awardFails: set<UserId>,
               reporterAwardFails: bool)
    returns (paid: seq<UserId>)
    modifies db`incidents, db`helpers, db`points, db`calls
    ensures var helpers := HelpersOf(old(db.helpers), id);
      var payout := PayoutLedger(old(db.points), helpers, awardFails);
      && paid == PaidHelpers(helpers, awardFails)
      && db.incidents == MarkResolved(old(db.incidents), id, now)
      && db.helpers == CompleteAll(old(db.helpers), id)
      && db.calls == old(db.calls) + PayoutCalls(helpers, awardFails)
                     + (if isReporter then [AwardUserPoints(caller, ReporterPoints, ReporterReason)] else [])
      && db.points == (if isReporter && !reporterAwardFails then Credit(payout, caller, ReporterPoints) else payout)
  {
    db.incidents := MarkResolved(db.incidents, id, now);
    var helpers := HelpersOf(db.helpers, id);
    paid := PayHelpers(db, helpers, awardFails);
    if isReporter {
      var _ := db.Award(caller, ReporterPoints, ReporterReason, reporterAwardFails);
    }
    if |helpers| > 0 {
      db.helpers := CompleteAll(db.helpers, id);
    } else {
      NoHelpersNothingToComplete(db.helpers, id);
    }
  }

  datatype ResolveReply = ResolveReply(incident: Incident, helpersAwarded: nat, pointsResults: seq<UserId>)

  method Resolve(db: Db, caller: UserId, incidentId: Option<RowId>, now: int, awardFails: set<UserId>,
                 reporterAwardFails: bool)
    returns (r: Outcome<ResolveReply>)
    requires db.Valid()
    modifies db`incidents, db`helpers, db`points, db`calls
    ensures db.Valid()
    ensures incidentId.None? ==> r == Err(MissingIncidentId) && unchanged(db)
    ensures incidentId.Some? && FindIncident(old(db.incidents), incidentId.value).None? ==>
      r == Err(NotFound) && unchanged(db)
    ensures incidentId.Some? && FindIncident(old(db.incidents), incidentId.value).Some?
            && !MayResolve(FindIncident(old(db.incidents), incidentId.value).value, old(db.helpers), caller) ==>
      r == Err(Unauthorized) && unchanged(db)
    ensures incidentId.Some? && FindIncident(old(db.incidents), incidentId.value).Some?
            && MayResolve(FindIncident(old(db.incidents), incidentId.value).value, old(db.helpers), caller) ==>
      var id := incidentId.value;
      var incident := FindIncident(old(db.incidents), id).value;
      var helpers := HelpersOf(old(db.helpers), id);
      var paid := PaidHelpers(helpers, awardFails);
      var isReporter := incident.userId == caller;
      var payout := PayoutLedger(old(db.points), helpers, awardFails);
      && r == Ok(ResolveReply(incident.(status := Resolved, resolvedAt := Some(now)), |paid|, paid))
      && db.incidents == MarkResolved(old(db.incidents), id, now)
      && db.helpers == CompleteAll(old(db.helpers), id)
      && db.calls == old(db.calls) + PayoutCalls(helpers, awardFails)
                     + (if isReporter then [AwardUserPoints(caller, ReporterPoints, ReporterReason)] else [])
      && db.points == (if isReporter && !reporterAwardFails then Credit(payout, caller, ReporterPoints) else payout)
  {
    if incidentId.None? {
      return Err(MissingIncidentId);
    }
    var id := incidentId.value;
    var found := FindIncident(db.incidents, id);
    if found.None? {
      return Err(NotFound);
    }
    var incident := found.value;
    var isReporter := incident.userId == caller;
    var helperResponse := FindHelperRow(db.helpers, id, caller);
    if !isReporter && helperResponse.None? {
      return Err(Unauthorized);
    }
    MarkResolvedKeepsInvariants(db.incidents, id, now, db.nextId);
    CompleteAllKeepsInvariants(db.helpers, id, db.nextId);
    var paid := Close(db, id, caller, isReporter, now, awardFails, reporterAwardFails);
    r := Ok(ResolveReply(incident.(status := Resolved, resolvedAt := Some(now)), |paid|, paid));
  }
}
