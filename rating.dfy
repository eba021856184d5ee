/** The rating screen shown to a reporter after an incident is resolved:
    the per-helper rating records, the submit loop that writes them to the
    helper rows, and the response time shown for each helper. */
module RatingScreen {
  import opened Common
  import opened Schema

  const MinuteMs := 60000

  /** One helper's form state. */
  datatype RatingEntry = RatingEntry(
    rating: int,
    providedFirstAid: bool, calledEmergencyServices: bool,
    stayedUntilResolved: bool, comfortedVictim: bool,
    thankYouMessage: string)

  const DefaultEntry := RatingEntry(0, false, false, false, false, "")

  datatype RatingField = Rating | ProvidedFirstAid | CalledEmergencyServices
                       | StayedUntilResolved | ComfortedVictim | ThankYouMessage

  datatype FieldValue = Number(n: int) | Flag(b: bool) | Text(s: string)

  /** The object literal built by `updateRating`: the edited key comes
      first and is then overwritten by the six keys that follow it, each
      taking the previous value or its default. */
  function Merge(prev: Option<RatingEntry>, field: RatingField, value: FieldValue): (r: RatingEntry)
    ensures prev.None? ==> r == DefaultEntry
  {
    var p := if prev.Some? then prev.value else DefaultEntry;
    RatingEntry(
      IntOr(if prev.Some? then Some(p.rating) else None, 0),
      p.providedFirstAid, p.calledEmergencyServices, p.stayedUntilResolved, p.comfortedVictim,
      StringOr(if prev.Some? then Some(p.thankYouMessage) else None, ""))
  }

  function UpdateRating(ratings: map<RowId, RatingEntry>, helperRowId: RowId, field: RatingField, value: FieldValue)
    : (r: map<RowId, RatingEntry>)
    ensures r.Keys == ratings.Keys + {helperRowId}
    ensures forall h :: h in ratings && h != helperRowId ==> r[h] == ratings[h]
  {
    ratings[helperRowId := Merge(if helperRowId in ratings then Some(ratings[helperRowId]) else None, field, value)]
  }

  /** Whatever field and value are passed, the helper's entry afterwards is
      its previous entry, or the defaults for a first update: the edit is
      lost. */
  lemma UpdateIsLost(ratings: map<RowId, RatingEntry>, helperRowId: RowId, field: RatingField, value: FieldValue)
    ensures UpdateRating(ratings, helperRowId, field, value)[helperRowId] ==
      if helperRowId in ratings then ratings[helperRowId] else DefaultEntry
  {
  }

  datatype Edit = Edit(helperRowId: RowId, field: RatingField, value: FieldValue)

  function ApplyEdits(ratings: map<RowId, RatingEntry>, edits: seq<Edit>): map<RowId, RatingEntry>
    decreases |edits|
  {
    if edits == [] then ratings
    else ApplyEdits(UpdateRating(ratings, edits[0].helperRowId, edits[0].field, edits[0].value), edits[1..])
  }

  /** Starting from the empty form, every entry any sequence of edits
      creates is the default entry, so every rating stays 0. */
  lemma {:induction false} EditsNeverLeaveDefaults(ratings: map<RowId, RatingEntry>, edits: seq<Edit>)
    requires forall h :: h in ratings ==> ratings[h] == DefaultEntry
    ensures forall h :: h in ApplyEdits(ratings, edits) ==> ApplyEdits(ratings, edits)[h] == DefaultEntry
    decreases |edits|
  {
    if edits != [] {
      var e := edits[0];
      UpdateIsLost(ratings, e.helperRowId, e.field, e.value);
      EditsNeverLeaveDefaults(UpdateRating(ratings, e.helperRowId, e.field, e.value), edits[1..]);
    }
  }

  /** A helper as passed to the screen. */
  datatype RatedHelper = RatedHelper(id: RowId, helperId: UserId, respondedAt: int, arrivedAt: Option<int>)

  /** `calculateResponseTime`: whole minutes from responding to arriving
      (or to now), rounded to the nearest minute with halves rounded up. */
  function ResponseMinutes(respondedAt: int, arrivedAt: Option<int>, now: int): (r: int)
    ensures var d := (if arrivedAt.Some? then arrivedAt.value else now) - respondedAt;
      r * MinuteMs - MinuteMs / 2 <= d < r * MinuteMs + MinuteMs / 2
  {
    var arrived := if arrivedAt.Some? then arrivedAt.value else now;
    (arrived - respondedAt + MinuteMs / 2) / MinuteMs
  }

  /** The `incident_helpers` update written for one helper. */
  datatype HelperUpdate = HelperUpdate(
    id: RowId, rating: int, thankYouMessage: Option<string>,
    providedFirstAid: bool, calledEmergencyServices: bool, stayedUntilResolved: bool, comfortedVictim: bool)

  function UpdateOf(id: RowId, e: RatingEntry): HelperUpdate {
    HelperUpdate(id, e.rating, StringOrNull(Some(e.thankYouMessage)),
                 e.providedFirstAid, e.calledEmergencyServices, e.stayedUntilResolved, e.comfortedVictim)
  }

  /** `!rating || rating.rating === 0`. */
  predicate IsRated(ratings: map<RowId, RatingEntry>, h: RatedHelper) {
    h.id in ratings && ratings[h.id].rating != 0
  }

  /** Where the submit loop stops: the first helper without a rating or
      whose write fails, or the end of the list. */
  function StopIndex(helpers: seq<RatedHelper>, ratings: map<RowId, RatingEntry>, writeFails: set<RowId>): (k: nat)
    ensures k <= |helpers|
    ensures forall i :: 0 <= i < k ==> IsRated(ratings, helpers[i]) && helpers[i].id !in writeFails
    ensures k < |helpers| ==> !IsRated(ratings, helpers[k]) || helpers[k].id in writeFails
  {
    if helpers == [] || !IsRated(ratings, helpers[0]) || helpers[0].id in writeFails then 0
    else 1 + StopIndex(helpers[1..], ratings, writeFails)
  }

  /** The rows written for the first `k` helpers, in order. */
  function WrittenUpdates(helpers: seq<RatedHelper>, ratings: map<RowId, RatingEntry>, k: nat): (r: seq<HelperUpdate>)
    requires k <= |helpers| && forall i :: 0 <= i < k ==> helpers[i].id in ratings
    ensures |r| == k
    ensures forall i :: 0 <= i < k ==> r[i] == UpdateOf(helpers[i].id, ratings[helpers[i].id])
  {
    if k == 0 then [] else WrittenUpdates(helpers, ratings, k - 1) + [UpdateOf(helpers[k - 1].id, ratings[helpers[k - 1].id])]
  }

  /** The loop's stopping point is the first helper that is unrated or
      whose write fails. */
  lemma StopIndexIsFirstStop(helpers: seq<RatedHelper>, ratings: map<RowId, RatingEntry>, writeFails: set<RowId>, k: nat)
    requires k <= |helpers|
    requires forall i :: 0 <= i < k ==> IsRated(ratings, helpers[i]) && helpers[i].id !in writeFails
    requires k < |helpers| ==> !IsRated(ratings, helpers[k]) || helpers[k].id in writeFails
    ensures StopIndex(helpers, ratings, writeFails) == k
  {
  }

  datatype SubmitResult = AllRated | MissingRating(at: nat) | StoreError(at: nat)

  /** Submitting completes exactly when every helper has a non-zero rating
      and every write succeeds; an empty list always completes. */
  lemma SubmitCompletesIffAllRated(helpers: seq<RatedHelper>, ratings: map<RowId, RatingEntry>, writeFails: set<RowId>)
    ensures StopIndex(helpers, ratings, writeFails) == |helpers| <==>
      forall i :: 0 <= i < |helpers| ==> IsRated(ratings, helpers[i]) && helpers[i].id !in writeFails
    ensures helpers == [] ==> StopIndex(helpers, ratings, writeFails) == 0
  {
  }

  /** Since edits are lost, a form filled in only through `updateRating`
      stops at the first helper and writes nothing. */
  lemma FilledFormStopsAtFirstHelper(helpers: seq<RatedHelper>, edits: seq<Edit>, writeFails: set<RowId>)
    requires helpers != []
    ensures StopIndex(helpers, ApplyEdits(map[], edits), writeFails) == 0
  {
    EditsNeverLeaveDefaults(map[], edits);
  }

  class RatingForm {
    var ratings: map<RowId, RatingEntry>
    var submitting: bool
    var completed: bool
    var written: seq<HelperUpdate>

    constructor ()
      ensures ratings == map[] && !submitting && !completed && written == []
    {
      ratings, submitting, completed, written := map[], false, false, [];
    }

    method Update(helperRowId: RowId, field: RatingField, value: FieldValue)
      modifies this`ratings
      ensures ratings == UpdateRating(old(ratings), helperRowId, field, value)
    {
      ratings := UpdateRating(ratings, helperRowId, field, value);
    }

    /** `handleSubmit`: helpers in order, stopping at the first one without
        a rating; a failed write stops the loop with the earlier rows
        already written. */
    method Submit(helpers: seq<RatedHelper>, writeFails: set<RowId>) returns (r: SubmitResult)
      modifies this`submitting, this`completed, this`written
      ensures !submitting
      ensures var k := StopIndex(helpers, ratings, writeFails);
        written == old(written) + WrittenUpdates(helpers, ratings, k) &&
        r == (if k == |helpers| then AllRated
              else if !IsRated(ratings, helpers[k]) then MissingRating(k)
              else StoreError(k))
      ensures completed == (old(completed) || r == AllRated)
    {
      submitting := true;
      var k := 0;
      while k < |helpers|
        invariant 0 <= k <= |helpers|
        invariant forall i :: 0 <= i < k ==> IsRated(ratings, helpers[i]) && helpers[i].id !in writeFails
        invariant written == old(written) + WrittenUpdates(helpers, ratings, k)
        invariant completed == old(completed)
      {
        var h := helpers[k];
        if !IsRated(ratings, h) {
          StopIndexIsFirstStop(helpers, ratings, writeFails, k);
          submitting := false;
          return MissingRating(k);
        }
        if h.id in writeFails {
          StopIndexIsFirstStop(helpers, ratings, writeFails, k);
          submitting := false;
          return StoreError(k);
        }
        written := written + [UpdateOf(h.id, ratings[h.id])];
        k := k + 1;
      }
      StopIndexIsFirstStop(helpers, ratings, writeFails, k);
      completed := true;
      submitting := false;
      r := AllRated;
    }
  }
}
