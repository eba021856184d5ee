/** The backend store as one object: each table is a field that the edge
    functions reassign, `points` is the per-user points ledger (the only
    visible effect of the `award_user_points` procedure), and `calls` records
    every stored-procedure call in order. */
module Database {
  import opened Common
  import opened Schema

  /** The ledger balance of a user; users never credited hold 0 points. */
  function Balance(ledger: map<UserId, int>, u: UserId): int {
    if u in ledger then ledger[u] else 0
  }

  /** The ledger after crediting `amount` points to `u`. */
  function Credit(ledger: map<UserId, int>, u: UserId, amount: int): (r: map<UserId, int>)
    ensures Balance(r, u) == Balance(ledger, u) + amount
    ensures forall v :: v != u ==> Balance(r, v) == Balance(ledger, v)
  {
    ledger[u := Balance(ledger, u) + amount]
  }

  /** Two credits to the same user add up, whatever their order. */
  lemma CreditsCommute(ledger: map<UserId, int>, u: UserId, v: UserId, a: int, b: int)
    ensures Credit(Credit(ledger, u, a), v, b) == Credit(Credit(ledger, v, b), u, a)
    ensures u == v ==> Balance(Credit(Credit(ledger, u, a), u, b), u) == Balance(ledger, u) + a + b
  {
    if u == v {
      assert Credit(Credit(ledger, u, a), u, b) == ledger[u := Balance(ledger, u) + a + b];
      assert Credit(Credit(ledger, u, b), u, a) == ledger[u := Balance(ledger, u) + b + a];
    }
  }

  class Db {
    var incidents: seq<Incident>
    var helpers: seq<HelperRow>
    var timers: seq<Timer>
    var locations: map<UserId, UserLocation>
    var circles: seq<CircleEdge>
    var points: map<UserId, int>
    var calls: seq<Rpc>
    var nextId: nat

    ghost predicate Valid()
      reads this`incidents, this`helpers, this`timers, this`circles, this`nextId
    {
      && ResolvedAtMatchesStatus(incidents)
      && OneRowPerHelper(helpers)
      && OneActiveTimerPerUser(timers)
      && IncidentIdsBelow(incidents, nextId)
      && HelperIdsBelow(helpers, nextId)
      && TimerIdsBelow(timers, nextId)
      && CircleIdsBelow(circles, nextId)
    }

    constructor ()
      ensures Valid()
      ensures incidents == [] && helpers == [] && timers == [] && circles == []
      ensures locations == map[] && points == map[] && calls == []
    {
      incidents, helpers, timers, circles := [], [], [], [];
      locations, points, calls := map[], map[], [];
      nextId := 0;
    }

    /** The id the store gives the next inserted row. */
    method NewId() returns (id: RowId)
      modifies this`nextId
      ensures id == old(nextId) && nextId == id + 1
    {
      id := nextId;
      nextId := nextId + 1;
    }

    /** `award_user_points(target, amount, reason)`: the call is recorded;
        unless it fails, the target's ledger balance grows by `amount`. */
    method Award(target: UserId, amount: int, reason: string, fails: bool) returns (ok: bool)
      modifies this`points, this`calls
      ensures ok == !fails
      ensures calls == old(calls) + [AwardUserPoints(target, amount, reason)]
      ensures points == if ok then Credit(old(points), target, amount) else old(points)
    {
      calls := calls + [AwardUserPoints(target, amount, reason)];
      ok := !fails;
      if ok {
        points := Credit(points, target, amount);
      }
    }

    /** `check_badge_unlocks(target)`: recorded, otherwise opaque. */
    method CheckBadges(target: UserId)
      modifies this`calls
      ensures calls == old(calls) + [CheckBadgeUnlocks(target)]
    {
      calls := calls + [CheckBadgeUnlocks(target)];
    }
  }
}
