/** The `award-points` edge function: argument defaulting, the positivity
    check, the ledger award and the best-effort badge check. */
module AwardPoints {
  import opened Common
  import opened Schema
  import opened Database

  /** What `check_badge_unlocks` reports; the procedure itself is opaque. */
  datatype BadgeSummary = BadgeSummary(unlockedCount: int, badges: seq<string>)

  const NoBadges := BadgeSummary(0, [])

  datatype AwardArgs = AwardArgs(target: UserId, amount: int, reason: string)

  datatype AwardReply = AwardReply(args: AwardArgs, balance: int, badges: BadgeSummary)

  /** `userId || user.id`, `points || 0`, `reason || 'action'`, then the
      rejection of a non-positive amount. Any caller may name any target. */
  function ResolveArgs(caller: UserId, userId: Option<UserId>, points: Option<int>, reason: Option<string>): (r: Outcome<AwardArgs>)
    ensures r.Ok? <==> points.Some? && points.value > 0
    ensures r.Err? ==> r.message == "Points must be greater than 0"
    ensures r.Ok? ==> r.value.amount == points.value && r.value.amount > 0
    ensures r.Ok? ==> r.value.target == (if TruthyString(userId) then userId.value else caller)
    ensures r.Ok? ==> r.value.reason == (if TruthyString(reason) then reason.value else "action")
  {
    var amount := IntOr(points, 0);
    if amount <= 0 then Err("Points must be greater than 0")
    else Ok(AwardArgs(StringOr(userId, caller), amount, StringOr(reason, "action")))
  }

  /** The whole request. A ledger failure is returned as the error; a badge
      check failure (`badgeResult == None`) only yields the empty summary. */
  method Award(db: Db, caller: UserId, userId: Option<UserId>, points: Option<int>, reason: Option<string>,
               ledgerFails: bool, badgeResult: Option<BadgeSummary>) returns (r: Outcome<AwardReply>)
    requires db.Valid()
    modifies db`points, db`calls
    ensures db.Valid()
    ensures ResolveArgs(caller, userId, points, reason).Err? ==>
      r == Err("Points must be greater than 0") && unchanged(db)
    ensures ResolveArgs(caller, userId, points, reason).Ok? ==>
      var args := ResolveArgs(caller, userId, points, reason).value;
      && (ledgerFails ==>
            && r.Err?
            && db.points == old(db.points)
            && db.calls == old(db.calls) + [AwardUserPoints(args.target, args.amount, args.reason)])
      && (!ledgerFails ==>
            && db.points == Credit(old(db.points), args.target, args.amount)
            && db.calls == old(db.calls) + [AwardUserPoints(args.target, args.amount, args.reason), CheckBadgeUnlocks(args.target)]
            && r == Ok(AwardReply(args, Balance(db.points, args.target),
                                  if badgeResult.Some? then badgeResult.value else NoBadges)))
  {
    var parsed := ResolveArgs(caller, userId, points, reason);
    if parsed.Err? {
      return Err(parsed.message);
    }
    var args := parsed.value;
    var ok := db.Award(args.target, args.amount, args.reason, ledgerFails);
    if !ok {
      return Err("award_user_points failed");
    }
    db.CheckBadges(args.target);
    var badges := if badgeResult.Some? then badgeResult.value else NoBadges;
    r := Ok(AwardReply(args, Balance(db.points, args.target), badges));
  }

  /** Two successful awards to the same user add up: none is lost. */
  lemma AwardsAccumulate(ledger: map<UserId, int>, u: UserId, a: int, b: int)
    requires a > 0 && b > 0
    ensures Balance(Credit(Credit(ledger, u, a), u, b), u) == Balance(ledger, u) + a + b
    ensures Balance(Credit(Credit(ledger, u, a), u, b), u) > Balance(ledger, u)
  {
    CreditsCommute(ledger, u, u, a, b);
  }
}
