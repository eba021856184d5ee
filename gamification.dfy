/** The derived values of the `useGamification` hook: points needed for the
    next level, the progress bar percentage, and the split of the badge
    catalog into unlocked and locked badges. Progress is computed with
    JavaScript number semantics, including the division by zero that a
    missing or zero level produces. */
module Gamification {
  import opened Common
  import opened Seqs
  import opened JsNumbers

  const PointsPerLevel := 500

  datatype Profile = Profile(level: Option<int>, points: Option<int>)

  function Times(x: JsNumber, k: real): JsNumber
    requires k > 0.0
  {
    match x
    case Finite(v) => Finite(v * k)
    case _ => x
  }

  /** `Math.min(bound, x)`: NaN propagates. */
  function MinWith(bound: real, x: JsNumber): JsNumber {
    match x
    case Finite(v) => Finite(if v < bound then v else bound)
    case PosInfinity => Finite(bound)
    case NegInfinity => NegInfinity
    case NaN => NaN
  }

  /** `Math.max(bound, x)`: NaN propagates. */
  function MaxWith(bound: real, x: JsNumber): JsNumber {
    match x
    case Finite(v) => Finite(if v > bound then v else bound)
    case PosInfinity => PosInfinity
    case NegInfinity => Finite(bound)
    case NaN => NaN
  }

  /** `getNextLevelPoints`. */
  function NextLevelPoints(profile: Option<Profile>): (r: int)
    ensures profile.None? || IntOr(profile.value.level, 0) == 0 ==> r == 500
    ensures profile.Some? && IntOr(profile.value.level, 0) != 0 ==> r == (profile.value.level.value + 1) * 500
  {
    if profile.None? || IntOr(profile.value.level, 0) == 0 then PointsPerLevel
    else (profile.value.level.value + 1) * PointsPerLevel
  }

  /** `getProgressToNextLevel`, as a percentage. */
  function ProgressToNextLevel(profile: Option<Profile>): (r: JsNumber)
    // no profile, or falsy points: 0
    ensures profile.None? || IntOr(profile.value.points, 0) == 0 ==> r == Finite(0.0)
    // a finite result is always a valid percentage
    ensures r.Finite? ==> 0.0 <= r.value <= 100.0
    ensures r != PosInfinity && r != NegInfinity
    // with a level, the denominator is exactly one level's worth of points
    ensures profile.Some? && IntOr(profile.value.points, 0) != 0 && IntOr(profile.value.level, 0) != 0 ==>
      var p, l := profile.value.points.value, profile.value.level.value;
      r.Finite? && r.value == Clamp((p - l * 500) as real / 5.0)
    // without one it is zero: the bar is full, empty, or NaN at exactly 500 points
    ensures profile.Some? && IntOr(profile.value.points, 0) != 0 && IntOr(profile.value.level, 0) == 0 ==>
      var p := profile.value.points.value;
      r == (if p > 500 then Finite(100.0) else if p < 500 then Finite(0.0) else NaN)
  {
    if profile.None? || IntOr(profile.value.points, 0) == 0 then Finite(0.0)
    else
      var current := IntOr(profile.value.level, 1) * PointsPerLevel;
      var next := NextLevelPoints(profile);
      var progress := Times(Divide((profile.value.points.value - current) as real, (next - current) as real), 100.0);
      MaxWith(0.0, MinWith(100.0, progress))
  }

  function Clamp(x: real): real {
    if x < 0.0 then 0.0 else if x > 100.0 then 100.0 else x
  }

  /** At any fixed positive level, more points never shrink the bar. (At a
      negative level a small negative balance would show a fuller bar than
      zero points, which count as "no points".) */
  lemma ProgressIsMonotone(level: int, p1: int, p2: int)
    requires level > 0 && p1 <= p2
    ensures var a, b := ProgressToNextLevel(Some(Profile(Some(level), Some(p1)))),
                        ProgressToNextLevel(Some(Profile(Some(level), Some(p2))));
      a.Finite? && b.Finite? && a.value <= b.value
  {
    var x1, x2 := (p1 - level * 500) as real / 5.0, (p2 - level * 500) as real / 5.0;
    assert x1 <= x2;
    if p1 != 0 && p2 == 0 {
      assert p1 < 0 && x1 < 0.0;
    }
  }

  datatype Badge = Badge(id: string, name: string, pointsRequired: int)
  datatype UserBadge = UserBadge(badgeId: string, badge: Badge)

  /** `userBadges.map(ub => ub.badge)`: one badge per user badge, same order. */
  function UnlockedBadges(userBadges: seq<UserBadge>): (r: seq<Badge>)
    ensures |r| == |userBadges|
    ensures forall i :: 0 <= i < |r| ==> r[i] == userBadges[i].badge
  {
    seq(|userBadges|, i requires 0 <= i < |userBadges| => userBadges[i].badge)
  }

  function UnlockedIds(userBadges: seq<UserBadge>): set<string> {
    set i | 0 <= i < |userBadges| :: userBadges[i].badgeId
  }

  function NotUnlocked(ids: set<string>): Badge -> bool {
    (b: Badge) => b.id !in ids
  }

  /** `getLockedBadges`: the catalog badges whose id no user badge holds. */
  function LockedBadges(catalog: seq<Badge>, userBadges: seq<UserBadge>): (r: seq<Badge>)
    ensures |r| <= |catalog|
    ensures forall i :: 0 <= i < |r| ==>
      r[i] in catalog && forall j :: 0 <= j < |userBadges| ==> userBadges[j].badgeId != r[i].id
  {
    var ids := UnlockedIds(userBadges);
    var r := Filter(NotUnlocked(ids), catalog);
    assert forall j :: 0 <= j < |userBadges| ==> userBadges[j].badgeId in ids;
    r
  }

  /** A catalog badge is locked exactly when the user holds no badge with its
      id, so locked and unlocked ids never meet, and locked badges keep the
      catalog order. */
  lemma LockedIffNotUnlocked(catalog: seq<Badge>, userBadges: seq<UserBadge>)
    ensures forall i :: 0 <= i < |catalog| ==>
      (catalog[i] in LockedBadges(catalog, userBadges) <==>
       forall j :: 0 <= j < |userBadges| ==> userBadges[j].badgeId != catalog[i].id)
    ensures forall b, j :: b in LockedBadges(catalog, userBadges) && 0 <= j < |userBadges| ==> b.id != userBadges[j].badgeId
    ensures IsSubsequence(LockedBadges(catalog, userBadges), catalog)
  {
    var ids := UnlockedIds(userBadges);
    var locked := LockedBadges(catalog, userBadges);
    FilterIsSubsequence(NotUnlocked(ids), catalog);
    forall b, j | b in locked && 0 <= j < |userBadges| ensures b.id != userBadges[j].badgeId {
      var k :| 0 <= k < |locked| && locked[k] == b;
      assert userBadges[j].badgeId in ids;
    }
    forall i | 0 <= i < |catalog|
      ensures catalog[i] in locked <==> forall j :: 0 <= j < |userBadges| ==> userBadges[j].badgeId != catalog[i].id
    {
      if forall j :: 0 <= j < |userBadges| ==> userBadges[j].badgeId != catalog[i].id {
        assert catalog[i].id !in ids;
      }
    }
  }
}
