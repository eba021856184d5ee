/** The profile page's leaderboard: the top profiles by points, ranked
    1, 2, 3, ... in query order, the signed-in user's rank, the podium for
    the first three and the list below it, and the level and XP shown for
    the user's own profile. */
module Leaderboard {
  import opened Common
  import opened Seqs
  import opened Schema

  const Limit := 20
  const PodiumSize := 3

  datatype ProfileRow = ProfileRow(userId: UserId, fullName: Option<string>, points: Option<int>, level: Option<int>)

  datatype Entry = Entry(rank: nat, userId: UserId, name: string, level: int, xp: int, points: int)

  function MostPoints(p: ProfileRow): int {
    -IntOr(p.points, 0)
  }

  /** `.order('points', {ascending: false}).limit(20)`. */
  function TopProfiles(rows: seq<ProfileRow>): (r: seq<ProfileRow>)
    ensures |r| == if |rows| < Limit then |rows| else Limit
    ensures multiset(r) <= multiset(rows)
    ensures forall i, j :: 0 <= i < j < |r| ==> IntOr(r[i].points, 0) >= IntOr(r[j].points, 0)
  {
    var r := FirstByKey(MostPoints, rows, Limit);
    assert forall i, j :: 0 <= i < j < |r| ==> MostPoints(r[i]) <= MostPoints(r[j]);
    r
  }

  /** The leaderboard keeps the 20 highest scores: together with the rows
      cut off it is the whole table, and no row cut off has more points
      than a row kept. */
  lemma TopProfilesKeepsHighest(rows: seq<ProfileRow>)
    ensures multiset(TopProfiles(rows)) + multiset(RestByKey(MostPoints, rows, Limit)) == multiset(rows)
    ensures forall i, j :: 0 <= i < |TopProfiles(rows)| && 0 <= j < |RestByKey(MostPoints, rows, Limit)| ==>
      IntOr(TopProfiles(rows)[i].points, 0) >= IntOr(RestByKey(MostPoints, rows, Limit)[j].points, 0)
  {
    FirstByKeyKeepsSmallest(MostPoints, rows, Limit);
    var kept, cut := TopProfiles(rows), RestByKey(MostPoints, rows, Limit);
    forall i, j | 0 <= i < |kept| && 0 <= j < |cut| ensures IntOr(kept[i].points, 0) >= IntOr(cut[j].points, 0) {
      assert MostPoints(kept[i]) <= MostPoints(cut[j]);
    }
  }

  function EntryOf(p: ProfileRow, rank: nat): (e: Entry)
    ensures e.rank == rank && e.userId == p.userId
    ensures e.name == StringOr(p.fullName, "User")
    ensures e.level == IntOr(p.level, 1) && e.level != 0
    ensures e.xp == e.points == IntOr(p.points, 0)
  {
    Entry(rank, p.userId, StringOr(p.fullName, "User"), IntOr(p.level, 1), IntOr(p.points, 0), IntOr(p.points, 0))
  }

  /** `data.map((p, index) => ({rank: index + 1, ...}))`. */
  function Ranked(rows: seq<ProfileRow>): (r: seq<Entry>)
    ensures |r| == |rows|
    ensures forall i :: 0 <= i < |r| ==> r[i] == EntryOf(rows[i], i + 1)
  {
    seq(|rows|, i requires 0 <= i < |rows| => EntryOf(rows[i], i + 1))
  }

  /** Ranks run 1, 2, ..., n with no gap or repeat. */
  lemma RanksAreConsecutive(rows: seq<ProfileRow>)
    ensures forall i :: 0 <= i < |rows| ==> Ranked(rows)[i].rank == i + 1
    ensures forall i, j :: 0 <= i < j < |rows| ==> Ranked(rows)[i].rank < Ranked(rows)[j].rank
  {
  }

  /** `findIndex(r => r.user.id === id)`, plus one, or null. */
  function UserRank(ranked: seq<Entry>, id: UserId): (r: Option<nat>)
    ensures r.Some? ==> 1 <= r.value <= |ranked| && ranked[r.value - 1].userId == id
    ensures r.Some? ==> forall i :: 0 <= i < r.value - 1 ==> ranked[i].userId != id
    ensures r.None? <==> forall i :: 0 <= i < |ranked| ==> ranked[i].userId != id
  {
    if ranked == [] then None
    else if ranked[0].userId == id then Some(1)
    else
      var rest := UserRank(ranked[1..], id);
      if rest.Some? then Some(rest.value + 1) else None
  }

  /** On a ranked list the user's rank is the rank stored in their entry. */
  lemma UserRankIsEntryRank(rows: seq<ProfileRow>, id: UserId)
    ensures UserRank(Ranked(rows), id).Some? ==>
      UserRank(Ranked(rows), id).value == Ranked(rows)[UserRank(Ranked(rows), id).value - 1].rank
  {
  }

  /** The podium shows the first three entries, and only when there are at
      least three. */
  function Podium(board: seq<Entry>): (r: Option<(Entry, Entry, Entry)>)
    ensures r.Some? <==> |board| >= PodiumSize
    ensures r.Some? ==> r.value == (board[0], board[1], board[2])
  {
    if |board| >= PodiumSize then Some((board[0], board[1], board[2])) else None
  }

  /** `leaderboard.slice(3)`. */
  function BelowPodium(board: seq<Entry>): (r: seq<Entry>)
    ensures |board| >= PodiumSize ==> r == board[PodiumSize..]
    ensures |board| < PodiumSize ==> r == []
  {
    if |board| >= PodiumSize then board[PodiumSize..] else []
  }

  /** With three or more entries every entry is shown exactly once, on the
      podium or below it; with one or two, no entry is shown at all. */
  lemma EveryEntryShownOnceFromThree(board: seq<Entry>)
    ensures |board| >= PodiumSize ==>
      var p := Podium(board).value;
      [p.0, p.1, p.2] + BelowPodium(board) == board
    ensures |board| < PodiumSize ==> Podium(board).None? && BelowPodium(board) == []
  {
    if |board| >= PodiumSize {
      assert board == board[..PodiumSize] + board[PodiumSize..];
    }
  }

  /** The user's own level and XP: `level || 1` and `points || 0`. */
  function ShownLevelAndXp(profile: Option<ProfileRow>): (r: (int, int))
    ensures r.0 != 0
    ensures profile.None? ==> r == (1, 0)
    ensures profile.Some? ==> r == (IntOr(profile.value.level, 1), IntOr(profile.value.points, 0))
  {
    if profile.None? then (1, 0) else (IntOr(profile.value.level, 1), IntOr(profile.value.points, 0))
  }
}
