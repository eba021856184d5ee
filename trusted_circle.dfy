/** The `useTrustedCircle` hook: the combined view of the requests a user
    sent and received, its split into accepted contacts and pending
    requests, and the add / accept / reject / remove operations on the
    `trusted_circles` table, each followed by a reload. */
module TrustedCircle {
  import opened Common
  import opened Seqs
  import opened Schema
  import opened Database
  import AwardPoints

  const AcceptPoints := 15
  const AcceptReason := "added_to_trusted_circle"

  /** A row as the hook shows it: the edge and the other party's user id
      (`trusted_user` on sent rows, relabelled from `user` on received rows). */
  datatype CircleEntry = CircleEntry(edge: CircleEdge, otherParty: UserId)

  function SentBy(me: UserId): CircleEdge -> bool {
    (e: CircleEdge) => e.userId == me
  }

  function ReceivedBy(me: UserId): CircleEdge -> bool {
    (e: CircleEdge) => e.trustedUserId == me
  }

  function AsSent(es: seq<CircleEdge>): seq<CircleEntry> {
    seq(|es|, i requires 0 <= i < |es| => CircleEntry(es[i], es[i].trustedUserId))
  }

  function AsReceived(es: seq<CircleEdge>): seq<CircleEntry> {
    seq(|es|, i requires 0 <= i < |es| => CircleEntry(es[i], es[i].userId))
  }

  /** `allContacts`: the sent rows, then the received rows. */
  function Combine(cs: seq<CircleEdge>, me: UserId): (r: seq<CircleEntry>)
    ensures |r| == |Filter(SentBy(me), cs)| + |Filter(ReceivedBy(me), cs)|
    ensures forall i :: 0 <= i < |r| ==> r[i].edge in cs
    ensures forall i :: 0 <= i < |Filter(SentBy(me), cs)| ==>
      r[i].edge.userId == me && r[i].otherParty == r[i].edge.trustedUserId
    ensures forall i :: |Filter(SentBy(me), cs)| <= i < |r| ==>
      r[i].edge.trustedUserId == me && r[i].otherParty == r[i].edge.userId
    ensures forall i :: 0 <= i < |cs| && cs[i].userId == me ==> CircleEntry(cs[i], cs[i].trustedUserId) in r
    ensures forall i :: 0 <= i < |cs| && cs[i].trustedUserId == me ==> CircleEntry(cs[i], cs[i].userId) in r
  {
    var sent := AsSent(Filter(SentBy(me), cs));
    var received := AsReceived(Filter(ReceivedBy(me), cs));
    SentCoversOwnRows(cs, me);
    ReceivedCoversIncomingRows(cs, me);
    sent + received
  }

  lemma SentCoversOwnRows(cs: seq<CircleEdge>, me: UserId)
    ensures forall i :: 0 <= i < |cs| && cs[i].userId == me ==>
      CircleEntry(cs[i], cs[i].trustedUserId) in AsSent(Filter(SentBy(me), cs))
  {
    var f := Filter(SentBy(me), cs);
    forall i | 0 <= i < |cs| && cs[i].userId == me
      ensures CircleEntry(cs[i], cs[i].trustedUserId) in AsSent(f)
    {
      assert cs[i] in f;
      var j :| 0 <= j < |f| && f[j] == cs[i];
      assert AsSent(f)[j] == CircleEntry(cs[i], cs[i].trustedUserId);
    }
  }

  lemma ReceivedCoversIncomingRows(cs: seq<CircleEdge>, me: UserId)
    ensures forall i :: 0 <= i < |cs| && cs[i].trustedUserId == me ==>
      CircleEntry(cs[i], cs[i].userId) in AsReceived(Filter(ReceivedBy(me), cs))
  {
    var f := Filter(ReceivedBy(me), cs);
    forall i | 0 <= i < |cs| && cs[i].trustedUserId == me
      ensures CircleEntry(cs[i], cs[i].userId) in AsReceived(f)
    {
      assert cs[i] in f;
      var j :| 0 <= j < |f| && f[j] == cs[i];
      assert AsReceived(f)[j] == CircleEntry(cs[i], cs[i].userId);
    }
  }

  function HasStatus(s: CircleStatus): CircleEntry -> bool {
    (e: CircleEntry) => e.edge.status == s
  }

  /** `allContacts.filter(tc => tc.status === s)`. */
  function WithStatus(entries: seq<CircleEntry>, s: CircleStatus): (r: seq<CircleEntry>)
    ensures forall i :: 0 <= i < |r| ==> r[i].edge.status == s && r[i] in entries
    ensures forall i :: 0 <= i < |entries| && entries[i].edge.status == s ==> entries[i] in r
  {
    Filter(HasStatus(s), entries)
  }

  /** Accepted contacts, pending requests and rejected rows split the
      combined list: every row lands in exactly one of the three, and the
      hook shows only the first two. */
  lemma {:induction false} StatusPartition(entries: seq<CircleEntry>)
    ensures |WithStatus(entries, Accepted)| + |WithStatus(entries, Pending)| + |WithStatus(entries, Rejected)| == |entries|
  {
    if entries != [] {
      StatusPartition(entries[1..]);
      assert entries == [entries[0]] + entries[1..];
      FilterAppend(HasStatus(Accepted), [entries[0]], entries[1..]);
      FilterAppend(HasStatus(Pending), [entries[0]], entries[1..]);
      FilterAppend(HasStatus(Rejected), [entries[0]], entries[1..]);
    }
  }

  /** The update `{status}` filtered on the row id and on the current user
      being the recipient. */
  function SetStatus(cs: seq<CircleEdge>, id: RowId, me: UserId, s: CircleStatus): (r: seq<CircleEdge>)
    ensures |r| == |cs|
    ensures forall i :: 0 <= i < |cs| && r[i] != cs[i] ==> cs[i].id == id && cs[i].trustedUserId == me && r[i] == cs[i].(status := s)
    ensures forall i :: 0 <= i < |cs| ==> r[i].id == cs[i].id && r[i].userId == cs[i].userId && r[i].trustedUserId == cs[i].trustedUserId
  {
    seq(|cs|, i requires 0 <= i < |cs| =>
      if cs[i].id == id && cs[i].trustedUserId == me then cs[i].(status := s) else cs[i])
  }

  function FindReceived(cs: seq<CircleEdge>, id: RowId, me: UserId): (r: Option<CircleEdge>)
    ensures r.Some? ==> r.value in cs && r.value.id == id && r.value.trustedUserId == me
    ensures r.None? ==> forall i :: 0 <= i < |cs| ==> cs[i].id != id || cs[i].trustedUserId != me
  {
    if cs == [] then None
    else if cs[0].id == id && cs[0].trustedUserId == me then Some(cs[0])
    else FindReceived(cs[1..], id, me)
  }

  /** The sender of a request cannot accept or reject it: with no row
      addressed to them the update matches nothing. */
  lemma SenderCannotDecide(cs: seq<CircleEdge>, id: RowId, me: UserId, s: CircleStatus)
    requires FindReceived(cs, id, me).None?
    ensures SetStatus(cs, id, me, s) == cs
  {
  }

  function WithoutId(id: RowId): CircleEdge -> bool {
    (e: CircleEdge) => e.id != id
  }

  /** `.delete().eq('id', contactId)`: no ownership filter. */
  function DeleteById(cs: seq<CircleEdge>, id: RowId): (r: seq<CircleEdge>)
    ensures forall i :: 0 <= i < |r| ==> r[i].id != id && r[i] in cs
    ensures forall i :: 0 <= i < |cs| && cs[i].id != id ==> cs[i] in r
  {
    Filter(WithoutId(id), cs)
  }

  lemma DeleteKeepsOrder(cs: seq<CircleEdge>, id: RowId)
    ensures IsSubsequence(DeleteById(cs, id), cs)
  {
    FilterIsSubsequence(WithoutId(id), cs);
  }

  lemma {:induction false} DeleteKeepsIds(cs: seq<CircleEdge>, id: RowId, next: nat)
    requires CircleIdsBelow(cs, next)
    ensures CircleIdsBelow(DeleteById(cs, id), next)
  {
    if cs != [] {
      DeleteKeepsIds(cs[1..], id, next);
      assert cs == [cs[0]] + cs[1..];
      FilterAppend(WithoutId(id), [cs[0]], cs[1..]);
    }
  }

  /** Accepting or rejecting a request takes it off the pending list of the
      reloaded view; an accepted request, relabelled to its sender, is among
      the trusted contacts. */
  lemma DecidedRequestLeavesPending(cs: seq<CircleEdge>, id: RowId, me: UserId, s: CircleStatus)
    requires s != Pending
    ensures forall i :: 0 <= i < |WithStatus(Combine(SetStatus(cs, id, me, s), me), Pending)| ==>
      !(WithStatus(Combine(SetStatus(cs, id, me, s), me), Pending)[i].edge.id == id &&
        WithStatus(Combine(SetStatus(cs, id, me, s), me), Pending)[i].edge.trustedUserId == me)
    ensures FindReceived(cs, id, me).Some? ==>
      CircleEntry(FindReceived(cs, id, me).value.(status := s), FindReceived(cs, id, me).value.userId)
        in WithStatus(Combine(SetStatus(cs, id, me, s), me), s)
  {
    var after := SetStatus(cs, id, me, s);
    var all := Combine(after, me);
    var pending := WithStatus(all, Pending);
    forall i | 0 <= i < |pending| ensures !(pending[i].edge.id == id && pending[i].edge.trustedUserId == me) {
      assert pending[i] in all;
      var j :| 0 <= j < |all| && all[j] == pending[i];
      var k :| 0 <= k < |after| && after[k] == all[j].edge;
    }
    var found := FindReceived(cs, id, me);
    if found.Some? {
      var k :| 0 <= k < |cs| && cs[k] == found.value;
      assert after[k] == found.value.(status := s);
      var entry := CircleEntry(after[k], after[k].userId);
      assert entry in all;
      var j :| 0 <= j < |all| && all[j] == entry;
    }
  }

  /** Removing a row by id takes it off both lists of the reloaded view, a
      contact and an outgoing pending request alike. */
  lemma RemovedRowLeavesBothLists(cs: seq<CircleEdge>, id: RowId, me: UserId)
    ensures forall i :: 0 <= i < |WithStatus(Combine(DeleteById(cs, id), me), Accepted)| ==>
      WithStatus(Combine(DeleteById(cs, id), me), Accepted)[i].edge.id != id
    ensures forall i :: 0 <= i < |WithStatus(Combine(DeleteById(cs, id), me), Pending)| ==>
      WithStatus(Combine(DeleteById(cs, id), me), Pending)[i].edge.id != id
  {
    var all := Combine(DeleteById(cs, id), me);
    forall i | 0 <= i < |all| ensures all[i].edge.id != id {
      var rest := DeleteById(cs, id);
      var k :| 0 <= k < |rest| && rest[k] == all[i].edge;
    }
  }

  /** The hook's state. */
  class CircleHook {
    var trustedContacts: seq<CircleEntry>
    var pendingRequests: seq<CircleEntry>
    var loading: bool

    constructor ()
      ensures trustedContacts == [] && pendingRequests == [] && loading
    {
      trustedContacts, pendingRequests, loading := [], [], true;
    }

    /** `loadTrustedCircle`. */
    method Reload(db: Db, me: UserId)
      modifies this
      ensures trustedContacts == WithStatus(Combine(db.circles, me), Accepted)
      ensures pendingRequests == WithStatus(Combine(db.circles, me), Pending)
      ensures !loading
    {
      loading := true;
      var all := Combine(db.circles, me);
      trustedContacts := WithStatus(all, Accepted);
      pendingRequests := WithStatus(all, Pending);
      loading := false;
    }

    method AddTrustedContact(db: Db, me: UserId, trustedUserId: UserId, insertFails: bool) returns (r: Outcome<CircleEdge>)
      requires db.Valid()
      modifies this, db`circles, db`nextId
      ensures db.Valid()
      ensures insertFails ==> r.Err? && unchanged(db) && unchanged(this)
      ensures !insertFails ==>
        && r == Ok(CircleEdge(old(db.nextId), me, trustedUserId, Pending))
        && db.circles == old(db.circles) + [r.value]
        && trustedContacts == WithStatus(Combine(db.circles, me), Accepted)
        && pendingRequests == WithStatus(Combine(db.circles, me), Pending)
        && !loading
    {
      if insertFails {
        return Err("trusted_circles insert failed");
      }
      var id := db.NewId();
      var row := CircleEdge(id, me, trustedUserId, Pending);
      CircleAppendKeepsIds(db.circles, row, id);
      db.circles := db.circles + [row];
      Reload(db, me);
      r := Ok(row);
    }

    /** Accepting marks the request `accepted`, then asks `award-points` for
        15 points for the current user; that reply is not inspected. */
    method AcceptRequest(db: Db, me: UserId, requestId: RowId, ledgerFails: bool) returns (r: Outcome<CircleEdge>)
      requires db.Valid()
      modifies this, db`circles, db`points, db`calls
      ensures db.Valid()
      ensures FindReceived(old(db.circles), requestId, me).None? ==> r.Err? && unchanged(db) && unchanged(this)
      ensures FindReceived(old(db.circles), requestId, me).Some? ==>
        && r == Ok(FindReceived(old(db.circles), requestId, me).value.(status := Accepted))
        && db.circles == SetStatus(old(db.circles), requestId, me, Accepted)
        && db.calls == old(db.calls) + (if ledgerFails then [AwardUserPoints(me, AcceptPoints, AcceptReason)]
                                        else [AwardUserPoints(me, AcceptPoints, AcceptReason), CheckBadgeUnlocks(me)])
        && db.points == (if ledgerFails then old(db.points) else Credit(old(db.points), me, AcceptPoints))
        && trustedContacts == WithStatus(Combine(db.circles, me), Accepted)
        && pendingRequests == WithStatus(Combine(db.circles, me), Pending)
        && !loading
    {
      var found := FindReceived(db.circles, requestId, me);
      if found.None? {
        return Err("request not found");
      }
      db.circles := SetStatus(db.circles, requestId, me, Accepted);
      var _ := AwardPoints.Award(db, me, None, Some(AcceptPoints), Some(AcceptReason), ledgerFails, None);
      Reload(db, me);
      r := Ok(found.value.(status := Accepted));
    }

    method RejectRequest(db: Db, me: UserId, requestId: RowId) returns (r: Outcome<CircleEdge>)
      requires db.Valid()
      modifies this, db`circles
      ensures db.Valid()
      ensures FindReceived(old(db.circles), requestId, me).None? ==> r.Err? && unchanged(db) && unchanged(this)
      ensures FindReceived(old(db.circles), requestId, me).Some? ==>
        && r == Ok(FindReceived(old(db.circles), requestId, me).value.(status := Rejected))
        && db.circles == SetStatus(old(db.circles), requestId, me, Rejected)
        && trustedContacts == WithStatus(Combine(db.circles, me), Accepted)
        && pendingRequests == WithStatus(Combine(db.circles, me), Pending)
        && !loading
    {
      var found := FindReceived(db.circles, requestId, me);
      if found.None? {
        return Err("request not found");
      }
      db.circles := SetStatus(db.circles, requestId, me, Rejected);
      Reload(db, me);
      r := Ok(found.value.(status := Rejected));
    }

    method RemoveTrustedContact(db: Db, me: UserId, contactId: RowId)
      requires db.Valid()
      modifies this, db`circles
      ensures db.Valid()
      ensures db.circles == DeleteById(old(db.circles), contactId)
      ensures trustedContacts == WithStatus(Combine(db.circles, me), Accepted)
      ensures pendingRequests == WithStatus(Combine(db.circles, me), Pending)
      ensures !loading
    {
      DeleteKeepsIds(db.circles, contactId, db.nextId);
      db.circles := DeleteById(db.circles, contactId);
      Reload(db, me);
    }
  }
}
