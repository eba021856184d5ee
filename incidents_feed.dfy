/** The `useIncidents` hook: the initial load of the newest incidents, the
    realtime reducer that applies INSERT/UPDATE/DELETE events to the list,
    and the derived list of active incidents. */
module IncidentsFeed {
  import opened Common
  import opened Seqs
  import opened Schema

  const LoadLimit := 50

  /** A realtime change on the `incidents` table. */
  datatype Change =
    | Inserted(row: Incident)
    | Updated(row: Incident)
    | Deleted(id: RowId)

  /** INSERT: the new row goes to the front. */
  function Prepend(list: seq<Incident>, row: Incident): (r: seq<Incident>)
    ensures |r| == |list| + 1 && r[0] == row && r[1..] == list
  {
    [row] + list
  }

  /** UPDATE: every element with the row's id is replaced by the row. */
  function ReplaceById(list: seq<Incident>, row: Incident): (r: seq<Incident>)
    ensures |r| == |list|
    ensures forall i :: 0 <= i < |list| && list[i].id == row.id ==> r[i] == row
    ensures forall i :: 0 <= i < |list| && list[i].id != row.id ==> r[i] == list[i]
  {
    seq(|list|, i requires 0 <= i < |list| => if list[i].id == row.id then row else list[i])
  }

  function HasOtherId(id: RowId): Incident -> bool {
    (inc: Incident) => inc.id != id
  }

  /** DELETE: every element with that id goes; the others keep their order. */
  function RemoveById(list: seq<Incident>, id: RowId): (r: seq<Incident>)
    ensures forall i :: 0 <= i < |r| ==> r[i].id != id && r[i] in list
    ensures forall i :: 0 <= i < |list| && list[i].id != id ==> list[i] in r
  {
    Filter(HasOtherId(id), list)
  }

  function Apply(list: seq<Incident>, change: Change): seq<Incident> {
    match change
    case Inserted(row) => Prepend(list, row)
    case Updated(row) => ReplaceById(list, row)
    case Deleted(id) => RemoveById(list, id)
  }

  function IsActive(): Incident -> bool {
    (inc: Incident) => inc.status == Active
  }

  /** `getActiveIncidents`: the `active` incidents, in list order. */
  function ActiveIncidents(list: seq<Incident>): (r: seq<Incident>)
    ensures forall i :: 0 <= i < |r| ==> r[i].status == Active && r[i] in list
    ensures forall i :: 0 <= i < |list| && list[i].status == Active ==> list[i] in r
  {
    Filter(IsActive(), list)
  }

  lemma ActiveIncidentsKeepOrder(list: seq<Incident>)
    ensures IsSubsequence(ActiveIncidents(list), list)
  {
    FilterIsSubsequence(IsActive(), list);
  }

  lemma DeleteKeepsOrder(list: seq<Incident>, id: RowId)
    ensures IsSubsequence(RemoveById(list, id), list)
  {
    FilterIsSubsequence(HasOtherId(id), list);
  }

  /** Replaying an UPDATE or a DELETE event changes nothing more. */
  lemma ChangesAreIdempotent(list: seq<Incident>, row: Incident, id: RowId)
    ensures ReplaceById(ReplaceById(list, row), row) == ReplaceById(list, row)
    ensures RemoveById(RemoveById(list, id), id) == RemoveById(list, id)
  {
    var once := RemoveById(list, id);
    FilterAll(HasOtherId(id), once);
  }

  /** The active list after a DELETE is the old active list without that id. */
  lemma DeleteCommutesWithActive(list: seq<Incident>, id: RowId)
    ensures ActiveIncidents(RemoveById(list, id)) == RemoveById(ActiveIncidents(list), id)
  {
    FilterCommutes(IsActive(), HasOtherId(id), list);
  }

  function NewestFirst(inc: Incident): int {
    -inc.createdAt
  }

  /** `.order('created_at', {ascending: false}).limit(50)`; `data || []`. */
  function InitialLoad(rows: seq<Incident>): (r: seq<Incident>)
    ensures |r| == if |rows| < LoadLimit then |rows| else LoadLimit
    ensures forall i, j :: 0 <= i < j < |r| ==> r[i].createdAt >= r[j].createdAt
    ensures multiset(r) <= multiset(rows)
  {
    var r := FirstByKey(NewestFirst, rows, LoadLimit);
    assert forall i, j :: 0 <= i < j < |r| ==> NewestFirst(r[i]) <= NewestFirst(r[j]);
    r
  }

  /** The load keeps the 50 newest rows: every row left out is no newer
      than any row kept. */
  lemma InitialLoadKeepsNewest(rows: seq<Incident>)
    ensures multiset(InitialLoad(rows)) + multiset(RestByKey(NewestFirst, rows, LoadLimit)) == multiset(rows)
    ensures forall i, j :: 0 <= i < |InitialLoad(rows)| && 0 <= j < |RestByKey(NewestFirst, rows, LoadLimit)| ==>
      InitialLoad(rows)[i].createdAt >= RestByKey(NewestFirst, rows, LoadLimit)[j].createdAt
  {
    FirstByKeyKeepsSmallest(NewestFirst, rows, LoadLimit);
    var kept, cut := InitialLoad(rows), RestByKey(NewestFirst, rows, LoadLimit);
    forall i, j | 0 <= i < |kept| && 0 <= j < |cut| ensures kept[i].createdAt >= cut[j].createdAt {
      assert NewestFirst(kept[i]) <= NewestFirst(cut[j]);
    }
  }

  /** The hook's state. */
  class Feed {
    var incidents: seq<Incident>
    var loading: bool
    var failed: bool

    constructor ()
      ensures incidents == [] && loading && !failed
    {
      incidents, loading, failed := [], true, false;
    }

    /** `loadIncidents`: a failed query keeps the list and records the error;
        loading ends either way. */
    method Load(fetched: Outcome<seq<Incident>>)
      modifies this
      ensures !loading
      ensures fetched.Ok? ==> incidents == InitialLoad(fetched.value) && failed == old(failed)
      ensures fetched.Err? ==> incidents == old(incidents) && failed
    {
      loading := true;
      if fetched.Ok? {
        incidents := InitialLoad(fetched.value);
      } else {
        failed := true;
      }
      loading := false;
    }

    /** The realtime subscription callback. */
    method OnChange(change: Change)
      modifies this`incidents
      ensures incidents == Apply(old(incidents), change)
    {
      incidents := Apply(incidents, change);
    }

    function ActiveList(): (r: seq<Incident>)
      reads this
      ensures forall i :: 0 <= i < |r| ==> r[i].status == Active && r[i] in incidents
      ensures forall i :: 0 <= i < |incidents| && incidents[i].status == Active ==> incidents[i] in r
    {
      ActiveIncidents(incidents)
    }
  }
}
