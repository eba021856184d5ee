/** The responders panel of the demo responder view: responders listed by
    arrival time, the header count and the "Fastest" badge. */
module ResponderEta {
  import opened Common
  import opened Seqs

  datatype ResponderStatus = EnRoute | Arriving | ArrivedThere

  /** Distances are kept in tenths of a kilometre: the panel shows them with
      `toFixed(1)`. */
  datatype Responder = Responder(id: string, name: string, eta: int, distanceTenths: int, status: ResponderStatus)

  function Eta(r: Responder): int {
    r.eta
  }

  /** `[...responders].sort((a, b) => a.eta - b.eta)`: a sort of a copy, so the input list itself is left as it was. */
  function SortedResponders(responders: seq<Responder>): (r: seq<Responder>)
    ensures forall i, j :: 0 <= i < j < |r| ==> r[i].eta <= r[j].eta
    ensures multiset(r) == multiset(responders)
  {
    var r := SortBy(Eta, responders);
    assert forall i, j :: 0 <= i < j < |r| ==> Eta(r[i]) <= Eta(r[j]);
    r
  }

  /** What the panel shows: the header count, the rows in order, and the
      footer naming the fastest responder when there is one. */
  datatype Panel = Panel(count: nat, rows: seq<Responder>, fastest: Option<Responder>)

  function PanelOf(responders: seq<Responder>): Panel {
    var rows := SortedResponders(responders);
    Panel(|responders|, rows, if |rows| > 0 then Some(rows[0]) else None)
  }

  /** The header counts every responder, the footer appears exactly for a
      non-empty list, and the responder labelled fastest is one of the
      input with the smallest ETA. */
  lemma FastestHasMinimumEta(responders: seq<Responder>)
    ensures PanelOf(responders).count == |responders| == |PanelOf(responders).rows|
    ensures PanelOf(responders).fastest.Some? <==> responders != []
    ensures PanelOf(responders).fastest.Some? ==>
      PanelOf(responders).fastest.value in responders &&
      forall i :: 0 <= i < |responders| ==> PanelOf(responders).fastest.value.eta <= responders[i].eta
  {
    var rows := SortedResponders(responders);
    assert |rows| == |multiset(rows)| == |multiset(responders)| == |responders|;
    if rows != [] {
      assert SortedBy(Eta, rows);
      SortedHeadIsMinimum(Eta, responders, rows);
    }
  }
}
