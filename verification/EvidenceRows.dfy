/** The evidence rows of one purchase-order line: their nets, and what certificates leave free. */
module EvidenceRows {
  import opened Sums
  import opened Claims

  function IdOf(): Entry -> nat { (e: Entry) => e.id }

  function KeyOf(): Entry -> nat { (e: Entry) => Key(e) }

  /** The net of the row an original heads. */
  function NetAt(entries: seq<Entry>): Entry -> real {
    (o: Entry) => NetOf(entries, o.id)
  }

  predicate Ascending(entries: seq<Entry>) {
    forall i, j :: 0 <= i < j < |entries| ==> entries[i].id < entries[j].id
  }

  lemma {:induction false} OriginalsAscend(entries: seq<Entry>)
    requires Ascending(entries)
    ensures Ascending(Originals(entries))
  {
    if |entries| > 0 {
      var rest, last := entries[..|entries| - 1], entries[|entries| - 1];
      OriginalsAscend(rest);
      forall i | 0 <= i < |Originals(rest)|
        ensures Originals(rest)[i].id < last.id
      {
        assert Originals(rest)[i] in rest;
      }
    }
  }

  lemma OriginalListed(entries: seq<Entry>, row: Id)
    requires HasOriginal(entries, row)
    ensures var o := Originals(entries); exists j :: 0 <= j < |o| && o[j].id == row
  {
    var i :| 0 <= i < |entries| && entries[i].corrects.None? && entries[i].id == row;
    assert IsOriginal()(entries[i]);
    assert entries[i] in Originals(entries);
  }

  /** What falls to an original by key is its net. */
  lemma OwnShareIsNet(entries: seq<Entry>, o: Entry)
    ensures OwnShare(entries, KeyOf(), QuantityOf(), IdOf())(o) == NetAt(entries)(o)
  {
    SumSame(entries, KeyedTo(KeyOf(), QuantityOf(), o.id), ForRow(o.id));
  }

  /** Every row is addressed to an original of its line. */
  lemma EveryRowHasHead(entries: seq<Entry>, i: nat)
    requires EntriesOk(entries) && i < |entries|
    ensures var o := Originals(entries); exists j :: 0 <= j < |o| && IdOf()(o[j]) == KeyOf()(entries[i])
  {
    if entries[i].corrects.None? {
      assert HasOriginal(entries, entries[i].id);
    }
    OriginalListed(entries, Key(entries[i]));
    var o := Originals(entries);
    var j :| 0 <= j < |o| && o[j].id == Key(entries[i]);
    assert IdOf()(o[j]) == KeyOf()(entries[i]);
  }

  /** Nothing is lost between the fold and its rows: the nets of the originals sum to the line's
      evidence, because corrections form one level and address rows of the same line. */
  lemma NetsCoverEvidence(entries: seq<Entry>)
    requires EntriesOk(entries)
    ensures Sum(Originals(entries), NetAt(entries)) == Evidence(entries)
  {
    var o := Originals(entries);
    OriginalsAscend(entries);
    forall i | 0 <= i < |entries|
      ensures exists j :: 0 <= j < |o| && IdOf()(o[j]) == KeyOf()(entries[i])
    {
      EveryRowHasHead(entries, i);
    }
    SharesCover(entries, KeyOf(), QuantityOf(), o, IdOf());
    forall k | 0 <= k < |o|
      ensures OwnShare(entries, KeyOf(), QuantityOf(), IdOf())(o[k]) == NetAt(entries)(o[k])
    {
      OwnShareIsNet(entries, o[k]);
    }
    SumSame(o, OwnShare(entries, KeyOf(), QuantityOf(), IdOf()), NetAt(entries));
  }

  /** Every live draw names an original of the line it draws on, and takes something. */
  predicate DrawsNameRows(draws: seq<Draw>, orders: map<Target, Order>) {
    forall i :: 0 <= i < |draws| ==>
      && draws[i].quantity > 0.0
      && draws[i].target in orders
      && HasOriginal(orders[draws[i].target].entries, draws[i].row)
  }

  function RowOf(): Draw -> nat { (d: Draw) => d.row }

  /** What live certificates consume of the row an original heads. */
  function ConsumedAt(bills: seq<Bill>, t: Target): Entry -> real {
    (o: Entry) => Consumed(bills, t, o.id)
  }

  function OneBillAt(b: Bill, t: Target): Entry -> real {
    (o: Entry) => FrozenOnRow(t, o.id)(b)
  }

  lemma OneBillCovered(b: Bill, orders: map<Target, Order>, t: Target)
    requires t in orders && EntriesOk(orders[t].entries)
    requires DrawsNameRows(LiveDraws(b.certificates), orders)
    ensures Sum(Originals(orders[t].entries), OneBillAt(b, t)) == FrozenOn(t)(b)
  {
    var draws, o := LiveDraws(b.certificates), Originals(orders[t].entries);
    OriginalsAscend(orders[t].entries);
    forall i | 0 <= i < |draws| && DrawOn(t)(draws[i]) != 0.0
      ensures exists j :: 0 <= j < |o| && IdOf()(o[j]) == RowOf()(draws[i])
    {
      OriginalListed(orders[t].entries, draws[i].row);
    }
    SharesCover(draws, RowOf(), DrawOn(t), o, IdOf());
    forall k | 0 <= k < |o|
      ensures OwnShare(draws, RowOf(), DrawOn(t), IdOf())(o[k]) == OneBillAt(b, t)(o[k])
    {
      SumSame(draws, KeyedTo(RowOf(), DrawOn(t), o[k].id), DrawOnRow(t, o[k].id));
      assert FrozenOnRow(t, o[k].id)(b) == Sum(draws, DrawOnRow(t, o[k].id));
    }
    SumSame(o, OwnShare(draws, RowOf(), DrawOn(t), IdOf()), OneBillAt(b, t));
  }

  /** What live certificates consume of a line's rows is exactly what they freeze on the line. */
  lemma {:induction false} ConsumedCoversFrozen(bills: seq<Bill>, orders: map<Target, Order>, t: Target)
    requires t in orders && EntriesOk(orders[t].entries)
    requires forall i :: 0 <= i < |bills| ==> DrawsNameRows(LiveDraws(bills[i].certificates), orders)
    ensures Sum(Originals(orders[t].entries), ConsumedAt(bills, t)) == Frozen(bills, t)
  {
    var o := Originals(orders[t].entries);
    if |bills| == 0 {
      SumZero(o, ConsumedAt(bills, t));
    } else {
      var rest, last := bills[..|bills| - 1], bills[|bills| - 1];
      ConsumedCoversFrozen(rest, orders, t);
      OneBillCovered(last, orders, t);
      SumSplit(o, ConsumedAt(rest, t), OneBillAt(last, t), ConsumedAt(bills, t));
    }
  }

  // ── the rows a certification may draw on ─────────────────────────────────────────────────────

  datatype Row = Row(id: Id, activity: Id, available: real)

  predicate HasResidue(entries: seq<Entry>, e: Entry) {
    e.corrects.None? && NetOf(entries, e.id) > 0.0
  }

  /** The originals of `todo` with positive net over `entries`, in order. */
  function RowsOf(entries: seq<Entry>, todo: seq<Entry>): seq<Row> {
    if |todo| == 0 then [] else
    var last := todo[|todo| - 1];
    RowsOf(entries, todo[..|todo| - 1]) +
      if HasResidue(entries, last) then [Row(last.id, last.activity, NetOf(entries, last.id))] else []
  }

  /** The rows a line's evidence offers: its originals with positive residue, ascending by id. */
  function AvailableRows(entries: seq<Entry>): seq<Row> { RowsOf(entries, entries) }

  predicate RowsAscend(rows: seq<Row>) {
    forall i, j :: 0 <= i < j < |rows| ==> rows[i].id < rows[j].id
  }

  predicate Heads(e: Entry, r: Row) {
    e.corrects.None? && e.id == r.id && e.activity == r.activity
  }

  lemma {:induction false} RowsAreOriginals(entries: seq<Entry>, todo: seq<Entry>)
    requires Ascending(todo)
    ensures RowsAscend(RowsOf(entries, todo))
    ensures forall r :: r in RowsOf(entries, todo) ==> r.available == NetOf(entries, r.id) > 0.0
    ensures forall r :: r in RowsOf(entries, todo) ==> exists e :: e in todo && Heads(e, r)
    ensures forall e :: e in todo && e.corrects.None? && NetOf(entries, e.id) > 0.0 ==>
              Row(e.id, e.activity, NetOf(entries, e.id)) in RowsOf(entries, todo)
  {
    if |todo| > 0 {
      var rest, last := todo[..|todo| - 1], todo[|todo| - 1];
      assert todo == rest + [last];
      RowsAreOriginals(entries, rest);
      forall r | r in RowsOf(entries, rest)
        ensures r.id < last.id && exists e :: e in todo && Heads(e, r)
      {
        var e :| e in rest && Heads(e, r);
        assert e in todo;
      }
      if HasResidue(entries, last) {
        assert last in todo && Heads(last, Row(last.id, last.activity, NetOf(entries, last.id)));
      }
    }
  }

  /** The nets, folded in one pass over the locked rows and read back per original. */
  method LockMeasurementsFor(entries: seq<Entry>) returns (rows: seq<Row>)
    ensures rows == AvailableRows(entries)
  {
    var net: map<Id, real> := map[];
    for i := 0 to |entries|
      invariant forall k :: k in net ==> net[k] == Sum(entries[..i], ForRow(k))
      invariant forall k :: k !in net ==> forall j :: 0 <= j < i ==> Key(entries[j]) != k
    {
      var key := Key(entries[i]);
      var before := if key in net then net[key] else 0.0;
      if key !in net {
        SumZero(entries[..i], ForRow(key));
      }
      forall k | k in net || k == key
        ensures Sum(entries[..i + 1], ForRow(k)) == Sum(entries[..i], ForRow(k)) + ForRow(k)(entries[i])
      {
        SumStep(entries, i, ForRow(k));
      }
      net := net[key := before + entries[i].quantity];
    }
    assert entries[..|entries|] == entries;
    rows := [];
    for i := 0 to |entries|
      invariant rows == RowsOf(entries, entries[..i])
    {
      assert entries[..i + 1][..i] == entries[..i];
      var e := entries[i];
      if e.corrects.None? {
        var quantity := if e.id in net then net[e.id] else 0.0;
        if quantity > 0.0 {
          rows := rows + [Row(e.id, e.activity, quantity)];
        }
      }
    }
  }
}
