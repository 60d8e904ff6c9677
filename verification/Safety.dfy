/** What every command keeps: the bounds on every line, exact certificates, and no evidence row
    consumed twice. */
module Safety {
  import opened Sums
  import opened Claims
  import opened EvidenceRows
  import opened Draws
  import opened Disposition
  import opened Commands

  // ── the invariant ────────────────────────────────────────────────────────────────────────────

  /** A claim past certification stands on one live certificate, of its current version, which
      freezes exactly what the claim claims on every line; any other claim stands on none. */
  predicate CertificatesOk(b: Bill)
    requires VersionsOk(b)
  {
    var n := |b.certificates|;
    if PastCertification(b.status) then
      && n > 0 && !Last(b).superseded && Last(b).version == Current(b).number
      && forall i :: 0 <= i < n - 1 ==> b.certificates[i].superseded
    else
      forall i :: 0 <= i < n ==> b.certificates[i].superseded
  }

  ghost predicate FreezesItsClaim(b: Bill)
    requires VersionsOk(b)
  {
    PastCertification(b.status) ==> forall t :: FrozenOn(t)(b) == LineQty(Current(b).lines, t)
  }

  /** Paid money is approved, approved money is payable, and the certificate is for the claim. */
  predicate MoneyOk(b: Bill)
    requires VersionsOk(b)
  {
    && (forall i :: 0 <= i < |b.certificates| ==> b.certificates[i].withheld >= 0.0)
    && (HasLiveCertificate(b) ==>
          && Last(b).amount == ClaimedAmount(b)
          && 0.0 <= b.paid <= Last(b).approved <= Last(b).amount - Last(b).withheld)
    && (!HasLiveCertificate(b) ==> b.paid == 0.0)
  }

  ghost predicate BillOk(b: Bill, orders: map<Target, Order>) {
    && VersionsOk(b)
    && Acceptable(Current(b).lines, orders)
    && CertificatesOk(b)
    && FreezesItsClaim(b)
    && DrawsNameRows(LiveDraws(b.certificates), orders)
    && MoneyOk(b)
  }

  /** Bounds 1 and 2 on one line: a dead order bears no claim at all. */
  predicate BoundOk(bills: seq<Bill>, o: Order, t: Target) {
    && Billed(bills, t) <= Evidence(o.entries)
    && (if o.live then Billed(bills, t) <= Ordered(o) else Billed(bills, t) <= 0.0)
  }

  /** No row is consumed beyond what stands on it. */
  predicate RowsOk(bills: seq<Bill>, o: Order, t: Target) {
    forall k :: 0 <= k < |o.entries| && o.entries[k].corrects.None? ==>
      Consumed(bills, t, o.entries[k].id) <= NetOf(o.entries, o.entries[k].id)
  }

  predicate TermsOk(o: Order) {
    o.qty > 0.0 && o.rate >= 0.0 && o.tax >= 0.0 && o.freight >= 0.0
  }

  predicate LineOk(bills: seq<Bill>, o: Order, t: Target) {
    TermsOk(o) && EntriesOk(o.entries) && BoundOk(bills, o, t) && RowsOk(bills, o, t)
  }

  ghost predicate Inv(s: State) {
    && (forall i :: 0 <= i < |s.bills| ==> BillOk(s.bills[i], s.orders))
    && (forall t :: t in s.orders ==> LineOk(s.bills, s.orders[t], t))
  }

  // ── the folds under a change ─────────────────────────────────────────────────────────────────

  lemma {:induction false} NoLiveDraws(certificates: seq<Certificate>)
    requires forall i :: 0 <= i < |certificates| ==> certificates[i].superseded
    ensures LiveDraws(certificates) == []
  {
    if |certificates| > 0 {
      NoLiveDraws(certificates[..|certificates| - 1]);
    }
  }

  /** When only the last certificate stands, the live draws are its draws. */
  lemma OneLiveCertificate(certificates: seq<Certificate>)
    requires |certificates| > 0 && !certificates[|certificates| - 1].superseded
    requires forall i :: 0 <= i < |certificates| - 1 ==> certificates[i].superseded
    ensures LiveDraws(certificates) == certificates[|certificates| - 1].draws
  {
    NoLiveDraws(certificates[..|certificates| - 1]);
  }

  lemma FreezesNonneg(b: Bill, orders: map<Target, Order>, t: Target, row: Id)
    requires DrawsNameRows(LiveDraws(b.certificates), orders)
    ensures FrozenOn(t)(b) >= 0.0 && FrozenOnRow(t, row)(b) >= 0.0
  {
    SumNonneg(LiveDraws(b.certificates), DrawOn(t));
    SumNonneg(LiveDraws(b.certificates), DrawOnRow(t, row));
  }

  /** Replacing one bill by one that bills and freezes no more keeps everything. */
  lemma InvAfterBill(s: State, i: nat, b: Bill)
    requires Inv(s) && i < |s.bills| && BillOk(b, s.orders)
    requires forall t :: BillOn(t)(b) <= BillOn(t)(s.bills[i])
    requires forall t, row :: FrozenOnRow(t, row)(b) <= FrozenOnRow(t, row)(s.bills[i])
    ensures Inv(s.(bills := s.bills[i := b]))
  {
    forall t | t in s.orders
      ensures LineOk(s.bills[i := b], s.orders[t], t)
    {
      SumUpdate(s.bills, i, b, BillOn(t));
      forall row
        ensures Consumed(s.bills[i := b], t, row) <= Consumed(s.bills, t, row)
      {
        SumUpdate(s.bills, i, b, FrozenOnRow(t, row));
      }
      assert LineOk(s.bills, s.orders[t], t);
    }
  }

  lemma BillsLine(b: Bill, t: Target)
    requires VersionsOk(b)
    ensures BillOn(t)(b) == if IsLive(b.status) then LineQty(Current(b).lines, t) else 0.0
    ensures 0.0 <= BillOn(t)(b)
  {
    CurrentQty(b, t);
  }

  /** A line stays in its bounds when a claim within them is made live. */
  lemma SettledLine(s: State, i: nat, b: Bill, t: Target)
    requires i < |s.bills| && VersionsOk(b) && IsLive(b.status) && t in s.orders && VersionsOk(s.bills[i])
    requires LineOk(s.bills, s.orders[t], t)
    requires AllWithin(s.bills[i := b], s.orders, Current(b).lines, false)
    requires forall row :: FrozenOnRow(t, row)(b) <= FrozenOnRow(t, row)(s.bills[i])
    ensures LineOk(s.bills[i := b], s.orders[t], t)
  {
    SumUpdate(s.bills, i, b, BillOn(t));
    forall row
      ensures Consumed(s.bills[i := b], t, row) <= Consumed(s.bills, t, row)
    {
      SumUpdate(s.bills, i, b, FrozenOnRow(t, row));
    }
    TargetsOfClaim(Current(b).lines);
    BillsLine(b, t);
    BillsLine(s.bills[i], t);
    if !Touches(Current(b).lines, t) {
      UntouchedQty(Current(b).lines, t);
    }
  }

  lemma InvAfterDispute(s: State, i: nat, b: Bill, next: State)
    requires Inv(s) && i < |s.bills| && BillOk(b, s.orders) && b.status == Disputed
    requires next == s.(bills := s.bills[i := b])
    ensures Inv(next)
  {
    NoLiveDraws(b.certificates);
    FreezesNonnegAll(s.bills[i], s.orders);
    forall t
      ensures BillOn(t)(b) <= BillOn(t)(s.bills[i])
    {
      BillsLine(s.bills[i], t);
    }
    InvAfterBill(s, i, b);
  }

  lemma InvAfterLive(s: State, i: nat, b: Bill, next: State)
    requires Inv(s) && i < |s.bills| && BillOk(b, s.orders)
    requires IsLive(b.status) && !PastCertification(b.status)
    requires AllWithin(s.bills[i := b], s.orders, Current(b).lines, false)
    requires next == s.(bills := s.bills[i := b])
    ensures Inv(next)
  {
    NoLiveDraws(b.certificates);
    FreezesNonnegAll(s.bills[i], s.orders);
    forall t | t in s.orders
      ensures LineOk(next.bills, s.orders[t], t)
    {
      assert LineOk(s.bills, s.orders[t], t);
      SettledLine(s, i, b, t);
    }
    forall k | 0 <= k < |next.bills|
      ensures BillOk(next.bills[k], s.orders)
    {
      assert k != i ==> BillOk(s.bills[k], s.orders);
    }
  }

  lemma DisputedIsOk(b: Bill, orders: map<Target, Order>)
    requires BillOk(b, orders) && !PastCertification(b.status)
    ensures BillOk(b.(status := Disputed), orders)
  {
  }

  /** Making a claim live and settling it keeps the bounds: either every line it touches is within
      them, or it is disputed and bills nothing. */
  lemma InvAfterSettle(s: State, i: nat, b: Bill, next: State)
    requires Inv(s) && i < |s.bills| && BillOk(b, s.orders)
    requires IsLive(b.status) && !PastCertification(b.status)
    requires next == s.(bills := Settle(s.bills[i := b], s.orders, i))
    ensures Inv(next)
  {
    if AllWithin(s.bills[i := b], s.orders, Current(b).lines, false) {
      InvAfterLive(s, i, b, next);
    } else {
      DisputedIsOk(b, s.orders);
      assert Dispute(s.bills[i := b], i) == s.bills[i := b.(status := Disputed)];
      InvAfterDispute(s, i, b.(status := Disputed), next);
    }
  }

  lemma FreezesNonnegAll(b: Bill, orders: map<Target, Order>)
    requires DrawsNameRows(LiveDraws(b.certificates), orders)
    ensures forall t, row :: FrozenOnRow(t, row)(b) >= 0.0
  {
    forall t, row
      ensures FrozenOnRow(t, row)(b) >= 0.0
    {
      FreezesNonneg(b, orders, t, row);
    }
  }

  /** A change of status that keeps the claim on the same side of certification and does not make
      it live. */
  lemma InvAfterStatus(s: State, i: nat, status: Status)
    requires Inv(s) && i < |s.bills|
    requires !PastCertification(status) && !PastCertification(s.bills[i].status)
    requires IsLive(status) ==> IsLive(s.bills[i].status)
    ensures Inv(s.(bills := WithStatus(s.bills, i, status)))
  {
    var b := s.bills[i].(status := status);
    forall t
      ensures BillOn(t)(b) <= BillOn(t)(s.bills[i])
    {
      BillsLine(b, t);
      BillsLine(s.bills[i], t);
    }
    InvAfterBill(s, i, b);
  }

  // ── the claim commands ───────────────────────────────────────────────────────────────────────

  lemma KeepsRecord(s: State, lines: seq<ClaimLine>, at: nat)
    requires Inv(s) && Record(s, lines, at).Done?
    ensures Inv(Record(s, lines, at).state)
  {
    var b := Bill(Draft, [Version(1, at, false, lines)], [], 0.0);
    var next := s.bills + [b];
    forall t | t in s.orders
      ensures LineOk(next, s.orders[t], t)
    {
      assert LineOk(s.bills, s.orders[t], t);
      SumAppend(s.bills, [b], BillOn(t));
      SumOne(b, BillOn(t));
      forall row
        ensures Consumed(next, t, row) == Consumed(s.bills, t, row)
      {
        SumAppend(s.bills, [b], FrozenOnRow(t, row));
        SumOne(b, FrozenOnRow(t, row));
      }
    }
  }

  lemma KeepsSubmit(s: State, i: nat)
    requires Inv(s) && i < |s.bills| && Submit(s, i).Done?
    ensures Inv(Submit(s, i).state)
  {
    InvAfterSettle(s, i, s.bills[i].(status := Submitted), Submit(s, i).state);
  }

  lemma KeepsVerify(s: State, i: nat, otherExceptions: bool)
    requires Inv(s) && i < |s.bills| && Verify(s, i, otherExceptions).Done?
    ensures Inv(Verify(s, i, otherExceptions).state)
  {
    InvAfterStatus(s, i, Verified);
    InvAfterStatus(s, i, Disputed);
  }

  lemma RewrittenOk(b: Bill, orders: map<Target, Order>, lines: seq<ClaimLine>, at: nat, status: Status)
    requires BillOk(b, orders) && Acceptable(lines, orders)
    requires !PastCertification(b.status) && !PastCertification(status)
    ensures BillOk(Rewritten(b, lines, at).(status := status), orders)
    ensures Current(Rewritten(b, lines, at)).lines == lines
  {
  }

  lemma KeepsAmend(s: State, i: nat, lines: seq<ClaimLine>, at: nat)
    requires Inv(s) && i < |s.bills| && Amend(s, i, lines, at).Done?
    ensures Inv(Amend(s, i, lines, at).state)
  {
    var b := s.bills[i];
    var r := Rewritten(b, lines, at);
    if b.status == Disputed {
      var closed := r.(status := Resolved);
      RewrittenOk(b, s.orders, lines, at, Resolved);
      assert WithStatus(s.bills[i := r], i, Resolved) == s.bills[i := closed];
      forall t
        ensures BillOn(t)(closed) <= BillOn(t)(b)
      {
        BillsLine(b, t);
      }
      InvAfterBill(s, i, closed);
    } else {
      RewrittenOk(b, s.orders, lines, at, Submitted);
      assert WithStatus(s.bills[i := r], i, Submitted) == s.bills[i := r.(status := Submitted)];
      InvAfterSettle(s, i, r.(status := Submitted), Amend(s, i, lines, at).state);
    }
  }

  // ── certification ────────────────────────────────────────────────────────────────────────────

  /** What one original leaves for a certificate to draw on. */
  function FreeAt(bills: seq<Bill>, entries: seq<Entry>, t: Target): Entry -> real {
    (o: Entry) => NetOf(entries, o.id) - Consumed(bills, t, o.id)
  }

  lemma ConsumedNonneg(s: State, t: Target, row: Id)
    requires Inv(s)
    ensures Consumed(s.bills, t, row) >= 0.0
  {
    forall i | 0 <= i < |s.bills|
      ensures FrozenOnRow(t, row)(s.bills[i]) >= 0.0
    {
      FreezesNonneg(s.bills[i], s.orders, t, row);
    }
    SumNonneg(s.bills, FrozenOnRow(t, row));
  }

  predicate WithinNet(bills: seq<Bill>, entries: seq<Entry>, t: Target, e: Entry) {
    e.corrects.None? ==> 0.0 <= Consumed(bills, t, e.id) <= NetOf(entries, e.id)
  }

  /** The one-row step of the fold over originals. */
  lemma SpareOfOne(bills: seq<Bill>, entries: seq<Entry>, t: Target, e: Entry)
    requires WithinNet(bills, entries, t, e)
    ensures Sum(OffersOf(bills, t, RowsOf(entries, [e])), Spare()) ==
            if e.corrects.None? then FreeAt(bills, entries, t)(e) else 0.0
  {
    assert [e][..0] == [];
    if HasResidue(entries, e) {
      var r := Row(e.id, e.activity, NetOf(entries, e.id));
      var offer := Offer(r.id, r.available - Consumed(bills, t, r.id));
      assert RowsOf(entries, [e]) == [r];
      assert OffersOf(bills, t, [r]) == [offer];
      SumOne(offer, Spare());
    } else {
      assert RowsOf(entries, [e]) == [];
      assert |OffersOf(bills, t, [])| == 0;
    }
  }

  lemma RowsOfLast(entries: seq<Entry>, todo: seq<Entry>)
    requires |todo| > 0
    ensures RowsOf(entries, todo) == RowsOf(entries, todo[..|todo| - 1]) + RowsOf(entries, [todo[|todo| - 1]])
  {
    var last := todo[|todo| - 1];
    assert [last][..0] == [];
    assert RowsOf(entries, [last][..0]) == [];
  }

  lemma OffersOfBoth(bills: seq<Bill>, t: Target, a: seq<Row>, b: seq<Row>)
    ensures OffersOf(bills, t, a + b) == OffersOf(bills, t, a) + OffersOf(bills, t, b)
  {
  }

  lemma OriginalsOfLast(todo: seq<Entry>, f: Entry -> real)
    requires |todo| > 0
    ensures Sum(Originals(todo), f) ==
            Sum(Originals(todo[..|todo| - 1]), f) + if todo[|todo| - 1].corrects.None? then f(todo[|todo| - 1]) else 0.0
  {
    var rest, last := todo[..|todo| - 1], todo[|todo| - 1];
    if last.corrects.None? {
      assert Originals(todo) == Originals(rest) + [last];
      SumAppend(Originals(rest), [last], f);
      SumOne(last, f);
    }
  }

  lemma {:induction false} SpareOfRows(bills: seq<Bill>, entries: seq<Entry>, t: Target, todo: seq<Entry>)
    requires forall e :: e in todo ==> WithinNet(bills, entries, t, e)
    ensures Sum(OffersOf(bills, t, RowsOf(entries, todo)), Spare()) == Sum(Originals(todo), FreeAt(bills, entries, t))
  {
    if |todo| > 0 {
      var rest, last := todo[..|todo| - 1], todo[|todo| - 1];
      var rows, one := RowsOf(entries, rest), RowsOf(entries, [last]);
      SpareOfRows(bills, entries, t, rest);
      SpareOfOne(bills, entries, t, last);
      RowsOfLast(entries, todo);
      OffersOfBoth(bills, t, rows, one);
      SumAppend(OffersOf(bills, t, rows), OffersOf(bills, t, one), Spare());
      OriginalsOfLast(todo, FreeAt(bills, entries, t));
    } else {
      assert |OffersOf(bills, t, RowsOf(entries, todo))| == 0;
    }
  }

  lemma RowsWithinNet(s: State, t: Target)
    requires Inv(s) && t in s.orders
    ensures forall e :: e in s.orders[t].entries ==> WithinNet(s.bills, s.orders[t].entries, t, e)
  {
    assert LineOk(s.bills, s.orders[t], t);
    forall e | e in s.orders[t].entries && e.corrects.None?
      ensures WithinNet(s.bills, s.orders[t].entries, t, e)
    {
      ConsumedNonneg(s, t, e.id);
    }
  }

  /** The spare evidence of a line is its evidence less what live certificates freeze on it. */
  lemma SpareIsUnfrozen(s: State, t: Target)
    requires Inv(s) && t in s.orders
    ensures SpareOn(OffersOn(s.bills, s.orders), t) == Evidence(s.orders[t].entries) - Frozen(s.bills, t)
  {
    var entries := s.orders[t].entries;
    assert LineOk(s.bills, s.orders[t], t);
    RowsWithinNet(s, t);
    SpareOfRows(s.bills, entries, t, entries);
    NetsCoverEvidence(entries);
    ConsumedCoversFrozen(s.bills, s.orders, t);
    SumSplit(Originals(entries), FreeAt(s.bills, entries, t), ConsumedAt(s.bills, t), NetAt(entries));
  }

  /** A claim's quantity on a line, less what its live certificate freezes there. */
  function Unfrozen(t: Target): Bill -> real {
    (b: Bill) => BillOn(t)(b) - FrozenOn(t)(b)
  }

  lemma UnfrozenNonneg(b: Bill, orders: map<Target, Order>, t: Target)
    requires BillOk(b, orders)
    ensures Unfrozen(t)(b) >= 0.0
    ensures IsLive(b.status) && !PastCertification(b.status) ==> Unfrozen(t)(b) == LineQty(Current(b).lines, t)
  {
    BillsLine(b, t);
    if !PastCertification(b.status) {
      NoLiveDraws(b.certificates);
    }
  }

  /** CERTIFICATION NEVER GETS STUCK. In every state the invariant admits, the evidence left free by
      live certificates covers every uncertified live claim, so its greedy draw completes. */
  lemma CertificationNeverStuck(s: State, i: nat)
    requires Inv(s) && i < |s.bills|
    requires IsLive(s.bills[i].status) && !PastCertification(s.bills[i].status)
    ensures DrawsFor(s, i).Covered?
  {
    var lines := Current(s.bills[i]).lines;
    TargetsOfClaim(lines);
    forall t | t in TargetsOf(lines)
      ensures LineQty(lines, t) <= SpareOn(OffersOn(s.bills, s.orders), t)
    {
      assert LineOk(s.bills, s.orders[t], t);
      SpareIsUnfrozen(s, t);
      forall k | 0 <= k < |s.bills|
        ensures Unfrozen(t)(s.bills[k]) >= 0.0
      {
        UnfrozenNonneg(s.bills[k], s.orders, t);
      }
      UnfrozenNonneg(s.bills[i], s.orders, t);
      SumTerm(s.bills, i, Unfrozen(t));
      SumSplit(s.bills, Unfrozen(t), FrozenOn(t), BillOn(t));
    }
    CoveredExactly(OffersOn(s.bills, s.orders), lines, TargetsOf(lines));
  }

  lemma {:induction false} DrawAllNamesRows(bills: seq<Bill>, orders: map<Target, Order>, lines: seq<ClaimLine>,
      targets: seq<Target>)
    requires DrawAll(OffersOn(bills, orders), lines, targets).Covered?
    requires forall t :: t in orders ==> EntriesOk(orders[t].entries)
    ensures DrawsNameRows(DrawAll(OffersOn(bills, orders), lines, targets).draws, orders)
  {
    if |targets| > 0 {
      var t := targets[0];
      DrawAllNamesRows(bills, orders, lines, targets[1..]);
      var here := Greedy(t, OffersOn(bills, orders)(t), LineQty(lines, t));
      GreedyOnlyOffers(t, OffersOn(bills, orders)(t), LineQty(lines, t));
      forall d | d in here
        ensures d.quantity > 0.0 && d.target in orders && HasOriginal(orders[d.target].entries, d.row)
      {
        var k :| 0 <= k < |OffersOn(bills, orders)(t)| && OffersOn(bills, orders)(t)[k].row == d.row &&
            d.quantity <= OffersOn(bills, orders)(t)[k].free;
        var entries := orders[t].entries;
        RowsAreOriginals(entries, entries);
        var r := AvailableRows(entries)[k];
        assert r in AvailableRows(entries);
        var e :| e in entries && Heads(e, r);
      }
    }
  }

  lemma GreedyWithinOffer(t: Target, offers: seq<Offer>, claimed: real, row: Id, most: real)
    requires OffersAscend(offers) && most >= 0.0
    requires forall k :: 0 <= k < |offers| && offers[k].row == row ==> offers[k].free <= most
    ensures Sum(Greedy(t, offers, claimed), DrawOnRow(t, row)) <= most
  {
    if j :| 0 <= j < |offers| && offers[j].row == row {
      GreedyClosedForm(t, offers, claimed, j);
    } else {
      GreedyMisses(t, offers, claimed, row);
    }
  }

  lemma GreedyWithinRow(bills: seq<Bill>, entries: seq<Entry>, t: Target, claimed: real, e: Entry)
    requires EntriesOk(entries) && e in entries && e.corrects.None? && WithinNet(bills, entries, t, e)
    ensures Sum(Greedy(t, OffersOf(bills, t, AvailableRows(entries)), claimed), DrawOnRow(t, e.id)) <=
            NetOf(entries, e.id) - Consumed(bills, t, e.id)
  {
    var rows := AvailableRows(entries);
    RowsAreOriginals(entries, entries);
    forall k | 0 <= k < |rows|
      ensures rows[k].available == NetOf(entries, rows[k].id)
    {
      assert rows[k] in rows;
    }
    GreedyWithinOffer(t, OffersOf(bills, t, rows), claimed, e.id, NetOf(entries, e.id) - Consumed(bills, t, e.id));
  }

  /** A draw never takes more of a row than live certificates have left of it. */
  lemma DrawWithinRow(s: State, i: nat, t: Target, e: Entry)
    requires Inv(s) && i < |s.bills| && DrawsFor(s, i).Covered?
    requires t in s.orders && e in s.orders[t].entries && e.corrects.None?
    ensures Sum(DrawsFor(s, i).draws, DrawOnRow(t, e.id)) <=
            NetOf(s.orders[t].entries, e.id) - Consumed(s.bills, t, e.id)
  {
    var lines := Current(s.bills[i]).lines;
    assert LineOk(s.bills, s.orders[t], t);
    RowsWithinNet(s, t);
    TargetsOfClaim(lines);
    DrawsOnRow(OffersOn(s.bills, s.orders), lines, TargetsOf(lines), t, e.id);
    GreedyWithinRow(s.bills, s.orders[t].entries, t, LineQty(lines, t), e);
  }

  lemma DrawsTheClaim(s: State, i: nat, t: Target)
    requires i < |s.bills| && |s.bills[i].versions| > 0 && LinesPositive(Current(s.bills[i]).lines)
    requires DrawsFor(s, i).Covered?
    ensures Sum(DrawsFor(s, i).draws, DrawOn(t)) == LineQty(Current(s.bills[i]).lines, t)
  {
    var lines := Current(s.bills[i]).lines;
    TargetsOfClaim(lines);
    DrawsExact(OffersOn(s.bills, s.orders), lines, TargetsOf(lines), t);
    if !Touches(lines, t) {
      UntouchedQty(lines, t);
    }
  }

  lemma CertifiedStanding(b: Bill, draws: seq<Draw>)
    requires VersionsOk(b) && CertificatesOk(b) && !PastCertification(b.status)
    ensures VersionsOk(CertifiedBill(b, draws)) && CertificatesOk(CertifiedBill(b, draws))
    ensures CertifiedBill(b, draws).versions == b.versions && HasLiveCertificate(CertifiedBill(b, draws))
    ensures LiveDraws(CertifiedBill(b, draws).certificates) == draws
  {
    OneLiveCertificate(CertifiedBill(b, draws).certificates);
  }

  lemma CertifiedMoney(b: Bill, draws: seq<Draw>)
    requires VersionsOk(b) && MoneyOk(b) && !PastCertification(b.status) && Carried(b) <= ClaimedAmount(b)
    ensures VersionsOk(CertifiedBill(b, draws)) && MoneyOk(CertifiedBill(b, draws))
  {
    var c := CertifiedBill(b, draws);
    SumNonneg(Current(b).lines, AmountOf());
    assert c.versions == b.versions && Current(c) == Current(b) && c.paid == b.paid == 0.0;
    assert Last(c) == Certificate(Current(b).number, ClaimedAmount(b), false, draws, Carried(b), 0.0);
  }

  /** A bill certified on draws that cover its claim exactly. */
  lemma CertifiedIsOk(b: Bill, orders: map<Target, Order>, draws: seq<Draw>)
    requires BillOk(b, orders) && !PastCertification(b.status) && Carried(b) <= ClaimedAmount(b)
    requires DrawsNameRows(draws, orders)
    requires forall t :: Sum(draws, DrawOn(t)) == LineQty(Current(b).lines, t)
    ensures BillOk(CertifiedBill(b, draws), orders)
    ensures LiveDraws(CertifiedBill(b, draws).certificates) == draws
  {
    var c := CertifiedBill(b, draws);
    CertifiedStanding(b, draws);
    CertifiedMoney(b, draws);
    assert Current(c) == Current(b);
    forall t
      ensures FrozenOn(t)(c) == LineQty(Current(c).lines, t)
    {
      assert FrozenOn(t)(c) == Sum(draws, DrawOn(t));
    }
  }

  lemma CertifiedBillOk(s: State, i: nat, otherExceptions: bool)
    requires Inv(s) && i < |s.bills| && Certify(s, i, otherExceptions).Done?
    ensures BillOk(CertifiedBill(s.bills[i], DrawsFor(s, i).draws), s.orders)
    ensures LiveDraws(CertifiedBill(s.bills[i], DrawsFor(s, i).draws).certificates) == DrawsFor(s, i).draws
  {
    var lines := Current(s.bills[i]).lines;
    forall t
      ensures Sum(DrawsFor(s, i).draws, DrawOn(t)) == LineQty(lines, t)
    {
      DrawsTheClaim(s, i, t);
    }
    forall t | t in s.orders
      ensures EntriesOk(s.orders[t].entries)
    {
      assert LineOk(s.bills, s.orders[t], t);
    }
    DrawAllNamesRows(s.bills, s.orders, lines, TargetsOf(lines));
    CertifiedIsOk(s.bills[i], s.orders, DrawsFor(s, i).draws);
  }

  lemma CertifyKeepsRow(s: State, i: nat, otherExceptions: bool, t: Target, e: Entry)
    requires Inv(s) && i < |s.bills| && Certify(s, i, otherExceptions).Done?
    requires t in s.orders && e in s.orders[t].entries && e.corrects.None?
    ensures Consumed(Certify(s, i, otherExceptions).state.bills, t, e.id) <= NetOf(s.orders[t].entries, e.id)
  {
    var b, draws := s.bills[i], DrawsFor(s, i).draws;
    var c := CertifiedBill(b, draws);
    CertifiedBillOk(s, i, otherExceptions);
    NoLiveDraws(b.certificates);
    SumUpdate(s.bills, i, c, FrozenOnRow(t, e.id));
    assert FrozenOnRow(t, e.id)(c) == Sum(draws, DrawOnRow(t, e.id));
    DrawWithinRow(s, i, t, e);
  }

  lemma CertifyKeepsBilled(s: State, i: nat, otherExceptions: bool, t: Target)
    requires Inv(s) && i < |s.bills| && Certify(s, i, otherExceptions).Done?
    ensures Billed(Certify(s, i, otherExceptions).state.bills, t) == Billed(s.bills, t)
  {
    var c := CertifiedBill(s.bills[i], DrawsFor(s, i).draws);
    BillsLine(s.bills[i], t);
    BillsLine(c, t);
    SumUpdate(s.bills, i, c, BillOn(t));
  }

  lemma CertifyKeepsLine(s: State, i: nat, otherExceptions: bool, t: Target)
    requires Inv(s) && i < |s.bills| && Certify(s, i, otherExceptions).Done? && t in s.orders
    ensures LineOk(Certify(s, i, otherExceptions).state.bills, s.orders[t], t)
  {
    var bills, entries := Certify(s, i, otherExceptions).state.bills, s.orders[t].entries;
    assert LineOk(s.bills, s.orders[t], t);
    CertifyKeepsBilled(s, i, otherExceptions, t);
    forall k | 0 <= k < |entries| && entries[k].corrects.None?
      ensures Consumed(bills, t, entries[k].id) <= NetOf(entries, entries[k].id)
    {
      CertifyKeepsRow(s, i, otherExceptions, t, entries[k]);
    }
  }

  lemma KeepsCertify(s: State, i: nat, otherExceptions: bool)
    requires Inv(s) && i < |s.bills| && Certify(s, i, otherExceptions).Done?
    ensures Inv(Certify(s, i, otherExceptions).state)
  {
    CertifiedBillOk(s, i, otherExceptions);
    forall t | t in s.orders
      ensures LineOk(Certify(s, i, otherExceptions).state.bills, s.orders[t], t)
    {
      CertifyKeepsLine(s, i, otherExceptions, t);
    }
  }

  lemma WithLastKeepsHistory(b: Bill, c: Certificate)
    requires |b.certificates| > 0
    ensures |WithLast(b, c).certificates| == |b.certificates| && Last(WithLast(b, c)) == c
    ensures forall i :: 0 <= i < |b.certificates| - 1 ==> WithLast(b, c).certificates[i] == b.certificates[i]
  {
  }

  /** Superseding frees exactly what that certificate drew: afterwards the bill freezes nothing. */
  lemma KeepsSupersede(s: State, i: nat)
    requires Inv(s) && i < |s.bills| && Supersede(s, i).Done?
    ensures Inv(Supersede(s, i).state)
    ensures forall t, row :: Consumed(Supersede(s, i).state.bills, t, row) ==
                             Consumed(s.bills, t, row) - Sum(Last(s.bills[i]).draws, DrawOnRow(t, row))
  {
    var b := s.bills[i];
    var c := WithLast(b, Last(b).(superseded := true)).(status := Verified);
    WithLastKeepsHistory(b, Last(b).(superseded := true));
    NoLiveDraws(c.certificates);
    OneLiveCertificate(b.certificates);
    FreezesNonnegAll(b, s.orders);
    forall t
      ensures BillOn(t)(c) <= BillOn(t)(b)
    {
      BillsLine(b, t);
      BillsLine(c, t);
    }
    InvAfterBill(s, i, c);
    forall t, row
      ensures Consumed(s.bills[i := c], t, row) == Consumed(s.bills, t, row) - Sum(Last(b).draws, DrawOnRow(t, row))
    {
      SumUpdate(s.bills, i, c, FrozenOnRow(t, row));
    }
  }

  lemma MovedOk(b: Bill, orders: map<Target, Order>, withheld: real, approved: real, paid: real)
    requires BillOk(b, orders) && HasLiveCertificate(b)
    requires 0.0 <= withheld && 0.0 <= paid <= approved <= Last(b).amount - withheld
    ensures BillOk(Moved(b, withheld, approved, paid), orders)
    ensures Moved(b, withheld, approved, paid).versions == b.versions
    ensures LiveDraws(Moved(b, withheld, approved, paid).certificates) == LiveDraws(b.certificates)
  {
    var c := Last(b).(withheld := withheld, approved := approved);
    var r := Moved(b, withheld, approved, paid);
    WithLastKeepsHistory(b, c);
    OneLiveCertificate(b.certificates);
    OneLiveCertificate(r.certificates);
    forall t
      ensures FrozenOn(t)(r) == FrozenOn(t)(b)
    {
    }
  }

  /** Money moves within their bounds on a live certificate leave claims and draws alone. */
  lemma InvAfterMoney(s: State, i: nat, withheld: real, approved: real, paid: real, next: State)
    requires Inv(s) && i < |s.bills| && HasLiveCertificate(s.bills[i])
    requires 0.0 <= withheld && 0.0 <= paid <= approved <= Last(s.bills[i]).amount - withheld
    requires next == s.(bills := s.bills[i := Moved(s.bills[i], withheld, approved, paid)])
    ensures Inv(next)
  {
    var b := s.bills[i];
    var r := Moved(b, withheld, approved, paid);
    assert BillOk(b, s.orders);
    MovedOk(b, s.orders, withheld, approved, paid);
    forall t
      ensures BillOn(t)(r) <= BillOn(t)(b)
    {
      BillsLine(r, t);
      BillsLine(b, t);
    }
    InvAfterBill(s, i, r);
  }
}
