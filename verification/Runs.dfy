/** Every command keeps the invariant, so every run from an empty project does. */
module Runs {
  import opened Sums
  import opened Claims
  import opened EvidenceRows
  import opened Draws
  import opened Disposition
  import opened Commands
  import opened Safety

  // ── the remaining claim and money commands ───────────────────────────────────────────────────

  lemma KeepsStatusMoves(s: State, i: nat)
    requires Inv(s) && i < |s.bills|
    ensures BeginVerification(s, i).Done? ==> Inv(BeginVerification(s, i).state)
    ensures Reject(s, i).Done? ==> Inv(Reject(s, i).state)
  {
    if BeginVerification(s, i).Done? {
      InvAfterStatus(s, i, UnderVerification);
    }
    if Reject(s, i).Done? {
      InvAfterStatus(s, i, Rejected);
    }
  }

  lemma MoneyBounds(s: State, i: nat)
    requires Inv(s) && i < |s.bills| && HasLiveCertificate(s.bills[i])
    ensures Last(s.bills[i]).withheld >= 0.0
    ensures 0.0 <= s.bills[i].paid <= Last(s.bills[i]).approved <= Last(s.bills[i]).amount - Last(s.bills[i]).withheld
  {
    assert BillOk(s.bills[i], s.orders);
  }

  lemma KeepsWithhold(s: State, i: nat, amount: real)
    requires Inv(s) && i < |s.bills| && Withhold(s, i, amount).Done?
    ensures Inv(Withhold(s, i, amount).state)
  {
    var b := s.bills[i];
    MoneyBounds(s, i);
    InvAfterMoney(s, i, Last(b).withheld + amount, Last(b).approved, b.paid, Withhold(s, i, amount).state);
  }

  lemma {:induction false} HistoryDrawsNothing(certificates: seq<Certificate>, k: nat, c: Certificate)
    requires k < |certificates| && certificates[k].superseded && c.superseded
    ensures LiveDraws(certificates[k := c]) == LiveDraws(certificates)
  {
    var n := |certificates| - 1;
    if k < n {
      HistoryDrawsNothing(certificates[..n], k, c);
      assert certificates[k := c][..n] == certificates[..n][k := c];
    } else {
      assert certificates[k := c][..n] == certificates[..n];
    }
  }

  lemma HistoryOk(b: Bill, orders: map<Target, Order>, k: nat, c: Certificate)
    requires BillOk(b, orders) && k < |b.certificates| && (k == |b.certificates| - 1 ==> !HasLiveCertificate(b))
    requires c == b.certificates[k].(withheld := c.withheld) && c.withheld >= 0.0
    ensures BillOk(WithCertificate(b, k, c), orders)
    ensures LiveDraws(WithCertificate(b, k, c).certificates) == LiveDraws(b.certificates)
  {
    assert b.certificates[k].superseded;
    HistoryDrawsNothing(b.certificates, k, c);
    assert forall t :: FrozenOn(t)(WithCertificate(b, k, c)) == FrozenOn(t)(b);
  }

  /** A release on a superseded certificate moves no claim and no draw. */
  lemma InvAfterHistory(s: State, i: nat, k: nat, c: Certificate, next: State)
    requires Inv(s) && i < |s.bills| && k < |s.bills[i].certificates|
    requires k == |s.bills[i].certificates| - 1 ==> !HasLiveCertificate(s.bills[i])
    requires c == s.bills[i].certificates[k].(withheld := c.withheld) && c.withheld >= 0.0
    requires next == s.(bills := s.bills[i := WithCertificate(s.bills[i], k, c)])
    ensures Inv(next)
  {
    assert BillOk(s.bills[i], s.orders);
    HistoryOk(s.bills[i], s.orders, k, c);
    InvAfterBill(s, i, WithCertificate(s.bills[i], k, c));
  }

  /** A release keeps every invariant, whichever of the bill's certificates it is taken on. */
  lemma KeepsRelease(s: State, i: nat, k: nat, amount: real)
    requires Inv(s) && i < |s.bills| && Release(s, i, k, amount).Done?
    ensures Inv(Release(s, i, k, amount).state)
  {
    var b := s.bills[i];
    var left := b.certificates[k].withheld - amount;
    if HasLiveCertificate(b) && k == |b.certificates| - 1 {
      MoneyBounds(s, i);
      InvAfterMoney(s, i, left, Last(b).approved, b.paid, Release(s, i, k, amount).state);
    } else {
      InvAfterHistory(s, i, k, b.certificates[k].(withheld := left), Release(s, i, k, amount).state);
    }
  }

  lemma KeepsApprove(s: State, i: nat, amount: real)
    requires Inv(s) && i < |s.bills| && Approve(s, i, amount).Done?
    ensures Inv(Approve(s, i, amount).state)
  {
    var b := s.bills[i];
    MoneyBounds(s, i);
    InvAfterMoney(s, i, Last(b).withheld, Last(b).approved + amount, b.paid, Approve(s, i, amount).state);
  }

  lemma KeepsPay(s: State, i: nat, amount: real)
    requires Inv(s) && i < |s.bills| && Pay(s, i, amount).Done?
    ensures Inv(Pay(s, i, amount).state)
  {
    var b := s.bills[i];
    MoneyBounds(s, i);
    InvAfterMoney(s, i, Last(b).withheld, Last(b).approved, b.paid + amount, Pay(s, i, amount).state);
  }

  lemma KeepsReversePayment(s: State, i: nat, amount: real)
    requires Inv(s) && i < |s.bills| && ReversePayment(s, i, amount).Done?
    ensures Inv(ReversePayment(s, i, amount).state)
  {
    var b := s.bills[i];
    MoneyBounds(s, i);
    InvAfterMoney(s, i, Last(b).withheld, Last(b).approved, b.paid - amount, ReversePayment(s, i, amount).state);
  }

  // ── orders ───────────────────────────────────────────────────────────────────────────────────

  /** Nothing one line's rows offered is lost when its order is replaced. */
  predicate KeepsOriginals(was: seq<Entry>, now: seq<Entry>) {
    forall k :: 0 <= k < |was| && was[k].corrects.None? ==> HasOriginal(now, was[k].id)
  }

  /** An order gained or changed: a line in its own bounds, losing no original, keeps everything. */
  lemma InvAfterLine(s: State, t: Target, o: Order)
    requires Inv(s) && LineOk(s.bills, o, t)
    requires t in s.orders ==> KeepsOriginals(s.orders[t].entries, o.entries)
    ensures Inv(s.(orders := s.orders[t := o]))
  {
    var orders := s.orders[t := o];
    forall i | 0 <= i < |s.bills|
      ensures BillOk(s.bills[i], orders)
    {
      assert BillOk(s.bills[i], s.orders);
      var draws := LiveDraws(s.bills[i].certificates);
      forall k | 0 <= k < |draws|
        ensures HasOriginal(orders[draws[k].target].entries, draws[k].row)
      {
        assert HasOriginal(s.orders[draws[k].target].entries, draws[k].row);
      }
    }
    forall u | u in orders
      ensures LineOk(s.bills, orders[u], u)
    {
      assert u != t ==> LineOk(s.bills, s.orders[u], u);
    }
  }

  lemma OriginalsKept(entries: seq<Entry>)
    ensures KeepsOriginals(entries, entries)
  {
  }

  lemma BillsNothing(s: State, t: Target)
    requires Inv(s) && t !in s.orders
    ensures Billed(s.bills, t) == 0.0
  {
    forall i | 0 <= i < |s.bills|
      ensures BillOn(t)(s.bills[i]) == 0.0
    {
      assert BillOk(s.bills[i], s.orders);
      BillsLine(s.bills[i], t);
      UntouchedQty(Current(s.bills[i]).lines, t);
    }
    SumZero(s.bills, BillOn(t));
  }

  /** Terms that keep the entries and lower no authority keep everything. */
  lemma InvAfterTerms(s: State, t: Target, o: Order, next: State)
    requires Inv(s) && t in s.orders && next == s.(orders := s.orders[t := o])
    requires TermsOk(o) && o.entries == s.orders[t].entries && o.live == s.orders[t].live &&
             Ordered(o) >= Ordered(s.orders[t])
    ensures Inv(next)
  {
    assert LineOk(s.bills, s.orders[t], t);
    OriginalsKept(o.entries);
    InvAfterLine(s, t, o);
  }

  lemma OrderTerms(s: State, t: Target)
    requires Inv(s) && t in s.orders
    ensures TermsOk(s.orders[t])
  {
    assert LineOk(s.bills, s.orders[t], t);
  }

  lemma KeepsOverage(s: State, t: Target, more: real)
    requires Inv(s) && ApproveOverage(s, t, more).Done?
    ensures Inv(ApproveOverage(s, t, more).state)
  {
    var o := s.orders[t];
    var roomier := o.(overage := o.overage + more);
    OrderTerms(s, t);
    assert TermsOk(roomier) && Ordered(roomier) == Ordered(o) + more;
    InvAfterTerms(s, t, roomier, ApproveOverage(s, t, more).state);
  }

  lemma KeepsReceiptProgress(s: State, t: Target, received: real)
    requires Inv(s) && ReceiptProgress(s, t, received).Done?
    ensures Inv(ReceiptProgress(s, t, received).state)
  {
    OrderTerms(s, t);
    InvAfterTerms(s, t, s.orders[t].(received := received), ReceiptProgress(s, t, received).state);
  }

  lemma KeepsCloseShort(s: State, t: Target)
    requires Inv(s) && CloseShort(s, t).Done?
    ensures Inv(CloseShort(s, t).state)
  {
    OrderTerms(s, t);
    InvAfterTerms(s, t, s.orders[t].(closedShort := true), CloseShort(s, t).state);
  }

  lemma KeepsOpenOrder(s: State, t: Target, o: Order)
    requires Inv(s) && OpenOrder(s, t, o).Done?
    ensures Inv(OpenOrder(s, t, o).state)
  {
    BillsNothing(s, t);
    InvAfterLine(s, t, o);
  }

  // ── withdrawals ──────────────────────────────────────────────────────────────────────────────

  lemma DisposedBill(s: State, t: Target, evidence: real, i: nat)
    requires Wellformed(s) && evidence >= 0.0 && Disposed(s.bills, t, evidence).Some?
    requires i < |s.bills| && BillOk(s.bills[i], s.orders)
    ensures |Disposed(s.bills, t, evidence).value| == |s.bills|
    ensures BillOk(Disposed(s.bills, t, evidence).value[i], s.orders)
    ensures Disposed(s.bills, t, evidence).value[i].certificates == s.bills[i].certificates
  {
    DispositionExact(s.bills, t, evidence, t);
    if Listed(Taken(s.bills, t, evidence), i) {
      TakenWereLive(s.bills, t, evidence, i);
      DisputedIsOk(s.bills[i], s.orders);
    }
  }

  lemma DisposedConsumes(s: State, t: Target, evidence: real, u: Target, row: Id)
    requires Inv(s) && Wellformed(s) && evidence >= 0.0 && Disposed(s.bills, t, evidence).Some?
    ensures Consumed(Disposed(s.bills, t, evidence).value, u, row) == Consumed(s.bills, u, row)
  {
    var next := Disposed(s.bills, t, evidence).value;
    DispositionExact(s.bills, t, evidence, t);
    forall i | 0 <= i < |s.bills|
      ensures FrozenOnRow(u, row)(next[i]) == FrozenOnRow(u, row)(s.bills[i])
    {
      DisposedBill(s, t, evidence, i);
    }
    SumPointwise(next, s.bills, FrozenOnRow(u, row));
  }

  /** A disposition that goes through disputes only claims without a live certificate, so it frees
      no row and changes no certificate. */
  lemma DisposedKeeps(s: State, t: Target, evidence: real)
    requires Inv(s) && Wellformed(s) && evidence >= 0.0 && Disposed(s.bills, t, evidence).Some?
    ensures Inv(s.(bills := Disposed(s.bills, t, evidence).value))
    ensures Billed(Disposed(s.bills, t, evidence).value, t) <= evidence
    ensures forall row :: Consumed(Disposed(s.bills, t, evidence).value, t, row) == Consumed(s.bills, t, row)
  {
    var next := Disposed(s.bills, t, evidence).value;
    DispositionExact(s.bills, t, evidence, t);
    forall i | 0 <= i < |next|
      ensures BillOk(next[i], s.orders)
    {
      DisposedBill(s, t, evidence, i);
    }
    forall u, row
      ensures Consumed(next, u, row) == Consumed(s.bills, u, row)
    {
      DisposedConsumes(s, t, evidence, u, row);
    }
    forall u | u in s.orders
      ensures LineOk(next, s.orders[u], u)
    {
      assert LineOk(s.bills, s.orders[u], u);
      DispositionExact(s.bills, t, evidence, u);
    }
  }

  lemma KeepsKillOrder(s: State, t: Target)
    requires Inv(s) && Wellformed(s) && KillOrder(s, t).Done?
    ensures Inv(KillOrder(s, t).state)
  {
    var o := s.orders[t];
    DisposedKeeps(s, t, 0.0);
    var mid := s.(bills := Disposed(s.bills, t, 0.0).value);
    assert LineOk(mid.bills, o, t);
    OriginalsKept(o.entries);
    InvAfterLine(mid, t, o.(live := false));
  }

  // ── evidence ─────────────────────────────────────────────────────────────────────────────────

  lemma {:induction false} FilingPlaceSplits(entries: seq<Entry>, id: Id)
    requires Ascending(entries) && Fresh(entries, id)
    ensures forall i :: 0 <= i < |entries| ==> (entries[i].id < id <==> i < FilingPlace(entries, id))
  {
    if |entries| > 0 && entries[|entries| - 1].id > id {
      var rest := entries[..|entries| - 1];
      FilingPlaceSplits(rest, id);
      assert forall i :: 0 <= i < |rest| ==> entries[i] == rest[i];
    }
  }

  lemma FiledAscends(entries: seq<Entry>, e: Entry)
    requires Ascending(entries) && Fresh(entries, e.id)
    ensures Ascending(Filed(entries, e))
  {
    FilingPlaceSplits(entries, e.id);
  }

  lemma FiledHolds(entries: seq<Entry>, e: Entry)
    ensures e in Filed(entries, e)
    ensures forall x :: x in Filed(entries, e) ==> x == e || x in entries
    ensures forall x :: x in entries ==> x in Filed(entries, e)
  {
    var k := FilingPlace(entries, e.id);
    assert entries == entries[..k] + entries[k..];
    assert Filed(entries, e)[k] == e;
  }

  lemma FiledKeepsOriginals(entries: seq<Entry>, e: Entry)
    ensures forall row :: HasOriginal(entries, row) ==> HasOriginal(Filed(entries, e), row)
    ensures KeepsOriginals(entries, Filed(entries, e))
  {
    FiledHolds(entries, e);
    forall row | HasOriginal(entries, row)
      ensures HasOriginal(Filed(entries, e), row)
    {
      var i :| 0 <= i < |entries| && entries[i].corrects.None? && entries[i].id == row;
      assert entries[i] in Filed(entries, e);
    }
    forall k | 0 <= k < |entries| && entries[k].corrects.None?
      ensures HasOriginal(Filed(entries, e), entries[k].id)
    {
      assert HasOriginal(entries, entries[k].id);
    }
  }

  /** Filing a row adds its quantity to the line's evidence and to the net of the one row it is
      addressed to. */
  lemma FiledFolds(entries: seq<Entry>, e: Entry, row: Id)
    ensures Evidence(Filed(entries, e)) == Evidence(entries) + e.quantity
    ensures NetOf(Filed(entries, e), row) == NetOf(entries, row) + if Key(e) == row then e.quantity else 0.0
  {
    SumInsert(entries, FilingPlace(entries, e.id), e, QuantityOf());
    SumInsert(entries, FilingPlace(entries, e.id), e, ForRow(row));
  }

  /** A row no original heads has no net, and no live certificate rests on it. */
  lemma UnheadedRow(s: State, t: Target, row: Id)
    requires Inv(s) && t in s.orders && !HasOriginal(s.orders[t].entries, row)
    ensures NetOf(s.orders[t].entries, row) == 0.0
    ensures Consumed(s.bills, t, row) == 0.0
  {
    var entries := s.orders[t].entries;
    assert LineOk(s.bills, s.orders[t], t);
    forall k | 0 <= k < |entries|
      ensures ForRow(row)(entries[k]) == 0.0
    {
      if entries[k].corrects.None? {
        assert HasOriginal(entries, entries[k].id);
      }
    }
    SumZero(entries, ForRow(row));
    forall i | 0 <= i < |s.bills|
      ensures FrozenOnRow(t, row)(s.bills[i]) == 0.0
    {
      assert BillOk(s.bills[i], s.orders);
      SumZero(LiveDraws(s.bills[i].certificates), DrawOnRow(t, row));
    }
    SumZero(s.bills, FrozenOnRow(t, row));
  }

  /** A filed row keeps the one-level tree as long as the row it is addressed to keeps its net. */
  lemma FiledOk(entries: seq<Entry>, e: Entry)
    requires EntriesOk(entries) && Fresh(entries, e.id)
    requires e.corrects.None? || HasOriginal(entries, e.corrects.value)
    requires NetOf(Filed(entries, e), Key(e)) >= 0.0
    ensures EntriesOk(Filed(entries, e))
  {
    var now := Filed(entries, e);
    FiledAscends(entries, e);
    FiledHolds(entries, e);
    FiledKeepsOriginals(entries, e);
    forall i | 0 <= i < |now| && now[i].corrects.Some?
      ensures HasOriginal(now, now[i].corrects.value)
    {
      if now[i] != e {
        assert now[i] in entries;
      }
    }
    forall i | 0 <= i < |now| && now[i].corrects.None?
      ensures NetOf(now, now[i].id) >= 0.0
    {
      FiledFolds(entries, e, now[i].id);
      if now[i].id != Key(e) {
        assert now[i] in entries;
      }
    }
  }

  lemma KeepsAddEvidence(s: State, t: Target, e: Entry)
    requires Inv(s) && AddEvidence(s, t, e).Done?
    ensures Inv(AddEvidence(s, t, e).state)
  {
    var o := s.orders[t];
    var now := Filed(o.entries, e);
    assert LineOk(s.bills, o, t);
    UnheadedRow(s, t, e.id);
    FiledFolds(o.entries, e, e.id);
    FiledOk(o.entries, e);
    FiledHolds(o.entries, e);
    FiledKeepsOriginals(o.entries, e);
    forall k | 0 <= k < |now| && now[k].corrects.None?
      ensures Consumed(s.bills, t, now[k].id) <= NetOf(now, now[k].id)
    {
      FiledFolds(o.entries, e, now[k].id);
      if now[k] != e {
        assert now[k] in o.entries;
      }
    }
    InvAfterLine(s, t, o.(entries := now));
  }

  /** A correction whose row keeps what live certificates rest on. */
  lemma InvAfterCorrection(s: State, t: Target, e: Entry)
    requires Inv(s) && t in s.orders && e.corrects.Some? && Fresh(s.orders[t].entries, e.id)
    requires HasOriginal(s.orders[t].entries, e.corrects.value)
    requires NetOf(Filed(s.orders[t].entries, e), e.corrects.value) >= 0.0
    requires NetOf(Filed(s.orders[t].entries, e), e.corrects.value) >= Consumed(s.bills, t, e.corrects.value)
    requires Billed(s.bills, t) <= Evidence(Filed(s.orders[t].entries, e))
    ensures Inv(s.(orders := s.orders[t := s.orders[t].(entries := Filed(s.orders[t].entries, e))]))
  {
    var o := s.orders[t];
    var now := Filed(o.entries, e);
    assert LineOk(s.bills, o, t);
    FiledOk(o.entries, e);
    FiledHolds(o.entries, e);
    FiledKeepsOriginals(o.entries, e);
    forall k | 0 <= k < |now| && now[k].corrects.None?
      ensures Consumed(s.bills, t, now[k].id) <= NetOf(now, now[k].id)
    {
      FiledFolds(o.entries, e, now[k].id);
      assert now[k] in o.entries;
    }
    InvAfterLine(s, t, o.(entries := now));
  }

  lemma KeepsCorrect(s: State, t: Target, e: Entry)
    requires Inv(s) && Wellformed(s) && Correct(s, t, e).Done?
    ensures Inv(Correct(s, t, e).state)
  {
    var o := s.orders[t];
    var row := e.corrects.value;
    FiledFolds(o.entries, e, row);
    assert LineOk(s.bills, o, t);
    if e.quantity > 0.0 {
      var i :| 0 <= i < |o.entries| && o.entries[i].corrects.None? && o.entries[i].id == row;
      assert Consumed(s.bills, t, o.entries[i].id) <= NetOf(o.entries, o.entries[i].id);
      InvAfterCorrection(s, t, e);
    } else {
      var evidence := Evidence(Filed(o.entries, e));
      DisposedKeeps(s, t, evidence);
      InvAfterCorrection(s.(bills := Disposed(s.bills, t, evidence).value), t, e);
    }
  }

  // ── every command, and every run ─────────────────────────────────────────────────────────────

  lemma InvWellformed(s: State)
    requires Inv(s)
    ensures Wellformed(s)
  {
    forall i | 0 <= i < |s.bills|
      ensures VersionsOk(s.bills[i])
    {
      assert BillOk(s.bills[i], s.orders);
    }
  }

  lemma KeepsOnBill(s: State, c: Command)
    requires Inv(s) && Wellformed(s) && OnBill(c) && c.bill < |s.bills| && Apply(s, c).Done?
    ensures Inv(Apply(s, c).state)
  {
    match c
    case DoSubmit(i) => KeepsSubmit(s, i);
    case DoBeginVerification(i) => KeepsStatusMoves(s, i);
    case DoVerify(i, x) => KeepsVerify(s, i, x);
    case DoReject(i) => KeepsStatusMoves(s, i);
    case DoAmend(i, lines, at) => KeepsAmend(s, i, lines, at);
    case DoCertify(i, x) => KeepsCertify(s, i, x);
    case DoSupersede(i) => KeepsSupersede(s, i);
    case DoWithhold(i, a) => KeepsWithhold(s, i, a);
    case DoRelease(i, k, a) => KeepsRelease(s, i, k, a);
    case DoApprove(i, a) => KeepsApprove(s, i, a);
    case DoPay(i, a) => KeepsPay(s, i, a);
    case DoReversePayment(i, a) => KeepsReversePayment(s, i, a);
  }

  lemma KeepsElsewhere(s: State, c: Command)
    requires Inv(s) && Wellformed(s) && !OnBill(c) && Apply(s, c).Done?
    ensures Inv(Apply(s, c).state)
  {
    match c
    case DoRecord(lines, at) => KeepsRecord(s, lines, at);
    case DoOpenOrder(t, o) => KeepsOpenOrder(s, t, o);
    case DoApproveOverage(t, m) => KeepsOverage(s, t, m);
    case DoReceiptProgress(t, r) => KeepsReceiptProgress(s, t, r);
    case DoCloseShort(t) => KeepsCloseShort(s, t);
    case DoKillOrder(t) => KeepsKillOrder(s, t);
    case DoAddEvidence(t, e) => KeepsAddEvidence(s, t, e);
    case DoCorrect(t, e) => KeepsCorrect(s, t, e);
  }

  /** Every command that goes through keeps the invariant. */
  lemma KeepsApply(s: State, c: Command)
    requires Inv(s) && Wellformed(s) && Apply(s, c).Done?
    ensures Inv(Apply(s, c).state)
  {
    if OnBill(c) {
      KeepsOnBill(s, c);
    } else {
      KeepsElsewhere(s, c);
    }
  }

  const EMPTY := State([], map[])

  /** The state a run reaches from an empty project; a refused command changes nothing. */
  ghost function Reached(run: seq<Command>): (s: State)
    ensures Inv(s)
  {
    if |run| == 0 then EMPTY else
    var s, c := Reached(run[..|run| - 1]), run[|run| - 1];
    InvWellformed(s);
    match Apply(s, c)
    case Refused => s
    case Done(next) => KeepsApply(s, c); next
  }

  /** SAFETY OVER EVERY RUN. On every purchase-order line live claims bill no more than its evidence
      and, while the order stands, no more than was ordered; a dead order bears no claim; no evidence
      row is consumed beyond its net; and a live certificate freezes exactly its claim. */
  lemma SafeInEveryRun(run: seq<Command>, t: Target)
    ensures t in Reached(run).orders ==>
              var s := Reached(run); var o := s.orders[t];
              && Billed(s.bills, t) <= Evidence(o.entries)
              && Billed(s.bills, t) <= (if o.live then o.qty + o.overage else 0.0)
              && forall k :: 0 <= k < |o.entries| && o.entries[k].corrects.None? ==>
                   Consumed(s.bills, t, o.entries[k].id) <= NetOf(o.entries, o.entries[k].id)
    ensures t !in Reached(run).orders ==> Billed(Reached(run).bills, t) == 0.0
    ensures forall i :: 0 <= i < |Reached(run).bills| && PastCertification(Reached(run).bills[i].status) ==>
              VersionsOk(Reached(run).bills[i]) &&
              FrozenOn(t)(Reached(run).bills[i]) == LineQty(Current(Reached(run).bills[i]).lines, t)
  {
    var s := Reached(run);
    if t in s.orders {
      assert LineOk(s.bills, s.orders[t], t);
    } else {
      BillsNothing(s, t);
    }
    forall i | 0 <= i < |s.bills| && PastCertification(s.bills[i].status)
      ensures VersionsOk(s.bills[i]) && FrozenOn(t)(s.bills[i]) == LineQty(Current(s.bills[i]).lines, t)
    {
      assert BillOk(s.bills[i], s.orders);
    }
  }

  /** In a state every command keeps to, a live claim is within the bounds of every line it touches. */
  lemma LiveWithin(s: State, i: nat)
    requires Inv(s) && i < |s.bills| && |s.bills[i].versions| > 0 && IsLive(s.bills[i].status)
    ensures Known(Current(s.bills[i]).lines, s.orders)
    ensures AllWithin(s.bills, s.orders, Current(s.bills[i]).lines, false)
  {
    var lines := Current(s.bills[i]).lines;
    assert BillOk(s.bills[i], s.orders);
    TargetsOfClaim(lines);
    forall t | t in TargetsOf(lines)
      ensures t in s.orders && WithinBounds(s.bills, s.orders[t], t, 0.0)
    {
      var k :| 0 <= k < |lines| && lines[k].target == t;
      LiveOnLine(s, i, k);
    }
  }

  lemma LiveOnLine(s: State, i: nat, k: nat)
    requires Inv(s) && i < |s.bills| && |s.bills[i].versions| > 0 && IsLive(s.bills[i].status)
    requires k < |Current(s.bills[i]).lines|
    ensures Current(s.bills[i]).lines[k].target in s.orders
    ensures var t := Current(s.bills[i]).lines[k].target; WithinBounds(s.bills, s.orders[t], t, 0.0)
  {
    var lines := Current(s.bills[i]).lines;
    var t := lines[k].target;
    assert BillOk(s.bills[i], s.orders);
    assert LineOk(s.bills, s.orders[t], t);
    ClaimedPositive(lines, k);
    BillsLine(s.bills[i], t);
    forall j | 0 <= j < |s.bills|
      ensures BillOn(t)(s.bills[j]) >= 0.0
    {
      assert BillOk(s.bills[j], s.orders);
      BillsLine(s.bills[j], t);
    }
    SumTerm(s.bills, i, BillOn(t));
  }

  /** A verified claim, in any run, is certified: its draw never sticks, and only a withholding on its
      last certificate larger than its money stands in the way. */
  lemma VerifiedClaimsCertify(run: seq<Command>, i: nat)
    requires i < |Reached(run).bills| && Reached(run).bills[i].status == Verified
    ensures |Reached(run).bills[i].versions| > 0
    ensures var b := Reached(run).bills[i]; var certificates := b.certificates;
            Certify(Reached(run), i, false).Done? <==>
            (if certificates == [] then 0.0 else certificates[|certificates| - 1].withheld) <=
            Sum(b.versions[|b.versions| - 1].lines, AmountOf())
  {
    var s := Reached(run);
    assert BillOk(s.bills[i], s.orders);
    LiveWithin(s, i);
    CertificationNeverStuck(s, i);
  }
}
