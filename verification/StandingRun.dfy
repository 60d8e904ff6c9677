/** The run of commands that leads to the refused withdrawal: a line of 100 measured in two rows, one
    claim of 60 submitted, a newer one of 40 certified. */
module StandingRun {
  import opened Sums
  import opened Claims
  import opened EvidenceRows
  import opened Draws
  import opened Disposition
  import opened Commands
  import opened Safety
  import opened Runs
  import opened Verdicts

  function Opened(received: real, entries: seq<Entry>): Order {
    Order(true, false, 100.0, 0.0, 1.0, 0.0, 0.0, received, entries)
  }

  function Newest(status: Status): Bill { Bill(status, [Version(1, 2, false, [ClaimLine(LINE, 40.0, 40.0)])], [], 0.0) }

  function WithNewest(status: Status): State { State([OLDER, Newest(status)], STANDING.orders) }

  /** One command more. */
  lemma Extends(run: seq<Command>, c: Command, s: State, next: State)
    requires Reached(run) == s && Wellformed(s) && Apply(s, c) == Done(next)
    ensures Reached(run + [c]) == next
  {
    assert (run + [c])[..|run|] == run;
  }

  const ORDERS := [DoOpenOrder(LINE, Opened(0.0, [])), DoReceiptProgress(LINE, 100.0)]

  const MEASURES := [DoAddEvidence(LINE, MEASURED[0]), DoAddEvidence(LINE, MEASURED[1])]

  const CLAIMS_OLDER := [DoRecord([ClaimLine(LINE, 60.0, 60.0)], 1), DoSubmit(0)]

  const CLAIMS_NEWER := [DoRecord([ClaimLine(LINE, 40.0, 40.0)], 2), DoSubmit(1)]

  const CERTIFIES := [DoBeginVerification(1), DoVerify(1, false), DoCertify(1, false)]

  const RUN := ORDERS + MEASURES + CLAIMS_OLDER + CLAIMS_NEWER + CERTIFIES

  lemma Two(run: seq<Command>, c: Command, d: Command, s: State, mid: State, next: State)
    requires Reached(run) == s && Wellformed(s) && Apply(s, c) == Done(mid) && Wellformed(mid) &&
             Apply(mid, d) == Done(next)
    ensures Reached(run + [c, d]) == next
  {
    Extends(run, c, s, mid);
    Extends(run + [c], d, mid, next);
    assert run + [c] + [d] == run + [c, d];
  }

  function OnlyOrder(received: real, entries: seq<Entry>): State { State([], map[LINE := Opened(received, entries)]) }

  lemma LineOrdered()
    ensures Reached(ORDERS) == OnlyOrder(100.0, [])
  {
    assert map[LINE := Opened(0.0, [])][LINE := Opened(100.0, [])] == map[LINE := Opened(100.0, [])];
    Two([], ORDERS[0], ORDERS[1], EMPTY, OnlyOrder(0.0, []), OnlyOrder(100.0, []));
    assert [] + [ORDERS[0], ORDERS[1]] == ORDERS;
  }

  lemma Measures(entries: seq<Entry>, e: Entry)
    requires e.corrects.None? && e.quantity > 0.0 && forall i :: 0 <= i < |entries| ==> entries[i].id < e.id
    ensures Apply(OnlyOrder(100.0, entries), DoAddEvidence(LINE, e)) == Done(OnlyOrder(100.0, entries + [e]))
  {
    assert Filed(entries, e) == entries + [e];
  }

  lemma LineMeasured()
    ensures Reached(ORDERS + MEASURES) == State([], STANDING.orders)
  {
    LineOrdered();
    Measures([], MEASURED[0]);
    Measures([MEASURED[0]], MEASURED[1]);
    assert [] + [MEASURED[0]] == [MEASURED[0]] && [MEASURED[0]] + [MEASURED[1]] == MEASURED;
    Two(ORDERS, MEASURES[0], MEASURES[1], OnlyOrder(100.0, []), OnlyOrder(100.0, [MEASURED[0]]),
        OnlyOrder(100.0, MEASURED));
    assert [MEASURES[0], MEASURES[1]] == MEASURES;
  }

  lemma OneLineWithin(bills: seq<Bill>, quantity: real)
    requires Billed(bills, LINE) <= 100.0
    ensures AllWithin(bills, STANDING.orders, [ClaimLine(LINE, quantity, quantity)], false)
  {
    StandingEntries();
    var lines := [ClaimLine(LINE, quantity, quantity)];
    assert lines[..0] == [];
    assert TargetsOf(lines) == [LINE];
  }

  function Older(status: Status): State { State([OLDER.(status := status)], STANDING.orders) }

  lemma RecordsOlder()
    ensures Apply(State([], STANDING.orders), DoRecord([ClaimLine(LINE, 60.0, 60.0)], 1)) == Done(Older(Draft))
  {
  }

  lemma SubmitsOlder()
    ensures Wellformed(Older(Draft)) && Wellformed(Older(Submitted)) &&
            Apply(Older(Draft), DoSubmit(0)) == Done(Older(Submitted))
  {
    OlderBills(LINE);
    SumOne(OLDER, BillOn(LINE));
    assert WithStatus(Older(Draft).bills, 0, Submitted) == [OLDER];
    OneLineWithin([OLDER], 60.0);
  }

  lemma OlderSubmitted()
    ensures Reached(ORDERS + MEASURES + CLAIMS_OLDER) == Older(Submitted)
  {
    LineMeasured();
    RecordsOlder();
    SubmitsOlder();
    Two(ORDERS + MEASURES, CLAIMS_OLDER[0], CLAIMS_OLDER[1], State([], STANDING.orders), Older(Draft),
        Older(Submitted));
    assert [CLAIMS_OLDER[0], CLAIMS_OLDER[1]] == CLAIMS_OLDER;
  }

  lemma NewestWithin(status: Status)
    requires IsLive(status)
    ensures VersionsOk(Newest(status)) &&
            AllWithin([OLDER, Newest(status)], STANDING.orders, [ClaimLine(LINE, 40.0, 40.0)], false)
  {
    OlderBills(LINE);
    BillsLine(Newest(status), LINE);
    SumOne(ClaimLine(LINE, 40.0, 40.0), QtyOf(LINE));
    FoldsOfTwo(OLDER, Newest(status), BillOn(LINE));
    OneLineWithin([OLDER, Newest(status)], 40.0);
  }

  lemma RecordsNewest()
    ensures Apply(Older(Submitted), DoRecord([ClaimLine(LINE, 40.0, 40.0)], 2)) == Done(WithNewest(Draft))
  {
    assert Older(Submitted).bills + [Newest(Draft)] == WithNewest(Draft).bills;
  }

  lemma SubmitsNewest()
    ensures Wellformed(WithNewest(Draft)) && Wellformed(WithNewest(Submitted)) &&
            Apply(WithNewest(Draft), DoSubmit(1)) == Done(WithNewest(Submitted))
  {
    OlderBills(LINE);
    NewestWithin(Submitted);
    assert WithStatus(WithNewest(Draft).bills, 1, Submitted) == WithNewest(Submitted).bills;
  }

  lemma NewestSubmitted()
    ensures Reached(ORDERS + MEASURES + CLAIMS_OLDER + CLAIMS_NEWER) == WithNewest(Submitted)
  {
    OlderSubmitted();
    SubmitsOlder();
    RecordsNewest();
    SubmitsNewest();
    var run := ORDERS + MEASURES + CLAIMS_OLDER;
    Two(run, CLAIMS_NEWER[0], CLAIMS_NEWER[1], Older(Submitted), WithNewest(Draft), WithNewest(Submitted));
    assert [CLAIMS_NEWER[0], CLAIMS_NEWER[1]] == CLAIMS_NEWER;
  }

  lemma Verifies()
    ensures Wellformed(WithNewest(Submitted)) &&
            Apply(WithNewest(Submitted), DoBeginVerification(1)) == Done(WithNewest(UnderVerification))
    ensures Wellformed(WithNewest(UnderVerification)) &&
            Apply(WithNewest(UnderVerification), DoVerify(1, false)) == Done(WithNewest(Verified))
    ensures Wellformed(WithNewest(Verified))
  {
    OlderBills(LINE);
    NewestWithin(UnderVerification);
    assert WithStatus(WithNewest(Submitted).bills, 1, UnderVerification) == WithNewest(UnderVerification).bills;
    assert WithStatus(WithNewest(UnderVerification).bills, 1, Verified) == WithNewest(Verified).bills;
  }

  /** Nothing is consumed yet, so the first row covers the 40. */
  lemma DrawsFirstRow()
    ensures DrawsFor(WithNewest(Verified), 1) == Covered([Draw(LINE, 1, 40.0)])
  {
    StandingEntries();
    assert MEASURED[..1] == [MEASURED[0]] && MEASURED[..0] == [];
    assert RowsOf(MEASURED, MEASURED[..1]) == [Row(1, 0, 60.0)];
    assert AvailableRows(MEASURED) == [Row(1, 0, 60.0), Row(2, 0, 40.0)];
    var bills := WithNewest(Verified).bills;
    FoldsOfTwo(OLDER, Newest(Verified), FrozenOnRow(LINE, 1));
    FoldsOfTwo(OLDER, Newest(Verified), FrozenOnRow(LINE, 2));
    var offers := OffersOf(bills, LINE, AvailableRows(MEASURED));
    assert offers == [Offer(1, 60.0), Offer(2, 40.0)];
    var lines := [ClaimLine(LINE, 40.0, 40.0)];
    SumOne(lines[0], QtyOf(LINE));
    assert lines[..0] == [];
    assert TargetsOf(lines) == [LINE] && TargetsOf(lines)[1..] == [];
    assert Greedy(LINE, offers, 40.0) == [Draw(LINE, 1, 40.0)];
    assert Shortfall(offers, 40.0) == 0.0;
    assert DrawAll(OffersOn(bills, STANDING.orders), lines, []) == Covered([]);
  }

  lemma Certifies()
    ensures Apply(WithNewest(Verified), DoCertify(1, false)) == Done(STANDING)
  {
    DrawsFirstRow();
    NewestWithin(Verified);
    SumOne(ClaimLine(LINE, 40.0, 40.0), AmountOf());
    var draws := [Draw(LINE, 1, 40.0)];
    assert CertifiedBill(Newest(Verified), draws) == NEWER;
    assert WithNewest(Verified).bills[1 := NEWER] == STANDING.bills;
  }

  /** THE REFUSAL IS REACHED. This run of commands ends in the state where newest first refuses a
      correction that one uncertified claim would settle. */
  lemma StandingIsReached()
    ensures Reached(RUN) == STANDING && Wellformed(STANDING)
    ensures Correct(STANDING, LINE, TAKEN_BACK).Refused?
  {
    NewestSubmitted();
    Verifies();
    Certifies();
    var run := ORDERS + MEASURES + CLAIMS_OLDER + CLAIMS_NEWER;
    Two(run, CERTIFIES[0], CERTIFIES[1], WithNewest(Submitted), WithNewest(UnderVerification), WithNewest(Verified));
    Extends(run + [CERTIFIES[0], CERTIFIES[1]], CERTIFIES[2], WithNewest(Verified), STANDING);
    assert run + [CERTIFIES[0], CERTIFIES[1]] + [CERTIFIES[2]] == RUN;
    RefusedInASafeState();
  }
}
