/** What the bound verdicts and the certificate floors mean, and exactly when a withdrawal of
    evidence goes through. */
module Verdicts {
  import opened Sums
  import opened Claims
  import opened EvidenceRows
  import opened Draws
  import opened Disposition
  import opened Commands
  import opened Safety
  import opened Runs

  lemma WithStatusBills(bills: seq<Bill>, i: nat, status: Status, t: Target)
    requires i < |bills| && VersionsOk(bills[i]) && !IsLive(bills[i].status) && IsLive(status)
    ensures Billed(WithStatus(bills, i, status), t) == Billed(bills, t) + LineQty(Current(bills[i]).lines, t)
  {
    BillsLine(bills[i], t);
    BillsLine(bills[i].(status := status), t);
    SumUpdate(bills, i, bills[i].(status := status), BillOn(t));
  }

  /** Counting a claim's lines as live gives the verdict the claim would get if it were live: the
      corrected claim of a disputed bill is judged as though it had already been submitted. */
  lemma CountedAsLive(bills: seq<Bill>, orders: map<Target, Order>, i: nat, status: Status)
    requires i < |bills| && VersionsOk(bills[i]) && !IsLive(bills[i].status) && IsLive(status)
    ensures AllWithin(bills, orders, Current(bills[i]).lines, true) <==>
            AllWithin(WithStatus(bills, i, status), orders, Current(bills[i]).lines, false)
  {
    var lines := Current(bills[i]).lines;
    forall t | t in TargetsOf(lines)
      ensures Billed(WithStatus(bills, i, status), t) == Billed(bills, t) + LineQty(lines, t)
    {
      WithStatusBills(bills, i, status, t);
    }
  }

  /** A resolved dispute is terminal: the corrected version it leaves bills nothing, on any line,
      after any further command. */
  lemma ResolvedIsTerminal(s: State, c: Command, i: nat, t: Target)
    requires Wellformed(s) && i < |s.bills| && s.bills[i].status == Resolved && Apply(s, c).Done?
    requires forall k :: 0 <= k < |s.bills[i].certificates| ==> s.bills[i].certificates[k].superseded
    ensures i < |Apply(s, c).state.bills| && Apply(s, c).state.bills[i].status == Resolved
    ensures BillOn(t)(Apply(s, c).state.bills[i]) == 0.0
  {
    match c
    case DoKillOrder(line) => ResolvedUntouched(s, line, 0.0, i);
    case DoCorrect(line, e) =>
      if e.quantity < 0.0 {
        ResolvedUntouched(s, line, Evidence(Filed(s.orders[line].entries, e)), i);
      }
    case _ =>
  }

  lemma ResolvedUntouched(s: State, line: Target, evidence: real, i: nat)
    requires Wellformed(s) && i < |s.bills| && s.bills[i].status == Resolved
    requires evidence >= 0.0 && Disposed(s.bills, line, evidence).Some?
    ensures |Disposed(s.bills, line, evidence).value| == |s.bills|
    ensures Disposed(s.bills, line, evidence).value[i] == s.bills[i]
  {
    DispositionExact(s.bills, line, evidence, line);
    if Listed(Taken(s.bills, line, evidence), i) {
      TakenWereLive(s.bills, line, evidence, i);
    }
  }

  // ── the certificate floors ───────────────────────────────────────────────────────────────────

  lemma CertifiedIsFrozen(s: State, t: Target)
    requires Inv(s)
    ensures CertifiedBilled(s.bills, t) == Frozen(s.bills, t)
  {
    forall i | 0 <= i < |s.bills|
      ensures CertifiedOn(t)(s.bills[i]) == FrozenOn(t)(s.bills[i])
    {
      assert BillOk(s.bills[i], s.orders);
      CurrentQty(s.bills[i], t);
      if !PastCertification(s.bills[i].status) {
        NoLiveDraws(s.bills[i].certificates);
      }
    }
    SumSame(s.bills, CertifiedOn(t), FrozenOn(t));
  }

  /** The floor under one row is at least as strong as the floor under the whole line: a correction
      that keeps what live certificates rest on in its row keeps every certified claim covered. */
  lemma RowFloorCoversLine(s: State, t: Target, e: Entry)
    requires Inv(s) && t in s.orders && e.corrects.Some? && Fresh(s.orders[t].entries, e.id)
    requires HasOriginal(s.orders[t].entries, e.corrects.value)
    requires NetOf(Filed(s.orders[t].entries, e), e.corrects.value) >= 0.0
    requires NetOf(Filed(s.orders[t].entries, e), e.corrects.value) >= Consumed(s.bills, t, e.corrects.value)
    ensures CertifiedBilled(s.bills, t) <= Evidence(Filed(s.orders[t].entries, e))
  {
    var o := s.orders[t];
    var now := Filed(o.entries, e);
    var orders := s.orders[t := o.(entries := now)];
    assert LineOk(s.bills, o, t);
    CertifiedIsFrozen(s, t);
    FiledOk(o.entries, e);
    NetsCoverEvidence(now);
    DrawsStillNamed(s, t, e);
    ConsumedCoversFrozen(s.bills, orders, t);
    var rows := Originals(now);
    forall k | 0 <= k < |rows|
      ensures ConsumedAt(s.bills, t)(rows[k]) <= NetAt(now)(rows[k])
    {
      assert rows[k] in now && IsOriginal()(rows[k]);
      FiledHolds(o.entries, e);
      assert rows[k] in o.entries;
      FiledFolds(o.entries, e, rows[k].id);
    }
    SumLe(rows, ConsumedAt(s.bills, t), NetAt(now));
  }

  lemma DrawsStillNamed(s: State, t: Target, e: Entry)
    requires Inv(s) && t in s.orders
    ensures forall i :: 0 <= i < |s.bills| ==>
              DrawsNameRows(LiveDraws(s.bills[i].certificates),
                  s.orders[t := s.orders[t].(entries := Filed(s.orders[t].entries, e))])
  {
    FiledKeepsOriginals(s.orders[t].entries, e);
    forall i | 0 <= i < |s.bills|
      ensures DrawsNameRows(LiveDraws(s.bills[i].certificates),
              s.orders[t := s.orders[t].(entries := Filed(s.orders[t].entries, e))])
    {
      assert BillOk(s.bills[i], s.orders);
    }
  }

  // ── when a withdrawal goes through ───────────────────────────────────────────────────────────

  /** How many claims, newest first, come before the first that a live certificate stands on. */
  function LeadingUncertified(bills: seq<Bill>, claims: seq<Claim>): (k: nat)
    requires InRange(claims, bills)
    ensures k <= |claims|
    ensures forall j :: 0 <= j < k ==> !PastCertification(bills[claims[j].bill].status)
    ensures k < |claims| ==> PastCertification(bills[claims[k].bill].status)
  {
    if |claims| == 0 || PastCertification(bills[claims[0].bill].status) then 0
    else 1 + LeadingUncertified(bills, claims[1..])
  }

  lemma AllInRange(bills: seq<Bill>, t: Target)
    requires forall i :: 0 <= i < |bills| ==> VersionsOk(bills[i])
    ensures InRange(LiveClaims(bills, t), bills)
    ensures forall k :: 0 <= k < |LiveClaims(bills, t)| ==> LiveClaims(bills, t)[k].quantity >= 0.0
  {
    LiveClaimsExact(bills, t);
    forall k | 0 <= k < |LiveClaims(bills, t)|
      ensures LiveClaims(bills, t)[k].bill < |bills| && LiveClaims(bills, t)[k].quantity >= 0.0
    {
      assert LiveClaims(bills, t)[k] in LiveClaims(bills, t);
      CurrentQty(bills[LiveClaims(bills, t)[k].bill], t);
    }
  }

  lemma PrefixGrows(claims: seq<Claim>, a: nat, b: nat)
    requires a <= b <= |claims| && forall k :: 0 <= k < |claims| ==> claims[k].quantity >= 0.0
    ensures Sum(claims[..a], Quantity()) <= Sum(claims[..b], Quantity())
  {
    assert claims[..b] == claims[..a] + claims[a..b];
    SumAppend(claims[..a], claims[a..b], Quantity());
    SumNonneg(claims[a..b], Quantity());
  }

  lemma ShortPrefixGoesThrough(bills: seq<Bill>, t: Target, evidence: real)
    requires forall i :: 0 <= i < |bills| ==> VersionsOk(bills[i])
    requires InRange(LiveClaims(bills, t), bills)
    requires Needed(LiveClaims(bills, t), Billed(bills, t), evidence) <= LeadingUncertified(bills, LiveClaims(bills, t))
    ensures Disposed(bills, t, evidence).Some?
  {
    var claims := LiveClaims(bills, t);
    forall c | c in Taken(bills, t, evidence)
      ensures !PastCertification(bills[c.bill].status)
    {
      var j :| 0 <= j < |Taken(bills, t, evidence)| && Taken(bills, t, evidence)[j] == c;
      assert claims[j] == c;
    }
  }

  lemma LongPrefixIsRefused(bills: seq<Bill>, t: Target, evidence: real)
    requires forall i :: 0 <= i < |bills| ==> VersionsOk(bills[i])
    requires InRange(LiveClaims(bills, t), bills)
    requires LeadingUncertified(bills, LiveClaims(bills, t)) < Needed(LiveClaims(bills, t), Billed(bills, t), evidence)
    ensures Disposed(bills, t, evidence).None?
  {
    var claims, k := LiveClaims(bills, t), LeadingUncertified(bills, LiveClaims(bills, t));
    assert Taken(bills, t, evidence)[k] == claims[k];
    assert claims[k] in Taken(bills, t, evidence);
  }

  /** A withdrawal goes through exactly when the uncertified claims newer than the newest certified
      one cover the excess; otherwise the disposition reaches a certified claim and all is refused. */
  lemma GoesThroughExactly(bills: seq<Bill>, t: Target, evidence: real)
    requires forall i :: 0 <= i < |bills| ==> VersionsOk(bills[i])
    requires evidence >= 0.0
    ensures InRange(LiveClaims(bills, t), bills)
    ensures Disposed(bills, t, evidence).Some? <==>
            Billed(bills, t) - Sum(LiveClaims(bills, t)[..LeadingUncertified(bills, LiveClaims(bills, t))],
                Quantity()) <= evidence
  {
    AllInRange(bills, t);
    var claims := LiveClaims(bills, t);
    var k, n := LeadingUncertified(bills, claims), Needed(claims, Billed(bills, t), evidence);
    assert Sum(claims, Quantity()) == Billed(bills, t) by {
      LiveClaimsExact(bills, t);
    }
    NeededIsMinimal(claims, Billed(bills, t), evidence);
    if n <= k {
      PrefixGrows(claims, n, k);
      ShortPrefixGoesThrough(bills, t, evidence);
    } else {
      LongPrefixIsRefused(bills, t, evidence);
    }
  }

  function Withdrawn(b: Bill, t: Target): Bill {
    if ClaimsOf(b, t) && !PastCertification(b.status) then b.(status := Disputed) else b
  }

  lemma WithdrawnBills(b: Bill, t: Target)
    requires VersionsOk(b)
    ensures BillOn(t)(Withdrawn(b, t)) == CertifiedOn(t)(b)
  {
    BillsLine(b, t);
    CurrentQty(b, t);
    if IsLive(b.status) && !ClaimsOf(b, t) {
      UntouchedQty(Current(b).lines, t);
    }
  }

  /** Disputing every uncertified claim on the line instead. */
  function DisputeUncertified(bills: seq<Bill>, t: Target): (r: seq<Bill>)
    ensures |r| == |bills|
    ensures forall i :: 0 <= i < |bills| ==> r[i] == Withdrawn(bills[i], t)
  {
    seq(|bills|, i requires 0 <= i < |bills| => Withdrawn(bills[i], t))
  }

  lemma {:induction false} WithdrawnFold(bills: seq<Bill>, now: seq<Bill>, t: Target)
    requires |now| == |bills|
    requires forall i :: 0 <= i < |bills| ==> VersionsOk(bills[i]) && now[i] == Withdrawn(bills[i], t)
    ensures Billed(now, t) == CertifiedBilled(bills, t)
  {
    if |bills| > 0 {
      WithdrawnFold(bills[..|bills| - 1], now[..|now| - 1], t);
      WithdrawnBills(bills[|bills| - 1], t);
    }
  }

  /** It always suffices: whenever the row floor holds, the uncertified claims alone cover any
      excess, so a refusal by the lifecycle is never forced by the evidence. */
  lemma UncertifiedAlwaysSuffice(s: State, t: Target, e: Entry)
    requires Inv(s) && t in s.orders && e.corrects.Some? && Fresh(s.orders[t].entries, e.id)
    requires HasOriginal(s.orders[t].entries, e.corrects.value)
    requires NetOf(Filed(s.orders[t].entries, e), e.corrects.value) >= 0.0
    requires NetOf(Filed(s.orders[t].entries, e), e.corrects.value) >= Consumed(s.bills, t, e.corrects.value)
    ensures Billed(DisputeUncertified(s.bills, t), t) <= Evidence(Filed(s.orders[t].entries, e))
  {
    RowFloorCoversLine(s, t, e);
    InvWellformed(s);
    WithdrawnFold(s.bills, DisputeUncertified(s.bills, t), t);
  }

  // ── the refusal that was not needed ──────────────────────────────────────────────────────────

  const LINE := Target(Labour, 0)

  /** 60 claimed and submitted at time 1; 40 claimed at time 2 and certified against row 1. */
  const OLDER := Bill(Submitted, [Version(1, 1, false, [ClaimLine(LINE, 60.0, 60.0)])], [], 0.0)
  const NEWER :=
    Bill(Certified, [Version(1, 2, false, [ClaimLine(LINE, 40.0, 40.0)])],
         [Certificate(1, 40.0, false, [Draw(LINE, 1, 40.0)], 0.0, 0.0)], 0.0)
  const MEASURED := [Entry(1, 60.0, None, 0), Entry(2, 40.0, None, 0)]
  const ORDERED := Order(true, false, 100.0, 0.0, 1.0, 0.0, 0.0, 100.0, MEASURED)

  lemma FoldsOfTwo(a: Bill, b: Bill, f: Bill -> real)
    ensures Sum([a, b], f) == f(a) + f(b)
  {
    SumAppend([a], [b], f);
    SumOne(a, f);
    SumOne(b, f);
    assert [a] + [b] == [a, b];
  }

  lemma OlderBills(t: Target)
    ensures VersionsOk(OLDER) && VersionsOk(NEWER)
    ensures BillOn(t)(OLDER) == if t == LINE then 60.0 else 0.0
    ensures BillOn(t)(NEWER) == if t == LINE then 40.0 else 0.0
  {
    BillsLine(OLDER, t);
    BillsLine(NEWER, t);
    SumOne(ClaimLine(LINE, 60.0, 60.0), QtyOf(t));
    SumOne(ClaimLine(LINE, 40.0, 40.0), QtyOf(t));
  }

  /** With evidence 100 fallen to 60, disputing the older claim would leave 40 billed against 60;
      newest first meets the certified claim and the correction is refused instead. */
  lemma RefusedThoughOneWouldDo()
    ensures Disposed([OLDER, NEWER], LINE, 60.0).None?
    ensures Billed(Dispute([OLDER, NEWER], 0), LINE) == 40.0
  {
    var bills := [OLDER, NEWER];
    OlderBills(LINE);
    FoldsOfTwo(OLDER, NEWER, BillOn(LINE));
    DisputeLive(bills, 0, LINE);
    SumOne(ClaimLine(LINE, 60.0, 60.0), QtyOf(LINE));
    assert Touches(Current(OLDER).lines, LINE) by {
      assert Current(OLDER).lines[0].target == LINE;
    }
    assert Touches(Current(NEWER).lines, LINE) by {
      assert Current(NEWER).lines[0].target == LINE;
    }
    var a, b := ClaimOf(bills, 0, LINE), ClaimOf(bills, 1, LINE);
    assert Gather(bills, LINE, 0) == [];
    assert Gather(bills, LINE, 1) == [a];
    assert LiveClaims(bills, LINE) == [b, a];
    assert Needed([b, a], 100.0, 60.0) >= 1;
    assert b in Taken(bills, LINE, 60.0) by {
      assert Taken(bills, LINE, 60.0)[0] == b;
    }
  }

  const STANDING := State([OLDER, NEWER], map[LINE := ORDERED])

  /** The correction that takes row 2 back to nothing. */
  const TAKEN_BACK := Entry(3, -40.0, Some(2), 0)

  lemma DrawsOfNewer()
    ensures LiveDraws(OLDER.certificates) == []
    ensures LiveDraws(NEWER.certificates) == [Draw(LINE, 1, 40.0)]
  {
    NoLiveDraws(OLDER.certificates);
    OneLiveCertificate(NEWER.certificates);
  }

  lemma FoldOfMeasured(f: Entry -> real)
    ensures Sum(MEASURED, f) == f(MEASURED[0]) + f(MEASURED[1])
  {
    SumAppend([MEASURED[0]], [MEASURED[1]], f);
    SumOne(MEASURED[0], f);
    SumOne(MEASURED[1], f);
    assert [MEASURED[0]] + [MEASURED[1]] == MEASURED;
  }

  lemma StandingConsumes(row: Id)
    ensures Consumed([OLDER, NEWER], LINE, row) == if row == 1 then 40.0 else 0.0
  {
    DrawsOfNewer();
    FoldsOfTwo(OLDER, NEWER, FrozenOnRow(LINE, row));
    SumOne(Draw(LINE, 1, 40.0), DrawOnRow(LINE, row));
  }

  lemma StandingBills()
    ensures BillOk(OLDER, STANDING.orders) && BillOk(NEWER, STANDING.orders)
  {
    DrawsOfNewer();
    OlderBills(LINE);
    SumOne(ClaimLine(LINE, 40.0, 40.0), AmountOf());
    assert MEASURED[0].id == 1;
    assert HasOriginal(MEASURED, 1);
    forall t
      ensures FrozenOn(t)(NEWER) == LineQty(Current(NEWER).lines, t)
    {
      SumOne(Draw(LINE, 1, 40.0), DrawOn(t));
      SumOne(ClaimLine(LINE, 40.0, 40.0), QtyOf(t));
    }
  }

  lemma StandingEntries()
    ensures EntriesOk(MEASURED) && Evidence(MEASURED) == 100.0
    ensures NetOf(MEASURED, 1) == 60.0 && NetOf(MEASURED, 2) == 40.0
  {
    FoldOfMeasured(QuantityOf());
    FoldOfMeasured(ForRow(1));
    FoldOfMeasured(ForRow(2));
  }

  lemma StandingLine()
    ensures LineOk([OLDER, NEWER], ORDERED, LINE)
  {
    StandingEntries();
    OlderBills(LINE);
    FoldsOfTwo(OLDER, NEWER, BillOn(LINE));
    StandingConsumes(1);
    StandingConsumes(2);
  }

  /** The state is one every command keeps to. */
  lemma StandingIsSafe()
    ensures Inv(STANDING)
  {
    StandingBills();
    StandingLine();
  }

  lemma FloorsOfStanding()
    ensures NetOf(Filed(MEASURED, TAKEN_BACK), 2) >= Consumed(STANDING.bills, LINE, 2)
    ensures Evidence(Filed(MEASURED, TAKEN_BACK)) == 60.0
  {
    StandingConsumes(2);
    StandingEntries();
    FiledFolds(MEASURED, TAKEN_BACK, 2);
  }

  /** Every floor holds and disputing one uncertified claim would settle it, yet the correction is
      refused. */
  lemma RefusedInASafeState()
    ensures Inv(STANDING) && Wellformed(STANDING)
    ensures NetOf(Filed(MEASURED, TAKEN_BACK), 2) >= Consumed(STANDING.bills, LINE, 2)
    ensures Evidence(Filed(MEASURED, TAKEN_BACK)) == 60.0 > Billed(Dispute(STANDING.bills, 0), LINE)
    ensures Correct(STANDING, LINE, TAKEN_BACK).Refused?
  {
    StandingIsSafe();
    InvWellformed(STANDING);
    FloorsOfStanding();
    RefusedThoughOneWouldDo();
  }
}
