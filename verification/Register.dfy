/** The over-budget register: which heads each write evaluates, and why that keeps the register equal
    to the fold. */
module Register {
  import opened Sums
  import opened Claims
  import opened Disposition
  import opened Commands
  import opened Safety
  import opened Runs
  import opened Rounding
  import opened Positions

  /** One row of the append-only register; `cleared` is the one change a row ever sees. */
  datatype Exception = Exception(head: Id, budget: nat, exposure: int, cleared: bool)

  /** A budget is a chain of versions; the last is the live one. */
  datatype Ledger = Ledger(state: State, carried: seq<Carried>, budgets: map<Id, seq<nat>>, register: seq<Exception>)

  predicate Budgeted(budgets: map<Id, seq<nat>>, head: Id) { head in budgets && |budgets[head]| > 0 }

  function BudgetOf(budgets: map<Id, seq<nat>>, head: Id): nat
    requires Budgeted(budgets, head)
  {
    budgets[head][|budgets[head]| - 1]
  }

  function ExposureOf(l: Ledger, head: Id): int { Paise(Whole(HeadSix(l.state, l.carried, head))) }

  /** Budgeted, with negative headroom. */
  predicate Breached(l: Ledger, head: Id) {
    Budgeted(l.budgets, head) && BudgetOf(l.budgets, head) - ExposureOf(l, head) < 0
  }

  function OpenOn(register: seq<Exception>, head: Id): nat {
    if |register| == 0 then 0 else
    OpenOn(register[..|register| - 1], head) +
      if register[|register| - 1].head == head && !register[|register| - 1].cleared then 1 else 0
  }

  /** The register says what the fold says: one open exception on a breached head, none on another. */
  ghost predicate Agrees(l: Ledger) {
    forall head :: OpenOn(l.register, head) == if Breached(l, head) then 1 else 0
  }

  // ── raise or clear ───────────────────────────────────────────────────────────────────────────

  function Cleared(register: seq<Exception>, head: Id): (r: seq<Exception>)
    ensures |r| == |register|
  {
    seq(|register|, i requires 0 <= i < |register| =>
      if register[i].head == head then register[i].(cleared := true) else register[i])
  }

  function Settled(l: Ledger, head: Id): seq<Exception> {
    if Breached(l, head) && OpenOn(l.register, head) == 0 then
      l.register + [Exception(head, BudgetOf(l.budgets, head), ExposureOf(l, head), false)]
    else if !Breached(l, head) && OpenOn(l.register, head) > 0 then Cleared(l.register, head)
    else l.register
  }

  function Evaluated(l: Ledger, heads: seq<Id>): Ledger {
    if |heads| == 0 then l else
    var before := Evaluated(l, heads[..|heads| - 1]);
    before.(register := Settled(before, heads[|heads| - 1]))
  }

  lemma {:induction false} ClearedCounts(register: seq<Exception>, head: Id, other: Id)
    ensures OpenOn(Cleared(register, head), other) == if other == head then 0 else OpenOn(register, other)
  {
    if |register| > 0 {
      ClearedCounts(register[..|register| - 1], head, other);
      assert Cleared(register, head)[..|register| - 1] == Cleared(register[..|register| - 1], head);
    }
  }

  lemma SettledCounts(l: Ledger, head: Id, other: Id)
    requires OpenOn(l.register, head) <= 1
    ensures OpenOn(Settled(l, head), other) ==
            if other != head then OpenOn(l.register, other) else if Breached(l, head) then 1 else 0
  {
    ClearedCounts(l.register, head, other);
    var row := Exception(head, 0, 0, false);
    if Breached(l, head) && OpenOn(l.register, head) == 0 {
      assert Settled(l, head)[..|l.register|] == l.register;
    }
  }

  /** Evaluating some heads makes the register right about them and leaves the rest alone. */
  lemma {:induction false} EvaluatedCounts(l: Ledger, heads: seq<Id>, head: Id)
    requires forall h :: OpenOn(l.register, h) <= 1
    ensures Evaluated(l, heads) == l.(register := Evaluated(l, heads).register)
    ensures OpenOn(Evaluated(l, heads).register, head) ==
            if head in heads then (if Breached(l, head) then 1 else 0) else OpenOn(l.register, head)
  {
    if |heads| > 0 {
      var rest, last := heads[..|heads| - 1], heads[|heads| - 1];
      EvaluatedCounts(l, rest, head);
      EvaluatedCounts(l, rest, last);
      SettledCounts(Evaluated(l, rest), last, head);
      assert heads == rest + [last];
      assert Breached(Evaluated(l, rest), last) == Breached(l, last);
      assert Breached(Evaluated(l, rest), head) == Breached(l, head);
    }
  }

  // ── which heads a write evaluates ────────────────────────────────────────────────────────────

  function TargetsIn(lines: seq<ClaimLine>): set<Target> { set l | l in lines :: l.target }

  /** The lines of every bill a disposition disputed. */
  function TargetsOfBills(bills: seq<Bill>, claims: seq<Claim>): set<Target>
    requires InRange(claims, bills) && forall i :: 0 <= i < |bills| ==> |bills[i].versions| > 0
  {
    if |claims| == 0 then {} else
    TargetsOfBills(bills, claims[..|claims| - 1]) + TargetsIn(Current(bills[claims[|claims| - 1].bill]).lines)
  }

  function DisputedTargets(s: State, t: Target, evidence: real): set<Target>
    requires Wellformed(s)
  {
    TakenInRange(s.bills, t, evidence);
    TargetsOfBills(s.bills, Taken(s.bills, t, evidence))
  }

  /** The lines each command names to the evaluator. */
  function Named(s: State, c: Command): set<Target>
    requires Wellformed(s) && (OnBill(c) ==> c.bill < |s.bills|)
  {
    match c
    case DoRecord(_, _) => {}
    case DoAmend(i, lines, _) => TargetsIn(Current(s.bills[i]).lines) + TargetsIn(lines)
    case DoPay(_, _) => {}
    case DoReversePayment(_, _) => {}
    case DoOpenOrder(t, _) => {t}
    case DoApproveOverage(_, _) => {}
    case DoReceiptProgress(t, _) => {t}
    case DoCloseShort(t) => {t}
    case DoKillOrder(t) => {t} + DisputedTargets(s, t, 0.0)
    case DoAddEvidence(t, _) => {t}
    case DoCorrect(t, e) =>
      if t in s.orders && e.quantity < 0.0 then {t} + DisputedTargets(s, t, Evidence(Filed(s.orders[t].entries, e)))
      else {t}
    case _ => TargetsIn(Current(s.bills[c.bill]).lines)
  }

  /** The heads that carry the named lines; an unattributed line names none. */
  function HeadsOf(carried: seq<Carried>, named: set<Target>): seq<Id> {
    if |carried| == 0 then [] else
    HeadsOf(carried[..|carried| - 1], named) +
      if carried[|carried| - 1].target in named then [carried[|carried| - 1].head] else []
  }

  lemma {:induction false} HeadsOfAll(carried: seq<Carried>, named: set<Target>, k: nat)
    requires k < |carried| && carried[k].target in named
    ensures carried[k].head in HeadsOf(carried, named)
  {
    if k < |carried| - 1 {
      HeadsOfAll(carried[..|carried| - 1], named, k);
    }
  }

  // ── what a write moves ───────────────────────────────────────────────────────────────────────

  /** The exposure of one line. */
  function LineExposure(s: State, t: Target): real { Whole(LineSix(s, t)) }

  predicate SameMeasures(a: Bill, b: Bill, t: Target) {
    && BilledOf(t)(a) == BilledOf(t)(b) && CertifiedOf(t)(a) == CertifiedOf(t)(b)
    && WithheldOf(t)(a) == WithheldOf(t)(b) && ApprovedOf(t)(a) == ApprovedOf(t)(b)
    && PaidOf(t)(a) == PaidOf(t)(b)
  }

  predicate NoMeasure(b: Bill, t: Target) {
    BilledOf(t)(b) == 0.0 && CertifiedOf(t)(b) == 0.0 && WithheldOf(t)(b) == 0.0 && ApprovedOf(t)(b) == 0.0 &&
        PaidOf(t)(b) == 0.0
  }

  lemma UntouchedMeasures(b: Bill, t: Target)
    requires |b.versions| > 0 && t !in TargetsIn(Current(b).lines)
    ensures NoMeasure(b, t)
  {
    var lines := Current(b).lines;
    forall i | 0 <= i < |lines|
      ensures AmountTo(t)(lines[i]) == 0.0
    {
      assert lines[i] in lines;
    }
    SumZero(lines, AmountTo(t));
  }

  lemma DeadMeasures(b: Bill, t: Target)
    requires !IsLive(b.status)
    ensures NoMeasure(b, t)
  {
  }

  /** Bills that measure the same on a line leave its exposure alone. */
  lemma SameBillsSameLine(s: State, bills: seq<Bill>, t: Target)
    requires |bills| == |s.bills|
    requires forall i :: 0 <= i < |bills| ==> SameMeasures(bills[i], s.bills[i], t)
    ensures LineExposure(s.(bills := bills), t) == LineExposure(s, t)
  {
    SumPointwise(bills, s.bills, BilledOf(t));
    SumPointwise(bills, s.bills, CertifiedOf(t));
    SumPointwise(bills, s.bills, WithheldOf(t));
    SumPointwise(bills, s.bills, ApprovedOf(t));
    SumPointwise(bills, s.bills, PaidOf(t));
  }

  /** One bill moved, whose current claim before and after does not touch the line. */
  lemma OtherLinesKeep(s: State, i: nat, b: Bill, t: Target)
    requires i < |s.bills| && |s.bills[i].versions| > 0 && |b.versions| > 0
    requires t !in TargetsIn(Current(s.bills[i]).lines) && t !in TargetsIn(Current(b).lines)
    ensures LineExposure(s.(bills := s.bills[i := b]), t) == LineExposure(s, t)
  {
    UntouchedMeasures(s.bills[i], t);
    UntouchedMeasures(b, t);
    SameBillsSameLine(s, s.bills[i := b], t);
  }

  /** An order changed leaves every other line alone. */
  lemma OtherOrdersKeep(s: State, u: Target, next: State, t: Target)
    requires t != u && u in next.orders && next == s.(orders := s.orders[u := next.orders[u]])
    ensures LineExposure(next, t) == LineExposure(s, t)
  {
  }

  lemma RecordKeepsLine(s: State, next: State, t: Target)
    requires |next.bills| == |s.bills| + 1 && next.bills[|s.bills|].status == Draft
    requires next == s.(bills := s.bills + [next.bills[|s.bills|]])
    ensures LineExposure(next, t) == LineExposure(s, t)
  {
    var b := next.bills[|s.bills|];
    DeadMeasures(b, t);
    SumAppend(s.bills, [b], BilledOf(t));
    SumAppend(s.bills, [b], CertifiedOf(t));
    SumAppend(s.bills, [b], WithheldOf(t));
    SumAppend(s.bills, [b], ApprovedOf(t));
    SumAppend(s.bills, [b], PaidOf(t));
    SumOne(b, BilledOf(t));
    SumOne(b, CertifiedOf(t));
    SumOne(b, WithheldOf(t));
    SumOne(b, ApprovedOf(t));
    SumOne(b, PaidOf(t));
  }

  /** No bucket reads the approved overage. */
  lemma OverageKeepsLine(s: State, u: Target, next: State, t: Target)
    requires u in s.orders && u in next.orders && TermsOf(next.orders[u]) == TermsOf(s.orders[u])
    requires next.orders[u].entries == s.orders[u].entries && next.orders[u].live == s.orders[u].live
    requires next == s.(orders := s.orders[u := next.orders[u]])
    ensures LineExposure(next, t) == LineExposure(s, t)
  {
    if t == u {
      assert FiguresOn(next, t) == FiguresOn(s, t);
    }
  }

  // ── paying moves nothing ─────────────────────────────────────────────────────────────────────

  lemma LineAmountNonneg(lines: seq<ClaimLine>, t: Target)
    requires LinesPositive(lines)
    ensures 0.0 <= LineAmount(lines, t) <= Sum(lines, AmountOf())
  {
    SumNonneg(lines, AmountTo(t));
    SumLe(lines, AmountTo(t), AmountOf());
  }

  /** Shares grow with what is shared. */
  lemma SharesGrow(b: Bill, t: Target, x: real, y: real)
    requires VersionsOk(b) && x <= y
    ensures ShareOn(b, t, x) <= ShareOn(b, t, y)
  {
    var part, total := LineAmount(Current(b).lines, t), ClaimedAmount(b);
    LineAmountNonneg(Current(b).lines, t);
    if total > 0.0 {
      ProductGrows(part, x, y);
      QuotientGrows(x * part, y * part, total);
    }
  }

  lemma SharesAdd(b: Bill, t: Target, x: real, y: real)
    requires VersionsOk(b)
    ensures ShareOn(b, t, x + y) == ShareOn(b, t, x) + ShareOn(b, t, y)
  {
    var part, total := LineAmount(Current(b).lines, t), ClaimedAmount(b);
    if total != 0.0 {
      assert (x + y) * part == x * part + y * part;
      Scaled(x * part, y * part, total);
    }
  }

  /** The whole claim's share on a line is what it claims there. */
  lemma SharesWhole(b: Bill, t: Target)
    requires VersionsOk(b)
    ensures ShareOn(b, t, ClaimedAmount(b)) == LineAmount(Current(b).lines, t)
    ensures ShareOn(b, t, 0.0) == 0.0
  {
    var part, total := LineAmount(Current(b).lines, t), ClaimedAmount(b);
    LineAmountNonneg(Current(b).lines, t);
    if total != 0.0 {
      Scaled(part, 0.0, total);
      Scaled(0.0, 0.0, total);
    }
  }

  /** In every state the commands keep, each bill's money on a line is staged. */
  lemma BillStaged(b: Bill, orders: map<Target, Order>, t: Target)
    requires BillOk(b, orders)
    ensures 0.0 <= PaidOf(t)(b) <= ApprovedOf(t)(b)
    ensures ApprovedOf(t)(b) + WithheldOf(t)(b) <= CertifiedOf(t)(b) <= BilledOf(t)(b)
  {
    LineAmountNonneg(Current(b).lines, t);
    SharesWhole(b, t);
    if PastCertification(b.status) {
      var c := Last(b);
      SharesGrow(b, t, 0.0, b.paid);
      SharesGrow(b, t, b.paid, c.approved);
      SharesAdd(b, t, c.approved, c.withheld);
      SharesGrow(b, t, c.approved + c.withheld, c.amount);
    } else {
      assert !Certificated(b);
    }
  }

  function CommittedMoney(t: Target): Bill -> real {
    (b: Bill) => ApprovedOf(t)(b) + WithheldOf(t)(b)
  }

  /** So the line's folds are staged, all but the last step: what is billed may exceed what the
      receipt is worth, because a vendor may claim a rate the order never froze. */
  lemma LineStaged(s: State, t: Target)
    requires Inv(s) && t in s.orders
    ensures 0.0 <= FiguresOn(s, t).paid <= FiguresOn(s, t).approved
    ensures FiguresOn(s, t).approved + FiguresOn(s, t).withheld <= FiguresOn(s, t).certified <= FiguresOn(s, t).billed
    ensures Staged(t.kind, TermsOf(s.orders[t]), FiguresOn(s, t)) <==>
            FiguresOn(s, t).billed <= ReceivedValue(t.kind, TermsOf(s.orders[t]), FiguresOn(s, t).accepted)
  {
    forall i | 0 <= i < |s.bills|
      ensures 0.0 <= PaidOf(t)(s.bills[i]) <= ApprovedOf(t)(s.bills[i])
      ensures CommittedMoney(t)(s.bills[i]) <= CertifiedOf(t)(s.bills[i]) <= BilledOf(t)(s.bills[i])
    {
      assert BillOk(s.bills[i], s.orders);
      BillStaged(s.bills[i], s.orders, t);
    }
    SumNonneg(s.bills, PaidOf(t));
    SumLe(s.bills, PaidOf(t), ApprovedOf(t));
    SumSplit(s.bills, ApprovedOf(t), WithheldOf(t), CommittedMoney(t));
    SumLe(s.bills, CommittedMoney(t), CertifiedOf(t));
    SumLe(s.bills, CertifiedOf(t), BilledOf(t));
  }

  lemma BaseNonneg(o: Order)
    requires TermsOk(o)
    ensures Base(TermsOf(o)) >= 0.0
  {
    ProductNonneg(o.rate, o.qty);
  }

  /** IN EVERY REACHABLE STATE a live line of either kind, open or closed short, reports at least what
      it owes less its withholdings, and exactly that when its claims are within what its receipts are
      worth, wherever the money stands. */
  lemma ExposureIsOwed(s: State, t: Target)
    requires Inv(s) && t in s.orders && s.orders[t].live
    ensures s.orders[t].qty > 0.0
    ensures LineExposure(s, t) >= Owed(t.kind, TermsOf(s.orders[t]), FiguresOn(s, t).accepted) -
            FiguresOn(s, t).withheld
    ensures FiguresOn(s, t).billed <= ReceivedValue(t.kind, TermsOf(s.orders[t]), FiguresOn(s, t).accepted) ==>
              LineExposure(s, t) ==
                  Owed(t.kind, TermsOf(s.orders[t]), FiguresOn(s, t).accepted) - FiguresOn(s, t).withheld
  {
    var o, f := TermsOf(s.orders[t]), FiguresOn(s, t);
    LineStaged(s, t);
    assert LineOk(s.bills, s.orders[t], t);
    BaseNonneg(s.orders[t]);
    NeverUnderReports(t.kind, o, f);
    if f.billed <= ReceivedValue(t.kind, o, f.accepted) {
      LinePartition(t.kind, o, f);
    }
  }

  /** An open material line, then, is exposed for its obligation less its withholdings. */
  lemma ExposureIsObligation(s: State, t: Target)
    requires Inv(s) && t in s.orders && t.kind == Material && s.orders[t].live && !s.orders[t].closedShort
    requires FiguresOn(s, t).billed <= ReceivedValue(Material, TermsOf(s.orders[t]), FiguresOn(s, t).accepted)
    ensures LineExposure(s, t) == Obligation(TermsOf(s.orders[t]), FiguresOn(s, t).accepted) - FiguresOn(s, t).withheld
  {
    ExposureIsOwed(s, t);
    BaseNonneg(s.orders[t]);
    OwedOpen(TermsOf(s.orders[t]), FiguresOn(s, t).accepted);
  }

  /** Paying and reversing hand money between the last two buckets: within what is approved, the
      line's exposure is the same whatever has been paid. */
  lemma PayingIsNeutral(kind: Kind, o: Terms, f: Figures, paid: real)
    requires f.paid <= f.approved && paid <= f.approved
    ensures Whole(BucketsOf(kind, o, f.(paid := paid))) == Whole(BucketsOf(kind, o, f))
  {
  }

  predicate SameButCash(a: Bill, b: Bill, t: Target) {
    && BilledOf(t)(a) == BilledOf(t)(b) && CertifiedOf(t)(a) == CertifiedOf(t)(b)
    && WithheldOf(t)(a) == WithheldOf(t)(b) && ApprovedOf(t)(a) == ApprovedOf(t)(b)
  }

  /** No more is paid on a line than is approved on it. */
  predicate CashWithin(s: State, t: Target) {
    t in s.orders ==> FiguresOn(s, t).paid <= FiguresOn(s, t).approved
  }

  /** A bill whose cash alone moved, before and after within the approvals. */
  lemma CashKeepsLine(s: State, i: nat, b: Bill, t: Target)
    requires i < |s.bills| && SameButCash(b, s.bills[i], t)
    requires CashWithin(s, t) && CashWithin(s.(bills := s.bills[i := b]), t)
    ensures LineExposure(s.(bills := s.bills[i := b]), t) == LineExposure(s, t)
  {
    var next := s.(bills := s.bills[i := b]);
    if t in s.orders {
      SumUpdate(s.bills, i, b, BilledOf(t));
      SumUpdate(s.bills, i, b, CertifiedOf(t));
      SumUpdate(s.bills, i, b, WithheldOf(t));
      SumUpdate(s.bills, i, b, ApprovedOf(t));
      assert FiguresOn(next, t) == FiguresOn(s, t).(paid := FiguresOn(next, t).paid);
      PayingIsNeutral(t.kind, TermsOf(s.orders[t]), FiguresOn(s, t), FiguresOn(next, t).paid);
    }
  }

  lemma InvCashWithin(s: State, t: Target)
    requires Inv(s)
    ensures CashWithin(s, t)
  {
    if t in s.orders {
      LineStaged(s, t);
    }
  }

  // ── every command's frame ────────────────────────────────────────────────────────────────────

  /** `next` is `s` with bill `i` alone moved, its current claim on `lines`. */
  predicate MovesOne(s: State, next: State, i: nat, lines: seq<ClaimLine>) {
    && i < |s.bills| && |next.bills| == |s.bills| && next == s.(bills := s.bills[i := next.bills[i]])
    && |s.bills[i].versions| > 0 && |next.bills[i].versions| > 0 && Current(next.bills[i]).lines == lines
  }

  lemma ClaimMovesOne(s: State, c: Command)
    requires Wellformed(s) && (c.DoSubmit? || c.DoBeginVerification? || c.DoVerify? || c.DoReject? || c.DoAmend?)
    requires c.bill < |s.bills| && Apply(s, c).Done?
    ensures MovesOne(s, Apply(s, c).state, c.bill, if c.DoAmend? then c.lines else Current(s.bills[c.bill]).lines)
  {
    assert VersionsOk(s.bills[c.bill]);
  }

  lemma CertificateMovesOne(s: State, c: Command)
    requires Wellformed(s) && OnBill(c) &&
             !(c.DoSubmit? || c.DoBeginVerification? || c.DoVerify? || c.DoReject? || c.DoAmend?)
    requires c.bill < |s.bills| && Apply(s, c).Done?
    ensures MovesOne(s, Apply(s, c).state, c.bill, Current(s.bills[c.bill]).lines)
  {
    assert VersionsOk(s.bills[c.bill]);
  }

  /** A command on one bill moves that bill alone, and only an amendment changes what it claims. */
  lemma OneBillMoves(s: State, c: Command)
    requires Wellformed(s) && OnBill(c) && c.bill < |s.bills| && Apply(s, c).Done?
    ensures MovesOne(s, Apply(s, c).state, c.bill, if c.DoAmend? then c.lines else Current(s.bills[c.bill]).lines)
  {
    if c.DoSubmit? || c.DoBeginVerification? || c.DoVerify? || c.DoReject? || c.DoAmend? {
      ClaimMovesOne(s, c);
    } else {
      CertificateMovesOne(s, c);
    }
  }

  lemma OnBillFrame(s: State, c: Command, t: Target)
    requires Wellformed(s) && OnBill(c) && !c.DoPay? && !c.DoReversePayment?
    requires c.bill < |s.bills| && Apply(s, c).Done? && t !in Named(s, c)
    ensures LineExposure(Apply(s, c).state, t) == LineExposure(s, t)
  {
    OneBillMoves(s, c);
    OtherLinesKeep(s, c.bill, Apply(s, c).state.bills[c.bill], t);
  }

  lemma SameClaimSameShare(a: Bill, b: Bill, t: Target, amount: real)
    requires a.versions == b.versions && |b.versions| > 0
    ensures ShareOn(a, t, amount) == ShareOn(b, t, amount)
  {
    assert Current(a) == Current(b) && ClaimedAmount(a) == ClaimedAmount(b);
  }

  lemma CashAlone(b: Bill, paid: real, t: Target)
    requires HasLiveCertificate(b)
    ensures SameButCash(Moved(b, Last(b).withheld, Last(b).approved, paid), b, t)
  {
    var r, c := Moved(b, Last(b).withheld, Last(b).approved, paid), Last(b);
    assert r.versions == b.versions && |r.certificates| == |b.certificates| && Last(r) == c;
    assert IsLive(r.status) && IsLive(b.status);
    if |b.versions| > 0 {
      assert Current(r) == Current(b) && (Certificated(r) <==> Certificated(b));
      SameClaimSameShare(r, b, t, c.amount);
      SameClaimSameShare(r, b, t, c.withheld);
      SameClaimSameShare(r, b, t, c.approved);
    } else {
      assert !Certificated(r) && !Certificated(b);
    }
  }

  lemma PayFrame(s: State, i: nat, amount: real, t: Target)
    requires i < |s.bills| && Pay(s, i, amount).Done?
    requires CashWithin(s, t) && CashWithin(Pay(s, i, amount).state, t)
    ensures LineExposure(Pay(s, i, amount).state, t) == LineExposure(s, t)
  {
    CashAlone(s.bills[i], s.bills[i].paid + amount, t);
    CashKeepsLine(s, i, Moved(s.bills[i], Last(s.bills[i]).withheld, Last(s.bills[i]).approved,
        s.bills[i].paid + amount), t);
  }

  lemma ReversalFrame(s: State, i: nat, amount: real, t: Target)
    requires i < |s.bills| && ReversePayment(s, i, amount).Done?
    requires CashWithin(s, t) && CashWithin(ReversePayment(s, i, amount).state, t)
    ensures LineExposure(ReversePayment(s, i, amount).state, t) == LineExposure(s, t)
  {
    CashAlone(s.bills[i], s.bills[i].paid - amount, t);
    CashKeepsLine(s, i, Moved(s.bills[i], Last(s.bills[i]).withheld, Last(s.bills[i]).approved,
        s.bills[i].paid - amount), t);
  }

  lemma CashStaysWithin(s: State, c: Command, t: Target)
    requires Inv(s) && Wellformed(s) && Apply(s, c).Done?
    ensures CashWithin(s, t) && CashWithin(Apply(s, c).state, t)
  {
    InvCashWithin(s, t);
    KeepsApply(s, c);
    InvCashWithin(Apply(s, c).state, t);
  }

  // ── money commands move exposure only by what they withhold ──────────────────────────────────

  predicate OnMoney(c: Command) {
    c.DoCertify? || c.DoSupersede? || c.DoWithhold? || c.DoRelease? || c.DoApprove? || c.DoPay? || c.DoReversePayment?
  }

  /** A line's folds, staged but for the last step. */
  predicate MoneyStaged(f: Figures) { f.paid <= f.approved <= f.certified - f.withheld && f.certified <= f.billed }

  lemma CertifiedMoneyHandsOn(kind: Kind, o: Terms, f: Figures, g: Figures)
    requires MoneyStaged(f) && MoneyStaged(g) && f.accepted == g.accepted && f.billed == g.billed
    ensures Whole(BucketsOf(kind, o, g)) + g.withheld == Whole(BucketsOf(kind, o, f)) + f.withheld
  {
  }

  /** The bill named, before and after, claims the same. */
  predicate ClaimsTheSame(s: State, next: State, i: nat) {
    && i < |s.bills| && |next.bills| == |s.bills| && next == s.(bills := s.bills[i := next.bills[i]])
    && next.bills[i].versions == s.bills[i].versions && (IsLive(next.bills[i].status) <==> IsLive(s.bills[i].status))
  }

  lemma CertificatesClaimTheSame(s: State, c: Command)
    requires Wellformed(s) && (c.DoCertify? || c.DoSupersede? || c.DoRelease?) && c.bill < |s.bills| &&
             Apply(s, c).Done?
    ensures ClaimsTheSame(s, Apply(s, c).state, c.bill)
  {
    assert VersionsOk(s.bills[c.bill]);
  }

  lemma CashClaimsTheSame(s: State, c: Command)
    requires Wellformed(s) && (c.DoWithhold? || c.DoApprove? || c.DoPay? || c.DoReversePayment?)
    requires c.bill < |s.bills| && Apply(s, c).Done?
    ensures ClaimsTheSame(s, Apply(s, c).state, c.bill)
  {
  }

  lemma SameClaimsSameBilled(s: State, next: State, i: nat, t: Target)
    requires ClaimsTheSame(s, next, i)
    ensures next.orders == s.orders && Sum(next.bills, BilledOf(t)) == Sum(s.bills, BilledOf(t))
  {
    var a, b := s.bills[i], next.bills[i];
    assert BilledOf(t)(b) == BilledOf(t)(a);
    SumUpdate(s.bills, i, b, BilledOf(t));
  }

  lemma MoneyKeepsClaims(s: State, c: Command, t: Target)
    requires Wellformed(s) && OnMoney(c) && c.bill < |s.bills| && Apply(s, c).Done?
    ensures Apply(s, c).state.orders == s.orders
    ensures Sum(Apply(s, c).state.bills, BilledOf(t)) == Sum(s.bills, BilledOf(t))
  {
    if c.DoCertify? || c.DoSupersede? || c.DoRelease? {
      CertificatesClaimTheSame(s, c);
    } else {
      CashClaimsTheSame(s, c);
    }
    SameClaimsSameBilled(s, Apply(s, c).state, c.bill, t);
  }

  /** Certifying, superseding, withholding, releasing, approving, paying and reversing move a line's
      exposure only by what they withhold or give back. */
  lemma MoneyMovesOnlyWithholdings(s: State, c: Command, t: Target)
    requires Inv(s) && Wellformed(s) && OnMoney(c) && c.bill < |s.bills| && Apply(s, c).Done?
    requires t in s.orders && s.orders[t].live
    ensures t in Apply(s, c).state.orders
    ensures LineExposure(Apply(s, c).state, t) + FiguresOn(Apply(s, c).state, t).withheld ==
            LineExposure(s, t) + FiguresOn(s, t).withheld
  {
    MoneyKeepsClaims(s, c, t);
    KeepsApply(s, c);
    LineStaged(s, t);
    LineStaged(Apply(s, c).state, t);
    CertifiedMoneyHandsOn(t.kind, TermsOf(s.orders[t]), FiguresOn(s, t), FiguresOn(Apply(s, c).state, t));
  }

  /** It withholds nothing new: it carries nothing, or moves no withholding. */
  predicate WithholdsNothing(s: State, c: Command)
    requires OnMoney(c) ==> c.bill < |s.bills|
  {
    c.DoApprove? || c.DoPay? || c.DoReversePayment? || (c.DoCertify? && Commands.Carried(s.bills[c.bill]) == 0.0)
  }

  lemma ApprovalKeepsWithheld(b: Bill, approved: real, paid: real, t: Target)
    requires HasLiveCertificate(b)
    ensures WithheldOf(t)(Moved(b, Last(b).withheld, approved, paid)) == WithheldOf(t)(b)
  {
    var r, c := Moved(b, Last(b).withheld, approved, paid), Last(b);
    assert r.versions == b.versions && |r.certificates| == |b.certificates| && Last(r) == c.(approved := approved);
    if |b.versions| > 0 {
      SameClaimSameShare(r, b, t, c.withheld);
    } else {
      assert !Certificated(r) && !Certificated(b);
    }
  }

  lemma CertifyingWithholds(b: Bill, orders: map<Target, Order>, draws: seq<Draw>, t: Target)
    requires BillOk(b, orders) && b.status == Verified && Commands.Carried(b) == 0.0
    ensures WithheldOf(t)(CertifiedBill(b, draws)) == WithheldOf(t)(b) == 0.0
  {
    assert !Certificated(b);
    SharesWhole(CertifiedBill(b, draws), t);
  }

  lemma KeepsWithheld(s: State, c: Command, t: Target)
    requires Inv(s) && OnMoney(c) && c.bill < |s.bills| && Apply(s, c).Done? && WithholdsNothing(s, c)
    ensures Sum(Apply(s, c).state.bills, WithheldOf(t)) == Sum(s.bills, WithheldOf(t))
  {
    var b, r := s.bills[c.bill], Apply(s, c).state.bills[c.bill];
    if c.DoCertify? {
      assert BillOk(b, s.orders);
      CertifyingWithholds(b, s.orders, DrawsFor(s, c.bill).draws, t);
    } else {
      ApprovalKeepsWithheld(b, Last(r).approved, r.paid, t);
    }
    SumUpdate(s.bills, c.bill, r, WithheldOf(t));
  }

  /** CERTIFYING AND APPROVING SETTLE WHO OWES WHAT AND NOT HOW MUCH. Certifying with nothing carried,
      approving, paying and reversing move no line's exposure. */
  lemma MoneyIsNeutral(s: State, c: Command, t: Target)
    requires Inv(s) && Wellformed(s) && OnMoney(c) && c.bill < |s.bills| && Apply(s, c).Done? && WithholdsNothing(s, c)
    ensures LineExposure(Apply(s, c).state, t) == LineExposure(s, t)
  {
    MoneyKeepsClaims(s, c, t);
    if t in s.orders && s.orders[t].live {
      MoneyMovesOnlyWithholdings(s, c, t);
      KeepsWithheld(s, c, t);
    }
  }

  lemma {:induction false} TargetsOfBillsHas(bills: seq<Bill>, claims: seq<Claim>, k: nat)
    requires InRange(claims, bills) && forall i :: 0 <= i < |bills| ==> |bills[i].versions| > 0
    requires k < |claims|
    ensures TargetsIn(Current(bills[claims[k].bill]).lines) <= TargetsOfBills(bills, claims)
  {
    if k < |claims| - 1 {
      TargetsOfBillsHas(bills, claims[..|claims| - 1], k);
    }
  }

  /** A disposition moves only the lines of the bills it disputed. */
  lemma DispositionFrame(s: State, line: Target, evidence: real, t: Target)
    requires Wellformed(s) && evidence >= 0.0 && Disposed(s.bills, line, evidence).Some?
    requires t !in DisputedTargets(s, line, evidence)
    ensures LineExposure(s.(bills := Disposed(s.bills, line, evidence).value), t) == LineExposure(s, t)
  {
    var next, taken := Disposed(s.bills, line, evidence).value, Taken(s.bills, line, evidence);
    DispositionExact(s.bills, line, evidence, line);
    TakenInRange(s.bills, line, evidence);
    forall i | 0 <= i < |next|
      ensures SameMeasures(next[i], s.bills[i], t)
    {
      if Listed(taken, i) {
        var k :| 0 <= k < |taken| && taken[k].bill == i;
        TargetsOfBillsHas(s.bills, taken, k);
        UntouchedMeasures(s.bills[i], t);
        DeadMeasures(next[i], t);
      }
    }
    SameBillsSameLine(s, next, t);
  }

  lemma WithdrawalFrame(s: State, line: Target, evidence: real, next: State, t: Target)
    requires Wellformed(s) && evidence >= 0.0 && Disposed(s.bills, line, evidence).Some?
    requires t != line && t !in DisputedTargets(s, line, evidence)
    requires line in next.orders &&
             next == State(Disposed(s.bills, line, evidence).value, s.orders[line := next.orders[line]])
    ensures LineExposure(next, t) == LineExposure(s, t)
  {
    DispositionFrame(s, line, evidence, t);
    OtherOrdersKeep(s.(bills := Disposed(s.bills, line, evidence).value), line, next, t);
  }

  lemma CorrectionFrame(s: State, u: Target, e: Entry, t: Target)
    requires Wellformed(s) && Correct(s, u, e).Done? && t !in Named(s, DoCorrect(u, e))
    ensures LineExposure(Correct(s, u, e).state, t) == LineExposure(s, t)
  {
    if e.quantity > 0.0 {
      OtherOrdersKeep(s, u, Correct(s, u, e).state, t);
    } else {
      WithdrawalFrame(s, u, Evidence(Filed(s.orders[u].entries, e)), Correct(s, u, e).state, t);
    }
  }

  lemma OrderFrame(s: State, c: Command, t: Target)
    requires Wellformed(s) && !OnBill(c) && Apply(s, c).Done? && t !in Named(s, c)
    ensures LineExposure(Apply(s, c).state, t) == LineExposure(s, t)
  {
    var next := Apply(s, c).state;
    match c
    case DoRecord(_, _) => RecordKeepsLine(s, next, t);
    case DoOpenOrder(u, _) => OtherOrdersKeep(s, u, next, t);
    case DoApproveOverage(u, _) => OverageKeepsLine(s, u, next, t);
    case DoReceiptProgress(u, _) => OtherOrdersKeep(s, u, next, t);
    case DoCloseShort(u) => OtherOrdersKeep(s, u, next, t);
    case DoKillOrder(u) => WithdrawalFrame(s, u, 0.0, next, t);
    case DoAddEvidence(u, _) => OtherOrdersKeep(s, u, next, t);
    case DoCorrect(u, e) => CorrectionFrame(s, u, e, t);
  }

  /** THE FRAME. A command changes the exposure of no line it does not name to the evaluator. */
  lemma UnnamedLinesKeep(s: State, c: Command, t: Target)
    requires Inv(s) && Wellformed(s) && Apply(s, c).Done? && t !in Named(s, c)
    ensures LineExposure(Apply(s, c).state, t) == LineExposure(s, t)
  {
    CashStaysWithin(s, c, t);
    if !OnBill(c) {
      OrderFrame(s, c, t);
    } else if c.DoPay? {
      PayFrame(s, c.bill, c.amount, t);
    } else if c.DoReversePayment? {
      ReversalFrame(s, c.bill, c.amount, t);
    } else {
      OnBillFrame(s, c, t);
    }
  }

  // ── the register over every run ──────────────────────────────────────────────────────────────

  datatype Write =
    | OnClaims(command: Command)
    | SetsBudget(head: Id, amount: nat)
    | Attributes(target: Target, head: Id)

  function RowFor(carried: seq<Carried>, t: Target): (k: nat)
    ensures k <= |carried|
    ensures k < |carried| ==> carried[k].target == t
  {
    if |carried| == 0 then 0
    else if carried[0].target == t then 0
    else 1 + RowFor(carried[1..], t)
  }

  /** Revising a budget to what it is already is no revision. */
  function WithBudget(l: Ledger, head: Id, amount: nat): Ledger {
    if Budgeted(l.budgets, head) && BudgetOf(l.budgets, head) == amount then l else
    var chain := if head in l.budgets then l.budgets[head] else [];
    Evaluated(l.(budgets := l.budgets[head := chain + [amount]]), [head])
  }

  /** A line moved between heads moves both. */
  function WithAttribution(l: Ledger, t: Target, head: Id): Ledger {
    var k := RowFor(l.carried, t);
    if k < |l.carried| then
      Evaluated(l.(carried := l.carried[k := Carried(t, head)]), [l.carried[k].head, head])
    else Evaluated(l.(carried := l.carried + [Carried(t, head)]), [head])
  }

  function Written(l: Ledger, w: Write): Ledger
    requires Wellformed(l.state)
  {
    match w
    case OnClaims(c) => (
      match Apply(l.state, c)
      case Refused => l
      case Done(next) => Evaluated(l.(state := next), HeadsOf(l.carried, Named(l.state, c)))
    )
    case SetsBudget(head, amount) => WithBudget(l, head, amount)
    case Attributes(t, head) => WithAttribution(l, t, head)
  }

  /** Evaluating every head whose breach may have changed keeps the register right. */
  lemma AgreesAfter(was: Ledger, now: Ledger, heads: seq<Id>)
    requires Agrees(was) && now.register == was.register
    requires forall head :: head !in heads ==> Breached(now, head) == Breached(was, head)
    ensures Agrees(Evaluated(now, heads))
    ensures Evaluated(now, heads).state == now.state
  {
    forall head
      ensures OpenOn(Evaluated(now, heads).register, head) == if Breached(Evaluated(now, heads), head) then 1 else 0
    {
      EvaluatedCounts(now, heads, head);
    }
    EvaluatedCounts(now, heads, 0);
  }

  lemma UnnamedHeadsKeep(l: Ledger, c: Command, head: Id)
    requires Inv(l.state) && Wellformed(l.state) && Apply(l.state, c).Done?
    requires head !in HeadsOf(l.carried, Named(l.state, c))
    ensures ExposureOf(l.(state := Apply(l.state, c).state), head) == ExposureOf(l, head)
  {
    var next, named := Apply(l.state, c).state, Named(l.state, c);
    forall k | 0 <= k < |l.carried|
      ensures CarriesWhole(next, head)(l.carried[k]) == CarriesWhole(l.state, head)(l.carried[k])
    {
      if l.carried[k].head == head {
        if l.carried[k].target in named {
          HeadsOfAll(l.carried, named, k);
        } else {
          UnnamedLinesKeep(l.state, c, l.carried[k].target);
        }
      }
    }
    SumSame(l.carried, CarriesWhole(next, head), CarriesWhole(l.state, head));
    HeadIsItsLines(next, l.carried, head);
    HeadIsItsLines(l.state, l.carried, head);
  }

  lemma ClaimsKeepAgreement(l: Ledger, c: Command)
    requires Inv(l.state) && Wellformed(l.state) && Agrees(l) && Apply(l.state, c).Done?
    ensures Agrees(Written(l, OnClaims(c))) && Written(l, OnClaims(c)).state == Apply(l.state, c).state
  {
    var now, heads := l.(state := Apply(l.state, c).state), HeadsOf(l.carried, Named(l.state, c));
    forall head | head !in heads
      ensures Breached(now, head) == Breached(l, head)
    {
      UnnamedHeadsKeep(l, c, head);
    }
    AgreesAfter(l, now, heads);
  }

  lemma OtherHeadsKeep(s: State, was: seq<Carried>, now: seq<Carried>, head: Id)
    requires |now| == |was|
    requires forall k :: 0 <= k < |was| && was[k] != now[k] ==> was[k].head != head && now[k].head != head
    ensures Whole(HeadSix(s, now, head)) == Whole(HeadSix(s, was, head))
  {
    forall k | 0 <= k < |was|
      ensures CarriesWhole(s, head)(was[k]) == CarriesWhole(s, head)(now[k])
    {
    }
    SumPointwise(was, now, CarriesWhole(s, head));
    HeadIsItsLines(s, was, head);
    HeadIsItsLines(s, now, head);
  }

  lemma AttributionKeepsAgreement(l: Ledger, t: Target, head: Id)
    requires Agrees(l)
    ensures Agrees(WithAttribution(l, t, head)) && WithAttribution(l, t, head).state == l.state
  {
    var k := RowFor(l.carried, t);
    if k < |l.carried| {
      var now := l.(carried := l.carried[k := Carried(t, head)]);
      forall other | other !in [l.carried[k].head, head]
        ensures Breached(now, other) == Breached(l, other)
      {
        assert other != l.carried[k].head && other != head;
        OtherHeadsKeep(l.state, l.carried, now.carried, other);
      }
      AgreesAfter(l, now, [l.carried[k].head, head]);
    } else {
      var row := Carried(t, head);
      var now := l.(carried := l.carried + [row]);
      forall other | other !in [head]
        ensures Breached(now, other) == Breached(l, other)
      {
        assert other != head;
        HeadIsItsLines(l.state, l.carried, other);
        HeadIsItsLines(l.state, now.carried, other);
        SumAppend(l.carried, [row], CarriesWhole(l.state, other));
        SumOne(row, CarriesWhole(l.state, other));
      }
      AgreesAfter(l, now, [head]);
    }
  }

  lemma BudgetKeepsAgreement(l: Ledger, head: Id, amount: nat)
    requires Agrees(l)
    ensures Agrees(WithBudget(l, head, amount)) && WithBudget(l, head, amount).state == l.state
  {
    if !(Budgeted(l.budgets, head) && BudgetOf(l.budgets, head) == amount) {
      var chain := if head in l.budgets then l.budgets[head] else [];
      var now := l.(budgets := l.budgets[head := chain + [amount]]);
      forall other | other !in [head]
        ensures Breached(now, other) == Breached(l, other)
      {
        assert other != head;
        assert ExposureOf(now, other) == ExposureOf(l, other);
      }
      AgreesAfter(l, now, [head]);
    }
  }

  const NO_MONEY := Ledger(EMPTY, [], map[], [])

  /** The ledger a run of writes reaches. */
  ghost function Kept(run: seq<Write>): (l: Ledger)
    ensures Inv(l.state)
  {
    if |run| == 0 then NO_MONEY else
    var l, w := Kept(run[..|run| - 1]), run[|run| - 1];
    InvWellformed(l.state);
    WriteKeepsState(l, w);
    Written(l, w)
  }

  lemma {:induction false} EvaluatedKeepsState(l: Ledger, heads: seq<Id>)
    ensures Evaluated(l, heads).state == l.state
  {
    if |heads| > 0 {
      EvaluatedKeepsState(l, heads[..|heads| - 1]);
    }
  }

  lemma WriteKeepsState(l: Ledger, w: Write)
    requires Inv(l.state) && Wellformed(l.state)
    ensures Inv(Written(l, w).state)
  {
    match w
    case OnClaims(c) =>
      if Apply(l.state, c).Done? {
        KeepsApply(l.state, c);
        EvaluatedKeepsState(l.(state := Apply(l.state, c).state), HeadsOf(l.carried, Named(l.state, c)));
      }
    case SetsBudget(head, amount) =>
      var chain := if head in l.budgets then l.budgets[head] else [];
      EvaluatedKeepsState(l.(budgets := l.budgets[head := chain + [amount]]), [head]);
    case Attributes(t, head) =>
      var k := RowFor(l.carried, t);
      if k < |l.carried| {
        EvaluatedKeepsState(l.(carried := l.carried[k := Carried(t, head)]), [l.carried[k].head, head]);
      } else {
        EvaluatedKeepsState(l.(carried := l.carried + [Carried(t, head)]), [head]);
      }
  }

  /** Every write keeps the register equal to the fold. */
  lemma WriteKeepsAgreement(l: Ledger, w: Write)
    requires Inv(l.state) && Wellformed(l.state) && Agrees(l)
    ensures Agrees(Written(l, w))
  {
    match w
    case OnClaims(c) =>
      if Apply(l.state, c).Done? {
        ClaimsKeepAgreement(l, c);
      }
    case SetsBudget(head, amount) => BudgetKeepsAgreement(l, head, amount);
    case Attributes(t, head) => AttributionKeepsAgreement(l, t, head);
  }

  lemma {:induction false} KeptAgrees(run: seq<Write>)
    ensures Agrees(Kept(run))
  {
    if |run| > 0 {
      var l := Kept(run[..|run| - 1]);
      KeptAgrees(run[..|run| - 1]);
      InvWellformed(l.state);
      WriteKeepsAgreement(l, run[|run| - 1]);
    }
  }

  /** THE REGISTER AGREES WITH THE FOLD. After any run of claim, order, evidence, money, budget and
      attribution writes, a head has exactly one open exception if it is budgeted below its exposure,
      and none otherwise. */
  lemma RegisterAgreesInEveryRun(run: seq<Write>, head: Id)
    ensures OpenOn(Kept(run).register, head) ==
            if Budgeted(Kept(run).budgets, head) && BudgetOf(Kept(run).budgets, head) < ExposureOf(Kept(run), head)
            then 1
            else 0
  {
    KeptAgrees(run);
  }
}
