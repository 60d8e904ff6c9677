/** What the figures of a line and the buckets of a head are worth, in terms of the recorded money: a
    claim's lines, its certificate, its cash, and the order's terms. */
module PositionLaws {
  import opened Sums
  import opened Claims
  import opened Draws
  import opened Commands
  import opened CommandLaws
  import opened Safety
  import opened Runs
  import opened Rounding
  import opened Positions
  import opened Register

  // ── a claim's money, line by line ────────────────────────────────────────────────────────────

  /** A claim line's money counts on its own purchase-order line. */
  lemma LineMoneyCounts(lines: seq<ClaimLine>, l: ClaimLine, t: Target)
    ensures LineAmount([], t) == 0.0
    ensures LineAmount(lines + [l], t) == LineAmount(lines, t) + if l.target == t then l.amount else 0.0
  {
    SumAppend(lines, [l], AmountTo(t));
    SumOne(l, AmountTo(t));
  }

  function Part(lines: seq<ClaimLine>): Target -> real { (t: Target) => LineAmount(lines, t) }

  function TargetOf(): ClaimLine -> Target { (l: ClaimLine) => l.target }

  function Same(): Target -> Target { (t: Target) => t }

  /** Taken line by line, a claim's money is all its money. */
  lemma PartsAreWhole(lines: seq<ClaimLine>)
    ensures Sum(TargetsOf(lines), Part(lines)) == Sum(lines, AmountOf())
  {
    var ts := TargetsOf(lines);
    TargetsOfClaim(lines);
    forall i | 0 <= i < |lines|
      ensures exists j :: 0 <= j < |ts| && Same()(ts[j]) == TargetOf()(lines[i])
    {
      assert Touches(lines, lines[i].target);
      var j :| 0 <= j < |ts| && ts[j] == lines[i].target;
      assert Same()(ts[j]) == TargetOf()(lines[i]);
    }
    forall i, j | 0 <= i < j < |ts|
      ensures Same()(ts[i]) != Same()(ts[j])
    {
      assert Before(ts[i], ts[j]);
    }
    SharesCover(lines, TargetOf(), AmountOf(), ts, Same());
    forall j | 0 <= j < |ts|
      ensures OwnShare(lines, TargetOf(), AmountOf(), Same())(ts[j]) == Part(lines)(ts[j])
    {
      SumSame(lines, KeyedTo(TargetOf(), AmountOf(), ts[j]), AmountTo(ts[j]));
    }
    SumSame(ts, OwnShare(lines, TargetOf(), AmountOf(), Same()), Part(lines));
  }

  function ShareAt(b: Bill, amount: real): Target -> real
    requires |b.versions| > 0
  {
    (t: Target) => ShareOn(b, t, amount)
  }

  lemma ScaledSharesSum(b: Bill, amount: real, total: real, ts: seq<Target>)
    requires |b.versions| > 0 && total == ClaimedAmount(b) != 0.0
    ensures Sum(ts, ShareAt(b, amount)) == (amount / total) * Sum(ts, Part(Current(b).lines))
  {
    forall j | 0 <= j < |ts|
      ensures ShareAt(b, amount)(ts[j]) == (amount / total) * Part(Current(b).lines)(ts[j])
    {
      Proportion(amount, LineAmount(Current(b).lines, ts[j]), total);
    }
    SumScale(ts, amount / total, Part(Current(b).lines), ShareAt(b, amount));
  }

  /** What is shared over a claim's lines is shared in full. */
  lemma SharesAreWhole(b: Bill, amount: real)
    requires |b.versions| > 0 && ClaimedAmount(b) != 0.0
    ensures Sum(TargetsOf(Current(b).lines), ShareAt(b, amount)) == amount
  {
    ScaledSharesSum(b, amount, ClaimedAmount(b), TargetsOf(Current(b).lines));
    PartsAreWhole(Current(b).lines);
    Quotient(amount, ClaimedAmount(b));
  }

  function OnLine(f: Target -> (Bill -> real), b: Bill): Target -> real { (t: Target) => f(t)(b) }

  /** A bill past certification whose last certificate stands for its current version. */
  predicate Standing(b: Bill) {
    && b.status in {Certified, ApprovedForPayment, PartPaid, Paid} && |b.versions| > 0 && |b.certificates| > 0
    && !b.certificates[|b.certificates| - 1].superseded
    && b.certificates[|b.certificates| - 1].version == b.versions[|b.versions| - 1].number
  }

  /** On a standing bill the figures are its claim's money and shares of what is recorded. */
  lemma FiguresAreShares(b: Bill, t: Target)
    requires Standing(b)
    ensures var c := b.certificates[|b.certificates| - 1];
            && BilledOf(t)(b) == LineAmount(b.versions[|b.versions| - 1].lines, t)
            && CertifiedOf(t)(b) == ShareOn(b, t, c.amount) && WithheldOf(t)(b) == ShareOn(b, t, c.withheld)
            && ApprovedOf(t)(b) == ShareOn(b, t, c.approved) && PaidOf(t)(b) == ShareOn(b, t, b.paid)
  {
  }

  /** EACH FIGURE IS WORTH WHAT IS RECORDED. Added over the lines of its claim, what a certified bill has
      billed, certified, withheld, approved and paid is its claim, its certificate's three amounts and
      its cash. */
  lemma FiguresAreTheMoney(b: Bill)
    requires Standing(b) && Sum(b.versions[|b.versions| - 1].lines, AmountOf()) != 0.0
    ensures var ts := TargetsOf(b.versions[|b.versions| - 1].lines); var c := b.certificates[|b.certificates| - 1];
            && Sum(ts, OnLine(BilledOf, b)) == Sum(b.versions[|b.versions| - 1].lines, AmountOf())
            && Sum(ts, OnLine(CertifiedOf, b)) == c.amount
            && Sum(ts, OnLine(WithheldOf, b)) == c.withheld
            && Sum(ts, OnLine(ApprovedOf, b)) == c.approved
            && Sum(ts, OnLine(PaidOf, b)) == b.paid
  {
    var lines, c := b.versions[|b.versions| - 1].lines, b.certificates[|b.certificates| - 1];
    var ts := TargetsOf(lines);
    PartsAreWhole(lines);
    forall t
      ensures OnLine(BilledOf, b)(t) == Part(lines)(t)
      ensures OnLine(CertifiedOf, b)(t) == ShareAt(b, c.amount)(t)
      ensures OnLine(WithheldOf, b)(t) == ShareAt(b, c.withheld)(t)
      ensures OnLine(ApprovedOf, b)(t) == ShareAt(b, c.approved)(t)
      ensures OnLine(PaidOf, b)(t) == ShareAt(b, b.paid)(t)
    {
      FiguresAreShares(b, t);
    }
    SumSame(ts, OnLine(BilledOf, b), Part(lines));
    SumSame(ts, OnLine(CertifiedOf, b), ShareAt(b, c.amount));
    SumSame(ts, OnLine(WithheldOf, b), ShareAt(b, c.withheld));
    SumSame(ts, OnLine(ApprovedOf, b), ShareAt(b, c.approved));
    SumSame(ts, OnLine(PaidOf, b), ShareAt(b, b.paid));
    SharesAreWhole(b, c.amount);
    SharesAreWhole(b, c.withheld);
    SharesAreWhole(b, c.approved);
    SharesAreWhole(b, b.paid);
  }

  /** A line's share of an amount is to the amount what its money is to the claim's. */
  lemma ShareFallsByMoney(b: Bill, t: Target, amount: real)
    requires |b.versions| > 0 && ClaimedAmount(b) != 0.0
    ensures ShareOn(b, t, amount) * ClaimedAmount(b) == amount * LineAmount(b.versions[|b.versions| - 1].lines, t)
  {
    Quotient(amount * LineAmount(Current(b).lines, t), ClaimedAmount(b));
  }

  /** And each falls on a line in proportion to the claim's money there. */
  lemma FiguresFallByMoney(b: Bill, t: Target)
    requires Standing(b) && Sum(b.versions[|b.versions| - 1].lines, AmountOf()) != 0.0
    ensures var lines := b.versions[|b.versions| - 1].lines; var c := b.certificates[|b.certificates| - 1];
            && BilledOf(t)(b) == LineAmount(lines, t)
            && CertifiedOf(t)(b) * Sum(lines, AmountOf()) == c.amount * LineAmount(lines, t)
            && WithheldOf(t)(b) * Sum(lines, AmountOf()) == c.withheld * LineAmount(lines, t)
            && ApprovedOf(t)(b) * Sum(lines, AmountOf()) == c.approved * LineAmount(lines, t)
            && PaidOf(t)(b) * Sum(lines, AmountOf()) == b.paid * LineAmount(lines, t)
  {
    var c := b.certificates[|b.certificates| - 1];
    FiguresAreShares(b, t);
    ShareFallsByMoney(b, t, c.amount);
    ShareFallsByMoney(b, t, c.withheld);
    ShareFallsByMoney(b, t, c.approved);
    ShareFallsByMoney(b, t, b.paid);
  }

  /** A bill no certificate stands for is certified, withheld and approved nothing, and one that is not
      live counts nowhere. */
  lemma OthersCountNothing(b: Bill, t: Target)
    ensures b.status in {Draft, Rejected, Disputed, Resolved} ==>
              BilledOf(t)(b) == CertifiedOf(t)(b) == WithheldOf(t)(b) == ApprovedOf(t)(b) == PaidOf(t)(b) == 0.0
    ensures b.status in {Submitted, UnderVerification, Verified} && |b.versions| > 0 ==>
              BilledOf(t)(b) == LineAmount(b.versions[|b.versions| - 1].lines, t)
    ensures b.certificates == [] || b.certificates[|b.certificates| - 1].superseded ==>
              CertifiedOf(t)(b) == WithheldOf(t)(b) == ApprovedOf(t)(b) == 0.0
    ensures |b.versions| > 0 && Sum(b.versions[|b.versions| - 1].lines, AmountOf()) == 0.0 ==>
              CertifiedOf(t)(b) == WithheldOf(t)(b) == ApprovedOf(t)(b) == PaidOf(t)(b) == 0.0
  {
  }

  /** Cash falls on the lines of a live claim whether or not a certificate stands for it. */
  lemma CashFallsByMoney(b: Bill, t: Target)
    requires b.status !in {Draft, Rejected, Disputed, Resolved} && |b.versions| > 0
    requires Sum(b.versions[|b.versions| - 1].lines, AmountOf()) != 0.0
    ensures PaidOf(t)(b) * Sum(b.versions[|b.versions| - 1].lines, AmountOf()) ==
            b.paid * LineAmount(b.versions[|b.versions| - 1].lines, t)
  {
    assert PaidOf(t)(b) == ShareOn(b, t, b.paid);
    ShareFallsByMoney(b, t, b.paid);
  }

  /** A line's figures are its evidence and those sums over the bills. */
  lemma FiguresAdd(s: State, b: Bill, t: Target)
    requires t in s.orders
    ensures FiguresOn(s.(bills := []), t) == Figures(Evidence(s.orders[t].entries), 0.0, 0.0, 0.0, 0.0, 0.0)
    ensures var f, g := FiguresOn(s, t), FiguresOn(s.(bills := s.bills + [b]), t);
            && g.accepted == f.accepted && g.billed == f.billed + BilledOf(t)(b)
            && g.certified == f.certified + CertifiedOf(t)(b) && g.withheld == f.withheld + WithheldOf(t)(b)
            && g.approved == f.approved + ApprovedOf(t)(b) && g.paid == f.paid + PaidOf(t)(b)
  {
    SumAppend(s.bills, [b], BilledOf(t));
    SumAppend(s.bills, [b], CertifiedOf(t));
    SumAppend(s.bills, [b], WithheldOf(t));
    SumAppend(s.bills, [b], ApprovedOf(t));
    SumAppend(s.bills, [b], PaidOf(t));
    SumOne(b, BilledOf(t));
    SumOne(b, CertifiedOf(t));
    SumOne(b, WithheldOf(t));
    SumOne(b, ApprovedOf(t));
    SumOne(b, PaidOf(t));
  }

  // ── the buckets of a line ────────────────────────────────────────────────────────────────────

  /** What a line received is worth, on the order's own terms: measured work and goods up to the order are
      its part of the landed amount, goods over it the rate for each unit beside the tax and freight. */
  lemma ReceivedInTerms(kind: Kind, o: Order, accepted: real)
    requires o.qty > 0.0
    ensures kind == Labour || accepted <= o.qty ==>
              ReceivedValue(kind, TermsOf(o), accepted) * o.qty == (o.rate * o.qty + o.tax + o.freight) * accepted
    ensures kind == Material && accepted >= o.qty ==>
              ReceivedValue(kind, TermsOf(o), accepted) == o.rate * accepted + o.tax + o.freight
  {
    var terms := TermsOf(o);
    ReceivedInFull(terms, accepted);
    if kind == Labour || accepted <= o.qty {
      Quotient(Base(terms) * accepted, o.qty);
    }
    if kind == Material && accepted >= o.qty {
      Scaled(o.tax + o.freight, 0.0, o.qty);
    }
  }

  /** What still binds of an order: all of it, or what was received when it was closed short. */
  function Binding(o: Order): real { if o.closedShort && o.received < o.qty then o.received else o.qty }

  lemma ClampedPart(base: real, rest: real, qty: real)
    requires base >= 0.0 && qty > 0.0
    ensures Residual(base * rest / qty) * qty == if rest <= 0.0 then 0.0 else base * rest
  {
    Quotient(base * rest, qty);
    Scaled(0.0, 0.0, qty);
    if rest >= 0.0 {
      ProductNonneg(base, rest);
      QuotientGrows(0.0, base * rest, qty);
    } else {
      ProductNonneg(base, -rest);
      QuotientGrows(base * rest, 0.0, qty);
    }
  }

  lemma LeftOfTheOrder(o: Order, accepted: real)
    requires o.qty > 0.0 && Base(TermsOf(o)) >= 0.0
    ensures Base(TermsOf(o)) - ConsumedValue(TermsOf(o), accepted) - Released(TermsOf(o)) ==
            Base(TermsOf(o)) * (Binding(o) - accepted) / o.qty
  {
    var base, rest := Base(TermsOf(o)), Binding(o) - accepted;
    KeptWorth(TermsOf(o));
    assert Positions.Kept(TermsOf(o)) == rest + accepted;
    assert base * (rest + accepted) == base * rest + base * accepted;
    Scaled(base * rest, base * accepted, o.qty);
  }

  /** The committed bucket is the landed amount of what still binds and is not accepted yet. */
  lemma CommittedInTerms(kind: Kind, o: Order, f: Figures)
    requires o.qty > 0.0 && o.rate * o.qty + o.tax + o.freight >= 0.0
    ensures var committed := BucketsOf(kind, TermsOf(o), f).committed;
            committed * o.qty ==
            if f.accepted >= Binding(o) then 0.0
            else (o.rate * o.qty + o.tax + o.freight) * (Binding(o) - f.accepted)
  {
    LeftOfTheOrder(o, f.accepted);
    ClampedPart(Base(TermsOf(o)), Binding(o) - f.accepted, o.qty);
  }

  /** IN EVERY REACHABLE STATE the later buckets of a live line are what each stage of the money leaves
      to the next: paid, approved and unpaid, certified less withheld and unapproved, billed and not yet
      certified, received and not yet billed. */
  lemma BucketsHandOn(s: State, t: Target)
    requires Inv(s) && t in s.orders && s.orders[t].live
    ensures var b, f := LineSix(s, t), FiguresOn(s, t);
            var worth := ReceivedValue(t.kind, TermsOf(s.orders[t]), f.accepted);
            && b.paid == f.paid && b.approved + b.paid == f.approved
            && b.certifiedPayable + b.approved + b.paid == f.certified - f.withheld
            && b.awaitingCertification == f.billed - f.certified
            && (f.billed <= worth ==> b.receivedNotBilled + f.billed == worth)
            && (f.billed > worth ==> b.receivedNotBilled == 0.0)
  {
    LineStaged(s, t);
  }

  /** What an open material line owes: the rate on whichever is more of what was ordered and what was
      accepted, the tax and the freight. */
  lemma ObligationInTerms(o: Order, accepted: real)
    ensures Obligation(TermsOf(o), accepted) ==
            o.rate * (if accepted > o.qty then accepted else o.qty) + o.tax + o.freight
  {
    assert o.rate * accepted == o.rate * o.qty + o.rate * (accepted - o.qty);
    assert o.rate * 0.0 == 0.0;
  }

  // ── what moves an exposure ───────────────────────────────────────────────────────────────────

  /** What a bill withholds under a certificate that stands for its current claim. */
  function InForce(b: Bill): real {
    if Standing(b) then b.certificates[|b.certificates| - 1].withheld else 0.0
  }

  lemma WithheldIsInForce(b: Bill, orders: map<Target, Order>, t: Target)
    requires BillOk(b, orders)
    ensures WithheldOf(t)(b) == ShareOn(b, t, InForce(b))
  {
    SharesWhole(b, t);
    if Standing(b) {
      FiguresAreShares(b, t);
    } else {
      assert !Certificated(b) || !PastCertification(b.status);
    }
  }

  lemma LineMovesWithItsBill(s: State, c: Command, t: Target, next: State)
    requires Inv(s) && Wellformed(s) && OnMoney(c) && c.bill < |s.bills| && Apply(s, c) == Done(next)
    requires t in s.orders && s.orders[t].live
    ensures Inv(next) && ClaimsTheSame(s, next, c.bill) && next.orders == s.orders
    ensures LineExposure(s, t) - LineExposure(next, t) ==
            WithheldOf(t)(next.bills[c.bill]) - WithheldOf(t)(s.bills[c.bill])
  {
    if c.DoCertify? || c.DoSupersede? || c.DoRelease? {
      CertificatesClaimTheSame(s, c);
    } else {
      CashClaimsTheSame(s, c);
    }
    MoneyMovesOnlyWithholdings(s, c, t);
    KeepsApply(s, c);
    MoneyKeepsClaims(s, c, t);
    SumUpdate(s.bills, c.bill, next.bills[c.bill], WithheldOf(t));
  }

  /** WITHHOLDING MOVES EXPOSURE, AND NOTHING ELSE DOES. Whatever is done to a claim's certificate or its
      money, a line's exposure and its share of what the claim withholds in force add up to the same. */
  lemma WithholdingMovesExposure(s: State, c: Command, t: Target, next: State)
    requires Inv(s) && Wellformed(s) && OnMoney(c) && c.bill < |s.bills| && Apply(s, c) == Done(next)
    requires t in s.orders && s.orders[t].live
    ensures c.bill < |next.bills| && |s.bills[c.bill].versions| > 0 && |next.bills[c.bill].versions| > 0
    ensures LineExposure(next, t) + ShareOn(next.bills[c.bill], t, InForce(next.bills[c.bill])) ==
            LineExposure(s, t) + ShareOn(s.bills[c.bill], t, InForce(s.bills[c.bill]))
  {
    LineMovesWithItsBill(s, c, t, next);
    var a, b := s.bills[c.bill], next.bills[c.bill];
    assert BillOk(a, s.orders) && BillOk(b, next.orders);
    WithheldIsInForce(a, s.orders, t);
    WithheldIsInForce(b, s.orders, t);
  }

  lemma WithholdsMore(s: State, i: nat, amount: real)
    requires Inv(s) && i < |s.bills| && Withhold(s, i, amount).Done?
    ensures i < |Withhold(s, i, amount).state.bills| && VersionsOk(s.bills[i])
    ensures Withhold(s, i, amount).state.bills[i].versions == s.bills[i].versions
    ensures InForce(Withhold(s, i, amount).state.bills[i]) == InForce(s.bills[i]) + amount
    ensures ClaimedAmount(s.bills[i]) > 0.0
  {
    var b := s.bills[i];
    assert BillOk(b, s.orders);
    WithholdExactly(s, i, amount);
  }

  /** So withholding money from a claim lowers each of its lines by the line's share of it. */
  lemma WithholdLowersExposure(s: State, i: nat, amount: real, t: Target, next: State)
    requires Inv(s) && Wellformed(s) && i < |s.bills| && Withhold(s, i, amount) == Done(next)
    requires t in s.orders && s.orders[t].live
    ensures VersionsOk(s.bills[i]) && ClaimedAmount(s.bills[i]) > 0.0
    ensures LineExposure(next, t) == LineExposure(s, t) - ShareOn(s.bills[i], t, amount)
  {
    var b := s.bills[i];
    WithholdsMore(s, i, amount);
    WithholdingMovesExposure(s, DoWithhold(i, amount), t, next);
    SharesAdd(b, t, InForce(b), amount);
    SameClaimSameShare(next.bills[i], b, t, InForce(next.bills[i]));
  }

  // ── the position of a head ───────────────────────────────────────────────────────────────────

  /** A head is the sum, bucket by bucket, of the lines its attribution carries and that still stand. */
  lemma HeadAdds(s: State, rows: seq<Carried>, row: Carried, head: Id)
    ensures HeadSix(s, [], head) == Six(0.0, 0.0, 0.0, 0.0, 0.0, 0.0)
    ensures row.head != head || row.target !in s.orders || !s.orders[row.target].live ==>
            HeadSix(s, rows + [row], head) == HeadSix(s, rows, head)
    ensures var a, b, line := HeadSix(s, rows, head), HeadSix(s, rows + [row], head), LineSix(s, row.target);
            row.head == head ==>
              b == Six(a.committed + line.committed, a.receivedNotBilled + line.receivedNotBilled,
                       a.awaitingCertification + line.awaitingCertification,
                       a.certifiedPayable + line.certifiedPayable, a.approved + line.approved, a.paid + line.paid)
  {
    var all := rows + [row];
    assert all[..|rows| + 1] == all && all[..|rows|] == rows;
    PrefixStep(s, all, |rows|, head);
  }

  /** A head is breached when it has a budget and its lines are exposed for half a paisa or more over the
      last revision of it. */
  lemma BreachedExactly(l: Ledger, head: Id)
    ensures Breached(l, head) <==>
            && head in l.budgets && |l.budgets[head]| > 0
            && Sum(l.carried, CarriesWhole(l.state, head)) * 100.0 >=
               l.budgets[head][|l.budgets[head]| - 1] as real + 0.5
  {
    var whole := Sum(l.carried, CarriesWhole(l.state, head));
    HeadIsItsLines(l.state, l.carried, head);
    if head in l.budgets && |l.budgets[head]| > 0 {
      var budget := l.budgets[head][|l.budgets[head]| - 1];
      if whole >= 0.0 {
        RoundsHalfAway(whole, Paise(whole));
      } else {
        RoundsHalfAway(-whole, Paise(-whole));
      }
    }
  }
}
