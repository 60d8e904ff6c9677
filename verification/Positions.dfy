/** The money position of a cost head: six clamped residual buckets over its purchase-order lines,
    each the part of one fold that the next has not yet taken. */
module Positions {
  import opened Sums
  import opened Claims
  import opened Commands
  import opened Rounding

  // ── the folds of one line ────────────────────────────────────────────────────────────────────

  function AmountTo(t: Target): ClaimLine -> real {
    (l: ClaimLine) => if l.target == t then l.amount else 0.0
  }

  function LineAmount(lines: seq<ClaimLine>, t: Target): real { Sum(lines, AmountTo(t)) }

  /** A certificate that stands and names the claim's current version. */
  predicate Certificated(b: Bill) {
    |b.versions| > 0 && |b.certificates| > 0 && !Last(b).superseded && Last(b).version == Current(b).number
  }

  /** A line's share of a bill-scoped amount, by its claimed money over the whole version's. */
  function ShareOn(b: Bill, t: Target, amount: real): real
    requires |b.versions| > 0
  {
    if ClaimedAmount(b) == 0.0 then 0.0 else amount * LineAmount(Current(b).lines, t) / ClaimedAmount(b)
  }

  function BilledOf(t: Target): Bill -> real {
    (b: Bill) => if IsLive(b.status) && |b.versions| > 0 then LineAmount(Current(b).lines, t) else 0.0
  }

  function CertifiedOf(t: Target): Bill -> real {
    (b: Bill) => if IsLive(b.status) && Certificated(b) then ShareOn(b, t, Last(b).amount) else 0.0
  }

  function WithheldOf(t: Target): Bill -> real {
    (b: Bill) => if IsLive(b.status) && Certificated(b) then ShareOn(b, t, Last(b).withheld) else 0.0
  }

  function ApprovedOf(t: Target): Bill -> real {
    (b: Bill) => if IsLive(b.status) && Certificated(b) then ShareOn(b, t, Last(b).approved) else 0.0
  }

  /** Cash is bill-scoped: it outlives a corrected certificate. */
  function PaidOf(t: Target): Bill -> real {
    (b: Bill) => if IsLive(b.status) && |b.versions| > 0 then ShareOn(b, t, b.paid) else 0.0
  }

  datatype Figures = Figures(accepted: real, billed: real, certified: real, withheld: real, approved: real, paid: real)

  function FiguresOn(s: State, t: Target): Figures
    requires t in s.orders
  {
    Figures(Evidence(s.orders[t].entries), Sum(s.bills, BilledOf(t)), Sum(s.bills, CertifiedOf(t)),
            Sum(s.bills, WithheldOf(t)), Sum(s.bills, ApprovedOf(t)), Sum(s.bills, PaidOf(t)))
  }

  // ── the buckets of one line ──────────────────────────────────────────────────────────────────

  /** The terms of an order that money is computed from. */
  datatype Terms = Terms(qty: real, rate: real, tax: real, freight: real, received: real, closedShort: bool)

  function TermsOf(o: Order): Terms { Terms(o.qty, o.rate, o.tax, o.freight, o.received, o.closedShort) }

  /** The frozen landed amount of an order. */
  function Base(o: Terms): real { o.rate * o.qty + o.tax + o.freight }

  function ConsumedValue(o: Terms, accepted: real): real {
    if o.qty == 0.0 then 0.0 else Base(o) * accepted / o.qty
  }

  /** The unreceived remainder of a version closed short. */
  function Released(o: Terms): real {
    if o.closedShort && o.qty != 0.0 then Base(o) * Max(o.qty - o.received, 0.0) / o.qty else 0.0
  }

  /** Overage is quantity, so it is valued at the rate alone; measured work is the prorated amount. */
  function ReceivedValue(kind: Kind, o: Terms, accepted: real): real {
    if o.qty == 0.0 then 0.0
    else if kind == Labour then ConsumedValue(o, accepted)
    else o.rate * accepted + (o.tax + o.freight) * Min(accepted, o.qty) / o.qty
  }

  function Residual(x: real): real { Max(x, 0.0) }

  function BucketsOf(kind: Kind, o: Terms, f: Figures): Six {
    Six(Residual(Base(o) - ConsumedValue(o, f.accepted) - Released(o)),
        Residual(ReceivedValue(kind, o, f.accepted) - f.billed),
        Residual(f.billed - f.certified),
        Residual(f.certified - f.withheld - f.approved),
        Residual(f.approved - f.paid),
        f.paid)
  }

  /** Each stage of the money is within the one before it. */
  predicate Staged(kind: Kind, o: Terms, f: Figures) {
    f.paid <= f.approved <= f.certified - f.withheld && f.certified <= f.billed <= ReceivedValue(kind, o, f.accepted)
  }

  /** What the received side is worth, in terms of the order: the consumed value up to the ordered
      quantity, and the whole order and the rate for each unit over it. */
  lemma ReceivedInFull(o: Terms, accepted: real)
    requires o.qty > 0.0
    ensures accepted <= o.qty ==> ReceivedValue(Material, o, accepted) == ConsumedValue(o, accepted)
    ensures accepted >= o.qty ==> ReceivedValue(Material, o, accepted) == Base(o) + o.rate * (accepted - o.qty)
  {
    var extra := o.tax + o.freight;
    if accepted <= o.qty {
      assert Base(o) * accepted == o.rate * accepted * o.qty + extra * accepted;
      Scaled(o.rate * accepted * o.qty, extra * accepted, o.qty);
      Scaled(o.rate * accepted, 0.0, o.qty);
    }
    if accepted >= o.qty {
      Scaled(extra, 0.0, o.qty);
    }
  }

  lemma ConsumedOver(o: Terms, accepted: real)
    requires o.qty > 0.0 && Base(o) >= 0.0
    ensures accepted <= o.qty ==> ConsumedValue(o, accepted) <= Base(o)
    ensures accepted >= o.qty ==> ConsumedValue(o, accepted) >= Base(o)
  {
    var base := Base(o);
    Scaled(base, 0.0, o.qty);
    if accepted <= o.qty {
      ProductGrows(base, accepted, o.qty);
      QuotientGrows(base * accepted, base * o.qty, o.qty);
    }
    if accepted >= o.qty {
      ProductGrows(base, o.qty, accepted);
      QuotientGrows(base * o.qty, base * accepted, o.qty);
    }
  }

  /** What the order and its overage are worth. */
  function Obligation(o: Terms, accepted: real): real { Base(o) + o.rate * Max(accepted - o.qty, 0.0) }

  /** The part of the order that still binds. */
  function Kept(o: Terms): real { if o.closedShort then Min(o.received, o.qty) else o.qty }

  /** What a line owes: the part of the order that still binds, or what was received if that is worth
      more; material over the order is owed in full, the overage at the rate. */
  function Owed(kind: Kind, o: Terms, accepted: real): real
    requires o.qty > 0.0
  {
    if kind == Material && accepted > o.qty then Obligation(o, accepted)
    else Max(Base(o) * Kept(o) / o.qty, ConsumedValue(o, accepted))
  }

  lemma KeptWorth(o: Terms)
    requires o.qty > 0.0 && Base(o) >= 0.0
    ensures Base(o) * Kept(o) / o.qty == Base(o) - Released(o) <= Base(o)
  {
    var rest := o.qty - Kept(o);
    assert Base(o) * o.qty == Base(o) * Kept(o) + Base(o) * rest;
    Scaled(Base(o) * Kept(o), Base(o) * rest, o.qty);
    Scaled(Base(o), 0.0, o.qty);
    Scaled(0.0, 0.0, o.qty);
    ProductNonneg(Base(o), rest);
    QuotientGrows(0.0, Base(o) * rest, o.qty);
  }

  lemma UpToTheOrder(kind: Kind, o: Terms, accepted: real)
    requires o.qty > 0.0 && Base(o) >= 0.0 && (kind == Labour || accepted <= o.qty)
    ensures ReceivedValue(kind, o, accepted) == ConsumedValue(o, accepted)
  {
    if kind == Material {
      ReceivedInFull(o, accepted);
    }
  }

  lemma OverTheOrder(o: Terms, accepted: real)
    requires o.qty > 0.0 && Base(o) >= 0.0 && accepted > o.qty
    ensures ReceivedValue(Material, o, accepted) == Obligation(o, accepted)
    ensures ConsumedValue(o, accepted) >= Base(o)
  {
    ReceivedInFull(o, accepted);
    ConsumedOver(o, accepted);
  }

  lemma ClampsTo(base: real, consumed: real, released: real)
    ensures Residual(base - consumed - released) + consumed == Max(base - released, consumed)
  {
  }

  lemma ReleasedNonneg(o: Terms)
    requires o.qty > 0.0 && Base(o) >= 0.0
    ensures Released(o) >= 0.0
  {
    KeptWorth(o);
  }

  lemma WithinTheOrder(kind: Kind, o: Terms, accepted: real)
    requires o.qty > 0.0 && Base(o) >= 0.0 && (kind == Labour || accepted <= o.qty)
    ensures Residual(Base(o) - ConsumedValue(o, accepted) - Released(o)) + ReceivedValue(kind, o, accepted) ==
            Owed(kind, o, accepted)
  {
    UpToTheOrder(kind, o, accepted);
    KeptWorth(o);
    ClampsTo(Base(o), ConsumedValue(o, accepted), Released(o));
  }

  /** The first two buckets, before anything is billed, are what the line owes. */
  lemma OrderedAndReceived(kind: Kind, o: Terms, accepted: real)
    requires o.qty > 0.0 && Base(o) >= 0.0
    ensures Residual(Base(o) - ConsumedValue(o, accepted) - Released(o)) + ReceivedValue(kind, o, accepted) ==
            Owed(kind, o, accepted)
  {
    if kind == Material && accepted > o.qty {
      OverTheOrder(o, accepted);
      ReleasedNonneg(o);
    } else {
      WithinTheOrder(kind, o, accepted);
    }
  }

  lemma OwedOpen(o: Terms, accepted: real)
    requires o.qty > 0.0 && Base(o) >= 0.0 && !o.closedShort
    ensures Owed(Material, o, accepted) == Obligation(o, accepted)
    ensures Owed(Labour, o, accepted) == Max(Base(o), ConsumedValue(o, accepted))
  {
    KeptWorth(o);
    ConsumedOver(o, accepted);
  }

  lemma OwedClosedShort(kind: Kind, o: Terms, accepted: real)
    requires o.qty > 0.0 && Base(o) >= 0.0 && o.closedShort && accepted <= o.received <= o.qty
    ensures Owed(kind, o, accepted) == Base(o) * o.received / o.qty
  {
    ProductGrows(Base(o), accepted, o.received);
    QuotientGrows(Base(o) * accepted, Base(o) * o.received, o.qty);
  }

  /** THE BUCKETS PARTITION THE MONEY. With each stage within the one before it, a line's exposure is
      what it owes less what is withheld: it does not depend on what is billed, certified, approved or
      paid, so none of those moves it. */
  lemma LinePartition(kind: Kind, o: Terms, f: Figures)
    requires o.qty > 0.0 && Base(o) >= 0.0 && Staged(kind, o, f)
    ensures Whole(BucketsOf(kind, o, f)) == Owed(kind, o, f.accepted) - f.withheld
  {
    OrderedAndReceived(kind, o, f.accepted);
  }

  /** An open material line owes its order and its overage. */
  lemma BucketsPartition(o: Terms, f: Figures)
    requires o.qty > 0.0 && Base(o) >= 0.0 && !o.closedShort && Staged(Material, o, f)
    ensures Whole(BucketsOf(Material, o, f)) == Obligation(o, f.accepted) - f.withheld
  {
    LinePartition(Material, o, f);
    OwedOpen(o, f.accepted);
  }

  /** A line closed short keeps only what was received of it. */
  lemma ClosedShortPartition(kind: Kind, o: Terms, f: Figures)
    requires o.qty > 0.0 && Base(o) >= 0.0 && o.closedShort && Staged(kind, o, f)
    requires f.accepted <= o.received <= o.qty
    ensures Whole(BucketsOf(kind, o, f)) == Base(o) * o.received / o.qty - f.withheld
  {
    LinePartition(kind, o, f);
    OwedClosedShort(kind, o, f.accepted);
  }

  /** Measured work partitions the same way, at the frozen rate. */
  lemma LabourPartition(o: Terms, f: Figures)
    requires o.qty > 0.0 && Base(o) >= 0.0 && !o.closedShort && Staged(Labour, o, f)
    ensures Whole(BucketsOf(Labour, o, f)) == Max(Base(o), ConsumedValue(o, f.accepted)) - f.withheld
  {
    LinePartition(Labour, o, f);
    OwedOpen(o, f.accepted);
  }

  /** Whatever is billed, certified, approved and paid, the clamps never under-report a line of either
      kind, open or closed short. */
  lemma NeverUnderReports(kind: Kind, o: Terms, f: Figures)
    requires o.qty > 0.0 && Base(o) >= 0.0
    ensures Whole(BucketsOf(kind, o, f)) >= Owed(kind, o, f.accepted) - f.withheld
    ensures kind == Material && !o.closedShort ==>
            Whole(BucketsOf(kind, o, f)) >= Obligation(o, f.accepted) - f.withheld
    ensures kind == Labour && !o.closedShort ==>
            Whole(BucketsOf(kind, o, f)) >= Max(Base(o), ConsumedValue(o, f.accepted)) - f.withheld
    ensures o.closedShort && f.accepted <= o.received <= o.qty ==>
              Whole(BucketsOf(kind, o, f)) >= Base(o) * o.received / o.qty - f.withheld
  {
    OrderedAndReceived(kind, o, f.accepted);
    if !o.closedShort {
      OwedOpen(o, f.accepted);
    } else if f.accepted <= o.received <= o.qty {
      OwedClosedShort(kind, o, f.accepted);
    }
  }

  // ── the position of a head ───────────────────────────────────────────────────────────────────

  /** One row of the attribution register: the head that carries a purchase-order line. */
  datatype Carried = Carried(target: Target, head: Id)

  const NOTHING := Six(0.0, 0.0, 0.0, 0.0, 0.0, 0.0)

  function LineSix(s: State, t: Target): Six {
    if t in s.orders && s.orders[t].live then BucketsOf(t.kind, TermsOf(s.orders[t]), FiguresOn(s, t)) else NOTHING
  }

  datatype Bucket = Committed | ReceivedNotBilled | AwaitingCertification | CertifiedPayable | ApprovedUnpaid | PaidOut

  function Pick(bucket: Bucket, b: Six): real {
    match bucket
    case Committed => b.committed
    case ReceivedNotBilled => b.receivedNotBilled
    case AwaitingCertification => b.awaitingCertification
    case CertifiedPayable => b.certifiedPayable
    case ApprovedUnpaid => b.approved
    case PaidOut => b.paid
  }

  function Carries(s: State, head: Id, bucket: Bucket): Carried -> real {
    (c: Carried) => if c.head == head then Pick(bucket, LineSix(s, c.target)) else 0.0
  }

  function HeadSix(s: State, rows: seq<Carried>, head: Id): Six {
    Six(Sum(rows, Carries(s, head, Committed)), Sum(rows, Carries(s, head, ReceivedNotBilled)),
        Sum(rows, Carries(s, head, AwaitingCertification)), Sum(rows, Carries(s, head, CertifiedPayable)),
        Sum(rows, Carries(s, head, ApprovedUnpaid)), Sum(rows, Carries(s, head, PaidOut)))
  }

  function CarriesWhole(s: State, head: Id): Carried -> real {
    (c: Carried) => if c.head == head then Whole(LineSix(s, c.target)) else 0.0
  }

  /** A position as it is reported, in paise. */
  datatype Position = Position(
    budget: Option<nat>, committed: int, receivedNotBilled: int, awaitingCertification: int,
    certifiedPayable: int, approved: int, paid: int, exposure: int, headroom: Option<int>)

  /** What is reported of a head whose exact buckets are `b`: each rounded for display, and the
      headroom from the exposure rounded once. */
  function Reported(b: Six, budget: Option<nat>): Position {
    Position(budget, Paise(b.committed), Paise(b.receivedNotBilled), Paise(b.awaitingCertification),
             Paise(b.certifiedPayable), Paise(b.approved), Paise(b.paid), Paise(Whole(b)),
             if budget.Some? then Some(budget.value - Paise(Whole(b))) else None)
  }

  function BudgetIn(budgets: map<Id, nat>, head: Id): Option<nat> {
    if head in budgets then Some(budgets[head]) else None
  }

  function Plus(a: Six, b: Six): Six {
    Six(a.committed + b.committed, a.receivedNotBilled + b.receivedNotBilled,
        a.awaitingCertification + b.awaitingCertification, a.certifiedPayable + b.certifiedPayable,
        a.approved + b.approved, a.paid + b.paid)
  }

  function Prefix(s: State, rows: seq<Carried>, i: nat, head: Id): Six
    requires i <= |rows|
  {
    HeadSix(s, rows[..i], head)
  }

  lemma CarriesStep(s: State, rows: seq<Carried>, i: nat, head: Id, bucket: Bucket)
    requires i < |rows|
    ensures Sum(rows[..i + 1], Carries(s, head, bucket)) ==
            Sum(rows[..i], Carries(s, head, bucket)) + if rows[i].head == head
                                                       then Pick(bucket, LineSix(s, rows[i].target))
                                                       else 0.0
  {
    SumStep(rows, i, Carries(s, head, bucket));
  }

  lemma PrefixStep(s: State, rows: seq<Carried>, i: nat, head: Id)
    requires i < |rows|
    ensures Prefix(s, rows, i + 1, head) ==
            if rows[i].head == head then Plus(Prefix(s, rows, i, head), LineSix(s, rows[i].target))
            else Prefix(s, rows, i, head)
  {
    var line := LineSix(s, rows[i].target);
    CarriesStep(s, rows, i, head, Committed);
    CarriesStep(s, rows, i, head, ReceivedNotBilled);
    CarriesStep(s, rows, i, head, AwaitingCertification);
    CarriesStep(s, rows, i, head, CertifiedPayable);
    CarriesStep(s, rows, i, head, ApprovedUnpaid);
    CarriesStep(s, rows, i, head, PaidOut);
  }

  lemma WholePlus(a: Six, b: Six)
    ensures Whole(Plus(a, b)) == Whole(a) + Whole(b)
  {
  }

  lemma CarriesWholeStep(s: State, rows: seq<Carried>, i: nat, head: Id)
    requires i < |rows|
    ensures Sum(rows[..i + 1], CarriesWhole(s, head)) ==
            Sum(rows[..i], CarriesWhole(s, head)) + if rows[i].head == head then Whole(LineSix(s, rows[i].target))
                                                    else 0.0
  {
    SumStep(rows, i, CarriesWhole(s, head));
  }

  /** A head's exposure is its lines' exposures added up. */
  lemma {:induction false} HeadIsItsLines(s: State, rows: seq<Carried>, head: Id)
    ensures Whole(HeadSix(s, rows, head)) == Sum(rows, CarriesWhole(s, head))
  {
    if |rows| > 0 {
      var n := |rows| - 1;
      assert rows[..n + 1] == rows;
      HeadIsItsLines(s, rows[..n], head);
      PrefixStep(s, rows, n, head);
      CarriesWholeStep(s, rows, n, head);
      WholePlus(HeadSix(s, rows[..n], head), LineSix(s, rows[n].target));
    }
  }

  /** One head's six accumulators over every attribution row. */
  method Accumulate(s: State, rows: seq<Carried>, head: Id) returns (b: Six)
    ensures b == HeadSix(s, rows, head)
  {
    var committed, receivedNotBilled, awaitingCertification := 0.0, 0.0, 0.0;
    var certifiedPayable, approvedNotPaid, paidBucket := 0.0, 0.0, 0.0;
    for i := 0 to |rows|
      invariant Prefix(s, rows, i, head) ==
                Six(committed, receivedNotBilled, awaitingCertification, certifiedPayable, approvedNotPaid, paidBucket)
    {
      var a := rows[i];
      PrefixStep(s, rows, i, head);
      if a.head != head {
        continue;
      }
      if a.target !in s.orders || !s.orders[a.target].live {
        continue;
      }
      var o, f := TermsOf(s.orders[a.target]), FiguresOn(s, a.target);
      var consumed := ConsumedValue(o, f.accepted);
      var released := Released(o);
      committed := committed + Max(Base(o) - consumed - released, 0.0);
      receivedNotBilled := receivedNotBilled + Max(ReceivedValue(a.target.kind, o, f.accepted) - f.billed, 0.0);
      awaitingCertification := awaitingCertification + Max(f.billed - f.certified, 0.0);
      certifiedPayable := certifiedPayable + Max(f.certified - f.withheld - f.approved, 0.0);
      approvedNotPaid := approvedNotPaid + Max(f.approved - f.paid, 0.0);
      paidBucket := paidBucket + f.paid;
    }
    assert rows[..|rows|] == rows;
    b := Six(committed, receivedNotBilled, awaitingCertification, certifiedPayable, approvedNotPaid, paidBucket);
  }

  /** The positions of the named heads. */
  method PositionsFor(s: State, rows: seq<Carried>, budgets: map<Id, nat>, heads: seq<Id>)
    returns (out: map<Id, Position>)
    ensures forall h :: h in out <==> h in heads
    ensures forall h :: h in heads ==> out[h] == Reported(HeadSix(s, rows, h), BudgetIn(budgets, h))
    ensures forall h :: h in heads ==>
              && out[h].exposure == Paise(Whole(HeadSix(s, rows, h)))
              && out[h].budget == (if h in budgets then Some(budgets[h]) else None)
              && out[h].headroom == (if h in budgets then Some(budgets[h] - out[h].exposure) else None)
  {
    out := map[];
    for i := 0 to |heads|
      invariant forall h :: h in out <==> h in heads[..i]
      invariant forall h :: h in out ==> out[h] == Reported(HeadSix(s, rows, h), BudgetIn(budgets, h))
    {
      var b := Accumulate(s, rows, heads[i]);
      out := out[heads[i] := Reported(b, BudgetIn(budgets, heads[i]))];
    }
    assert heads[..|heads|] == heads;
  }
}
