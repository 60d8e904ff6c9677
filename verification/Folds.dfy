/** What each fold counts: the laws by which a bill, a line, an evidence row or a frozen draw enters
    them, in terms of the recorded fields. */
module Folds {
  import opened Sums
  import opened Claims
  import opened Commands

  /** A live bill claims what the lines of its one current version claim; a draft, rejected, disputed or
      resolved one claims nothing. Only a certified bill counts among the certified. */
  lemma BillCounts(b: Bill, t: Target)
    requires VersionsOk(b)
    ensures b.status in {Draft, Rejected, Disputed, Resolved} ==> BillOn(t)(b) == CertifiedOn(t)(b) == 0.0
    ensures b.status in {Submitted, UnderVerification, Verified} ==>
              BillOn(t)(b) == LineQty(b.versions[|b.versions| - 1].lines, t) && CertifiedOn(t)(b) == 0.0
    ensures b.status in {Certified, ApprovedForPayment, PartPaid, Paid} ==>
              BillOn(t)(b) == CertifiedOn(t)(b) == LineQty(b.versions[|b.versions| - 1].lines, t)
  {
    CurrentQty(b, t);
  }

  /** A claim line adds its quantity to its own purchase-order line, and its money to the claim's. */
  lemma ClaimLineCounts(lines: seq<ClaimLine>, l: ClaimLine, t: Target)
    ensures LineQty([], t) == 0.0 && Sum<ClaimLine>([], AmountOf()) == 0.0
    ensures LineQty(lines + [l], t) == LineQty(lines, t) + if l.target == t then l.quantity else 0.0
    ensures Sum(lines + [l], AmountOf()) == Sum(lines, AmountOf()) + l.amount
  {
    SumAppend(lines, [l], QtyOf(t));
    SumOne(l, QtyOf(t));
    SumAppend(lines, [l], AmountOf());
    SumOne(l, AmountOf());
  }

  /** A bill adds what it claims to the billed fold, and what it has certified to the certified one. */
  lemma BillAdds(bills: seq<Bill>, b: Bill, t: Target)
    ensures Billed([], t) == CertifiedBilled([], t) == 0.0
    ensures Billed(bills + [b], t) == Billed(bills, t) + BillOn(t)(b)
    ensures CertifiedBilled(bills + [b], t) == CertifiedBilled(bills, t) + CertifiedOn(t)(b)
  {
    SumAppend(bills, [b], BillOn(t));
    SumOne(b, BillOn(t));
    SumAppend(bills, [b], CertifiedOn(t));
    SumOne(b, CertifiedOn(t));
  }

  /** A row counts with its sign: towards its line, and towards the original it is or corrects. */
  lemma EntryCounts(entries: seq<Entry>, e: Entry, row: Id)
    ensures Evidence([]) == NetOf([], row) == 0.0
    ensures Evidence(entries + [e]) == Evidence(entries) + e.quantity
    ensures NetOf(entries + [e], row) ==
            NetOf(entries, row) +
            if (e.corrects == None && e.id == row) || e.corrects == Some(row) then e.quantity else 0.0
  {
    SumAppend(entries, [e], QuantityOf());
    SumOne(e, QuantityOf());
    SumAppend(entries, [e], ForRow(row));
    SumOne(e, ForRow(row));
  }

  /** A certificate that stands consumes of a row what it froze there; a superseded one nothing. */
  lemma CertificateCounts(b: Bill, c: Certificate, t: Target, row: Id)
    ensures FrozenOnRow(t, row)(b.(certificates := [])) == 0.0
    ensures FrozenOnRow(t, row)(b.(certificates := b.certificates + [c])) ==
            FrozenOnRow(t, row)(b) + if c.superseded then 0.0 else Sum(c.draws, DrawOnRow(t, row))
  {
    var next := b.certificates + [c];
    assert next[..|next| - 1] == b.certificates;
    if !c.superseded {
      SumAppend(LiveDraws(b.certificates), c.draws, DrawOnRow(t, row));
    } else {
      assert LiveDraws(next) == LiveDraws(b.certificates);
    }
  }

  /** A frozen pair counts on its own row of its own line. */
  lemma DrawCounts(draws: seq<Draw>, d: Draw, t: Target, row: Id)
    ensures Sum<Draw>([], DrawOnRow(t, row)) == Sum<Draw>([], DrawOn(t)) == 0.0
    ensures Sum(draws + [d], DrawOnRow(t, row)) ==
            Sum(draws, DrawOnRow(t, row)) + if d.target == t && d.row == row then d.quantity else 0.0
    ensures Sum(draws + [d], DrawOn(t)) == Sum(draws, DrawOn(t)) + if d.target == t then d.quantity else 0.0
  {
    SumAppend(draws, [d], DrawOnRow(t, row));
    SumOne(d, DrawOnRow(t, row));
    SumAppend(draws, [d], DrawOn(t));
    SumOne(d, DrawOn(t));
  }

  /** A row is consumed by every bill that froze some of it. */
  lemma ConsumptionAdds(bills: seq<Bill>, b: Bill, t: Target, row: Id)
    ensures Consumed([], t, row) == 0.0
    ensures Consumed(bills + [b], t, row) == Consumed(bills, t, row) + FrozenOnRow(t, row)(b)
  {
    SumAppend(bills, [b], FrozenOnRow(t, row));
    SumOne(b, FrozenOnRow(t, row));
  }
}
