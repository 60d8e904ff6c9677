/** What each command asks and what it writes, in terms of the recorded fields: a claim's lines, an
    order's terms, a certificate's money. */
module CommandLaws {
  import opened Sums
  import opened Claims
  import opened EvidenceRows
  import opened Draws
  import opened Disposition
  import opened Commands
  import opened Safety
  import opened Runs

  // ── claims ───────────────────────────────────────────────────────────────────────────────────

  /** An order that stands can bear a billed quantity: within what was ordered and approved over it, and
      within what is accepted or measured. */
  predicate Bears(o: Order, billed: real) {
    o.live && billed <= o.qty + o.overage && billed <= Evidence(o.entries)
  }

  /** What would be billed on a line if bill `i`, live, claimed `lines`. */
  function WithClaim(s: State, i: nat, lines: seq<ClaimLine>, t: Target): real
    requires i < |s.bills|
  {
    Billed(s.bills, t) - BillOn(t)(s.bills[i]) + LineQty(lines, t)
  }

  /** Every line's order is known and bears it. */
  predicate Borne(s: State, i: nat, lines: seq<ClaimLine>)
    requires i < |s.bills|
  {
    forall k :: 0 <= k < |lines| ==>
      lines[k].target in s.orders && Bears(s.orders[lines[k].target], WithClaim(s, i, lines, lines[k].target))
  }

  lemma WithinIsBorne(s: State, bills: seq<Bill>, i: nat, lines: seq<ClaimLine>, countAsLive: bool)
    requires i < |s.bills|
    requires forall t ::
               Billed(bills, t) + (if countAsLive then LineQty(lines, t) else 0.0) == WithClaim(s, i, lines, t)
    ensures AllWithin(bills, s.orders, lines, countAsLive) <==> Borne(s, i, lines)
  {
    TargetsOfClaim(lines);
    if AllWithin(bills, s.orders, lines, countAsLive) {
      forall k | 0 <= k < |lines|
        ensures lines[k].target in s.orders
        ensures Bears(s.orders[lines[k].target], WithClaim(s, i, lines, lines[k].target))
      {
        assert Touches(lines, lines[k].target);
      }
    }
    if Borne(s, i, lines) {
      forall t | t in TargetsOf(lines)
        ensures t in s.orders
        ensures WithinBounds(bills, s.orders[t], t, if countAsLive then LineQty(lines, t) else 0.0)
      {
        var k :| 0 <= k < |lines| && lines[k].target == t;
      }
    }
  }

  /** The fold with bill `i` replaced by one that claims `lines`. */
  lemma ReplacedFold(s: State, i: nat, b: Bill, t: Target)
    requires i < |s.bills| && VersionsOk(b)
    ensures IsLive(b.status) ==> Billed(s.bills[i := b], t) == WithClaim(s, i, Current(b).lines, t)
    ensures !IsLive(b.status) ==>
            Billed(s.bills[i := b], t) + LineQty(Current(b).lines, t) == WithClaim(s, i, Current(b).lines, t)
  {
    SumUpdate(s.bills, i, b, BillOn(t));
    CurrentQty(b, t);
  }

  lemma SettledExactly(s: State, i: nat, b: Bill)
    requires i < |s.bills| && VersionsOk(b) && IsLive(b.status)
    ensures Settle(s.bills[i := b], s.orders, i) ==
            s.bills[i := if Borne(s, i, b.versions[|b.versions| - 1].lines) then b else b.(status := Disputed)]
  {
    forall t
      ensures Billed(s.bills[i := b], t) + 0.0 == WithClaim(s, i, Current(b).lines, t)
    {
      ReplacedFold(s, i, b, t);
    }
    WithinIsBorne(s, s.bills[i := b], i, Current(b).lines, false);
  }

  /** Only a draft is submitted. It ends `Submitted` when every line it names bears it beside what others
      have live, and `Disputed` otherwise. */
  lemma SubmitExactly(s: State, i: nat)
    requires Wellformed(s) && i < |s.bills|
    ensures var b := s.bills[i]; var lines := b.versions[|b.versions| - 1].lines;
            && (Submit(s, i).Done? <==>
                b.status == Draft && forall k :: 0 <= k < |lines| ==> lines[k].target in s.orders)
            && (Submit(s, i).Done? ==>
                Submit(s, i).state ==
                s.(bills := s.bills[i := b.(status := if Borne(s, i, lines) then Submitted else Disputed)]))
  {
    var b := s.bills[i];
    assert VersionsOk(b);
    SettledExactly(s, i, b.(status := Submitted));
    assert b.(status := Submitted).(status := Disputed) == b.(status := Disputed);
  }

  /** A claim is recorded as a draft of one version, when every line claims something of a known order. */
  lemma RecordExactly(s: State, lines: seq<ClaimLine>, at: nat)
    ensures Record(s, lines, at) ==
            if forall k :: 0 <= k < |lines| ==>
                 lines[k].quantity > 0.0 && lines[k].amount >= 0.0 && lines[k].target in s.orders
            then Done(s.(bills := s.bills + [Bill(Draft, [Version(1, at, false, lines)], [], 0.0)])) else Refused
  {
  }

  /** A run takes each command for what it is: on a claim, on its certificate, and on a line. */
  lemma ClaimCommandsRun(s: State, i: nat, x: bool, lines: seq<ClaimLine>, at: nat)
    requires Wellformed(s) && i < |s.bills|
    ensures Apply(s, DoRecord(lines, at)) == Record(s, lines, at)
    ensures Apply(s, DoSubmit(i)) == Submit(s, i)
    ensures Apply(s, DoBeginVerification(i)) == BeginVerification(s, i)
    ensures Apply(s, DoVerify(i, x)) == Verify(s, i, x)
    ensures Apply(s, DoReject(i)) == Reject(s, i)
    ensures Apply(s, DoAmend(i, lines, at)) == Amend(s, i, lines, at)
  {
  }

  lemma MoneyCommandsRun(s: State, i: nat, k: nat, x: bool, amount: real)
    requires Wellformed(s) && i < |s.bills| && |s.bills[i].versions| > 0
    ensures Apply(s, DoCertify(i, x)) == Certify(s, i, x)
    ensures Apply(s, DoSupersede(i)) == Supersede(s, i)
    ensures Apply(s, DoWithhold(i, amount)) == Withhold(s, i, amount)
    ensures Apply(s, DoRelease(i, k, amount)) == Release(s, i, k, amount)
    ensures Apply(s, DoApprove(i, amount)) == Approve(s, i, amount)
    ensures Apply(s, DoPay(i, amount)) == Pay(s, i, amount)
    ensures Apply(s, DoReversePayment(i, amount)) == ReversePayment(s, i, amount)
  {
  }

  lemma LineCommandsRun(s: State, t: Target, amount: real, e: Entry, o: Order)
    requires Wellformed(s)
    ensures Apply(s, DoOpenOrder(t, o)) == OpenOrder(s, t, o)
    ensures Apply(s, DoApproveOverage(t, amount)) == ApproveOverage(s, t, amount)
    ensures Apply(s, DoReceiptProgress(t, amount)) == ReceiptProgress(s, t, amount)
    ensures Apply(s, DoCloseShort(t)) == CloseShort(s, t)
    ensures Apply(s, DoKillOrder(t)) == KillOrder(s, t)
    ensures Apply(s, DoAddEvidence(t, e)) == AddEvidence(s, t, e)
    ensures Apply(s, DoCorrect(t, e)) == Correct(s, t, e)
  {
  }

  /** Verification begins on a submitted claim, and a claim not yet certified or resolved is rejected. */
  lemma MovesExactly(s: State, i: nat)
    requires i < |s.bills|
    ensures BeginVerification(s, i) ==
            if s.bills[i].status == Submitted
            then Done(s.(bills := s.bills[i := s.bills[i].(status := UnderVerification)])) else Refused
    ensures Reject(s, i) ==
            if s.bills[i].status in {Resolved, Rejected, Certified, ApprovedForPayment, PartPaid, Paid} then Refused
            else Done(s.(bills := s.bills[i := s.bills[i].(status := Rejected)]))
  {
  }

  /** A claim under verification is verified when every line bears it and its rates do, and disputed
      otherwise. */
  lemma VerifyExactly(s: State, i: nat, otherExceptions: bool)
    requires Wellformed(s) && i < |s.bills|
    ensures var b := s.bills[i]; var lines := b.versions[|b.versions| - 1].lines;
            && (Verify(s, i, otherExceptions).Done? <==>
                b.status == UnderVerification && forall k :: 0 <= k < |lines| ==> lines[k].target in s.orders)
            && (Verify(s, i, otherExceptions).Done? ==>
                Verify(s, i, otherExceptions).state ==
                s.(bills := s.bills[i := b.(status :=
                  if Borne(s, i, lines) && !otherExceptions then Verified else Disputed)]))
  {
    var b := s.bills[i];
    assert VersionsOk(b);
    if b.status == UnderVerification {
      assert s.bills[i := b] == s.bills;
      forall t
        ensures Billed(s.bills, t) + 0.0 == WithClaim(s, i, Current(b).lines, t)
      {
        ReplacedFold(s, i, b, t);
      }
      WithinIsBorne(s, s.bills, i, Current(b).lines, false);
    }
  }

  /** Bill `b` with its current version retired and `lines`, claimed at `at`, in its place. */
  function Amended(b: Bill, lines: seq<ClaimLine>, at: nat): Bill
    requires |b.versions| > 0
  {
    var n := |b.versions| - 1;
    var next := Version(b.versions[n].number + 1, at, false, lines);
    b.(versions := b.versions[..n] + [b.versions[n].(superseded := true), next])
  }

  lemma AmendedIsRewritten(b: Bill, lines: seq<ClaimLine>, at: nat)
    requires VersionsOk(b) && LinesPositive(lines)
    ensures Rewritten(b, lines, at) == Amended(b, lines, at) && VersionsOk(Amended(b, lines, at))
  {
    var n := |b.versions| - 1;
    assert Rewritten(b, lines, at).versions == Amended(b, lines, at).versions;
  }

  /** An amendment writes the next version of a submitted, verified or disputed claim. A disputed claim's
      must be borne, and resolves it; any other is submitted when it is borne, and disputed when not. */
  lemma AmendExactly(s: State, i: nat, lines: seq<ClaimLine>, at: nat)
    requires Wellformed(s) && i < |s.bills|
    ensures var b := s.bills[i];
            && (Amend(s, i, lines, at).Done? <==>
                && b.status in {Submitted, Verified, Disputed}
                && (forall k :: 0 <= k < |lines| ==>
                      lines[k].quantity > 0.0 && lines[k].amount >= 0.0 && lines[k].target in s.orders)
                && (b.status == Disputed ==> Borne(s, i, lines)))
            && (Amend(s, i, lines, at).Done? ==>
                Amend(s, i, lines, at).state ==
                s.(bills := s.bills[i := Amended(b, lines, at).(status :=
                  if b.status == Disputed then Resolved else if Borne(s, i, lines) then Submitted else Disputed)]))
  {
    var b := s.bills[i];
    assert VersionsOk(b);
    if b.status in {Submitted, Verified, Disputed} && Acceptable(lines, s.orders) {
      AmendedIsRewritten(b, lines, at);
      if b.status == Disputed {
        AmendResolves(s, i, lines, Amended(b, lines, at));
      } else {
        SettledExactly(s, i, Amended(b, lines, at).(status := Submitted));
        assert s.bills[i := Amended(b, lines, at)][i := Amended(b, lines, at).(status := Submitted)] ==
               s.bills[i := Amended(b, lines, at).(status := Submitted)];
      }
    }
  }

  lemma AmendResolves(s: State, i: nat, lines: seq<ClaimLine>, b: Bill)
    requires i < |s.bills| && VersionsOk(b) && !IsLive(b.status) && Current(b).lines == lines
    ensures AllWithin(s.bills[i := b], s.orders, lines, true) <==> Borne(s, i, lines)
    ensures WithStatus(s.bills[i := b], i, Resolved) == s.bills[i := b.(status := Resolved)]
  {
    forall t
      ensures Billed(s.bills[i := b], t) + LineQty(lines, t) == WithClaim(s, i, lines, t)
    {
      ReplacedFold(s, i, b, t);
    }
    WithinIsBorne(s, s.bills[i := b], i, lines, true);
  }

  /** An amendment later than every live claim puts its bill first among the claims of each of its
      lines, so it is the first to leave when evidence is withdrawn. */
  lemma AmendedLeavesFirst(s: State, i: nat, lines: seq<ClaimLine>, at: nat, t: Target, evidence: real)
    requires Wellformed(s) && i < |s.bills| && Amend(s, i, lines, at).Done? && Touches(lines, t)
    requires Amend(s, i, lines, at).state.bills[i].status == Submitted
    requires forall j :: 0 <= j < |s.bills| && IsLive(s.bills[j].status) ==>
               s.bills[j].versions[|s.bills[j].versions| - 1].createdAt < at
    ensures var next := Amend(s, i, lines, at).state.bills;
            && |LiveClaims(next, t)| > 0 && LiveClaims(next, t)[0].bill == i
            && next[i].versions[|next[i].versions| - 1].createdAt == at
            && (Billed(next, t) > evidence ==> |Taken(next, t, evidence)| > 0 && Taken(next, t, evidence)[0].bill == i)
  {
    var b, next := s.bills[i], Amend(s, i, lines, at).state.bills;
    assert VersionsOk(b);
    AmendExactly(s, i, lines, at);
    AmendedIsRewritten(b, lines, at);
    assert next == s.bills[i := Amended(b, lines, at).(status := Submitted)];
    forall j | 0 <= j < |next|
      ensures VersionsOk(next[j])
    {
      assert j != i ==> next[j] == s.bills[j];
    }
    LatestIsFirst(next, t, i, evidence);
  }

  // ── certificates and money ───────────────────────────────────────────────────────────────────

  /** Where a certified bill stands, from what it may be paid, what is approved and what is paid. */
  function PaymentStatus(payable: real, approved: real, paid: real): Status {
    if paid == payable then Paid
    else if paid == approved then Certified
    else if paid == 0.0 then ApprovedForPayment
    else PartPaid
  }

  /** Bill `b` with the money of its last certificate, and its cash, as given. */
  function WithMoney(b: Bill, withheld: real, approved: real, paid: real): Bill
    requires |b.certificates| > 0
  {
    var n := |b.certificates| - 1;
    var c := b.certificates[n];
    b.(certificates := b.certificates[..n] + [c.(withheld := withheld, approved := approved)], paid := paid,
       status := PaymentStatus(c.amount - withheld, approved, paid))
  }

  lemma MovedIsWithMoney(b: Bill, withheld: real, approved: real, paid: real)
    requires |b.certificates| > 0 && 0.0 <= paid <= approved <= Last(b).amount - withheld
    ensures Moved(b, withheld, approved, paid) == WithMoney(b, withheld, approved, paid)
  {
    assert Moved(b, withheld, approved, paid).certificates == WithMoney(b, withheld, approved, paid).certificates;
  }

  predicate PastStatus(b: Bill) { b.status in {Certified, ApprovedForPayment, PartPaid, Paid} }

  lemma StandingCertificate(s: State, i: nat)
    requires Inv(s) && i < |s.bills|
    ensures HasLiveCertificate(s.bills[i]) <==> PastStatus(s.bills[i])
    ensures PastStatus(s.bills[i]) ==> |s.bills[i].certificates| > 0
  {
    assert BillOk(s.bills[i], s.orders);
  }

  /** THE CERTIFICATE. A verified claim whose rates verify is certified when what its last certificate
      withholds is within its money. The certificate is for its current version and all its money, takes
      over that withholding, approves nothing, and freezes on every line what is claimed there. */
  lemma CertifyExactly(s: State, i: nat, otherExceptions: bool)
    requires Inv(s) && i < |s.bills| && |s.bills[i].versions| > 0
    ensures var b := s.bills[i]; var v := b.versions[|b.versions| - 1]; var n := |b.certificates|;
            var withheld := if n == 0 then 0.0 else b.certificates[n - 1].withheld;
            && (Certify(s, i, otherExceptions).Done? <==>
                b.status == Verified && !otherExceptions && withheld <= Sum(v.lines, AmountOf()))
            && (Certify(s, i, otherExceptions).Done? ==>
                var next := Certify(s, i, otherExceptions).state;
                && |next.bills| == |s.bills| && |next.bills[i].certificates| == n + 1
                && next == s.(bills := s.bills[i := next.bills[i]])
                && next.bills[i] == b.(
                     certificates := b.certificates + [next.bills[i].certificates[n]],
                     status := if withheld == Sum(v.lines, AmountOf()) then Paid else Certified)
                && next.bills[i].certificates[n] == Certificate(
                     v.number, Sum(v.lines, AmountOf()), false, next.bills[i].certificates[n].draws, withheld, 0.0)
                && forall t :: Sum(next.bills[i].certificates[n].draws, DrawOn(t)) == LineQty(v.lines, t))
  {
    var b := s.bills[i];
    assert BillOk(b, s.orders);
    if b.status == Verified {
      LiveWithin(s, i);
      CertificationNeverStuck(s, i);
    }
    if Certify(s, i, otherExceptions).Done? {
      forall t
        ensures Sum(DrawsFor(s, i).draws, DrawOn(t)) == LineQty(Current(b).lines, t)
      {
        DrawsTheClaim(s, i, t);
      }
    }
  }

  /** A certificate nothing has been paid on is superseded, and the bill is verified again. */
  lemma SupersedeExactly(s: State, i: nat)
    requires Inv(s) && i < |s.bills|
    ensures var b := s.bills[i]; var n := |b.certificates| - 1;
            && (Supersede(s, i).Done? <==> PastStatus(b) && b.paid == 0.0)
            && (Supersede(s, i).Done? ==>
                n >= 0 && Supersede(s, i).state ==
                s.(bills := s.bills[i := b.(status := Verified,
                  certificates := b.certificates[..n] + [b.certificates[n].(superseded := true)])]))
  {
    var b := s.bills[i];
    assert BillOk(b, s.orders);
    StandingCertificate(s, i);
    if Supersede(s, i).Done? {
      var n := |b.certificates| - 1;
      assert b.certificates[n := b.certificates[n].(superseded := true)] ==
             b.certificates[..n] + [b.certificates[n].(superseded := true)];
    }
  }

  /** Money is withheld out of what a certificate leaves beside what is approved. */
  lemma WithholdExactly(s: State, i: nat, amount: real)
    requires Inv(s) && i < |s.bills|
    ensures PastStatus(s.bills[i]) ==> |s.bills[i].certificates| > 0
    ensures var b := s.bills[i];
            Withhold(s, i, amount) ==
            if !PastStatus(b) then Refused else
            var c := b.certificates[|b.certificates| - 1];
            if !(0.0 < amount <= c.amount - c.withheld - c.approved) then Refused
            else Done(s.(bills := s.bills[i := WithMoney(b, c.withheld + amount, c.approved, b.paid)]))
  {
    var b := s.bills[i];
    StandingCertificate(s, i);
    if PastStatus(b) {
      var c := b.certificates[|b.certificates| - 1];
      MoneyBounds(s, i);
      if 0.0 < amount <= c.amount - c.withheld - c.approved {
        MovedIsWithMoney(b, c.withheld + amount, c.approved, b.paid);
      }
    }
  }

  /** So is money approved. */
  lemma ApproveExactly(s: State, i: nat, amount: real)
    requires Inv(s) && i < |s.bills|
    ensures PastStatus(s.bills[i]) ==> |s.bills[i].certificates| > 0
    ensures var b := s.bills[i];
            Approve(s, i, amount) ==
            if !PastStatus(b) then Refused else
            var c := b.certificates[|b.certificates| - 1];
            if !(0.0 < amount <= c.amount - c.withheld - c.approved) then Refused
            else Done(s.(bills := s.bills[i := WithMoney(b, c.withheld, c.approved + amount, b.paid)]))
  {
    var b := s.bills[i];
    StandingCertificate(s, i);
    if PastStatus(b) {
      var c := b.certificates[|b.certificates| - 1];
      MoneyBounds(s, i);
      if 0.0 < amount <= c.amount - c.withheld - c.approved {
        MovedIsWithMoney(b, c.withheld, c.approved + amount, b.paid);
      }
    }
  }

  /** Money is paid out of what is approved, */
  lemma PayExactly(s: State, i: nat, amount: real)
    requires Inv(s) && i < |s.bills|
    ensures PastStatus(s.bills[i]) ==> |s.bills[i].certificates| > 0
    ensures var b := s.bills[i];
            Pay(s, i, amount) ==
            if !PastStatus(b) then Refused else
            var c := b.certificates[|b.certificates| - 1];
            if !(0.0 < amount <= c.approved - b.paid) then Refused
            else Done(s.(bills := s.bills[i := WithMoney(b, c.withheld, c.approved, b.paid + amount)]))
  {
    var b := s.bills[i];
    StandingCertificate(s, i);
    if PastStatus(b) {
      var c := b.certificates[|b.certificates| - 1];
      MoneyBounds(s, i);
      if 0.0 < amount <= c.approved - b.paid {
        MovedIsWithMoney(b, c.withheld, c.approved, b.paid + amount);
      }
    }
  }

  /** and a reversal takes back what was paid. */
  lemma ReverseExactly(s: State, i: nat, amount: real)
    requires Inv(s) && i < |s.bills|
    ensures PastStatus(s.bills[i]) ==> |s.bills[i].certificates| > 0
    ensures var b := s.bills[i];
            ReversePayment(s, i, amount) ==
            if !PastStatus(b) then Refused else
            var c := b.certificates[|b.certificates| - 1];
            if !(0.0 < amount <= b.paid) then Refused
            else Done(s.(bills := s.bills[i := WithMoney(b, c.withheld, c.approved, b.paid - amount)]))
  {
    var b := s.bills[i];
    StandingCertificate(s, i);
    if PastStatus(b) {
      var c := b.certificates[|b.certificates| - 1];
      MoneyBounds(s, i);
      if 0.0 < amount <= b.paid {
        MovedIsWithMoney(b, c.withheld, c.approved, b.paid - amount);
      }
    }
  }

  /** A release lowers what the named certificate withholds, up to all of it. */
  lemma ReleaseExactly(s: State, i: nat, k: nat, amount: real)
    requires Inv(s) && i < |s.bills|
    ensures var b := s.bills[i];
            && (Release(s, i, k, amount).Done? <==>
                k < |b.certificates| && 0.0 < amount <= b.certificates[k].withheld)
            && (Release(s, i, k, amount).Done? ==>
                var c := b.certificates[k];
                Release(s, i, k, amount).state == s.(bills := s.bills[i :=
                  if PastStatus(b) && k == |b.certificates| - 1
                  then WithMoney(b, c.withheld - amount, c.approved, b.paid)
                  else b.(certificates := b.certificates[k := c.(withheld := c.withheld - amount)])]))
  {
    var b := s.bills[i];
    StandingCertificate(s, i);
    if Release(s, i, k, amount).Done? && PastStatus(b) && k == |b.certificates| - 1 {
      MoneyBounds(s, i);
      MovedIsWithMoney(b, b.certificates[k].withheld - amount, b.certificates[k].approved, b.paid);
    }
  }

  // ── orders and evidence ──────────────────────────────────────────────────────────────────────

  /** A line is opened once, on terms that make sense; after that its overage grows, its receipts are
      what is reported, and it may be closed short while it stands. */
  lemma OrdersExactly(s: State, t: Target, o: Order, amount: real)
    ensures OpenOrder(s, t, o).Done? <==>
              && t !in s.orders && o.live && !o.closedShort && o.entries == [] && o.received == 0.0
              && o.qty > 0.0 && o.overage >= 0.0 && o.rate >= 0.0 && o.tax >= 0.0 && o.freight >= 0.0
    ensures OpenOrder(s, t, o).Done? ==> OpenOrder(s, t, o).state == s.(orders := s.orders[t := o])
    ensures ApproveOverage(s, t, amount) ==
            if t in s.orders && amount > 0.0
            then Done(s.(orders := s.orders[t := s.orders[t].(overage := s.orders[t].overage + amount)])) else Refused
    ensures ReceiptProgress(s, t, amount) ==
            if t in s.orders && amount >= 0.0 then Done(s.(orders := s.orders[t := s.orders[t].(received := amount)]))
            else Refused
    ensures CloseShort(s, t) ==
            if t in s.orders && s.orders[t].live
            then Done(s.(orders := s.orders[t := s.orders[t].(closedShort := true)]))
            else Refused
  {
  }

  /** `now` is `was` with one row more, in id order if `was` is. */
  predicate RowAdded(was: seq<Entry>, now: seq<Entry>, e: Entry) {
    && multiset(now) == multiset(was) + multiset{e}
    && ((forall i, j :: 0 <= i < j < |was| ==> was[i].id < was[j].id) ==>
        (forall i, j :: 0 <= i < j < |now| ==> now[i].id < now[j].id))
  }

  lemma FiledAdds(entries: seq<Entry>, e: Entry)
    requires Fresh(entries, e.id)
    ensures RowAdded(entries, Filed(entries, e), e)
  {
    var k := FilingPlace(entries, e.id);
    assert entries == entries[..k] + entries[k..];
    if Ascending(entries) {
      FiledAscends(entries, e);
    }
  }

  /** `next` is `s` with the row `e` added to line `t`, and its bills as given. */
  predicate EvidenceAdded(s: State, next: State, t: Target, e: Entry, bills: seq<Bill>) {
    && t in s.orders && t in next.orders && RowAdded(s.orders[t].entries, next.orders[t].entries, e)
    && next == State(bills, s.orders[t := s.orders[t].(entries := next.orders[t].entries)])
  }

  predicate IsNew(s: State, t: Target, e: Entry) {
    t in s.orders && forall k :: 0 <= k < |s.orders[t].entries| ==> s.orders[t].entries[k].id != e.id
  }

  /** A new row of evidence stands for itself and adds something. */
  lemma AddEvidenceExactly(s: State, t: Target, e: Entry)
    ensures AddEvidence(s, t, e).Done? <==> IsNew(s, t, e) && e.corrects == None && e.quantity > 0.0
    ensures AddEvidence(s, t, e).Done? ==> EvidenceAdded(s, AddEvidence(s, t, e).state, t, e, s.bills)
  {
    if AddEvidence(s, t, e).Done? {
      FiledAdds(s.orders[t].entries, e);
    }
  }

  /** What a correction takes back may be taken back: neither the line nor the row goes below zero, a
      measured line stays at what is certified on it, the row at what certificates froze of it, and the
      claims beyond what is left can be disputed. */
  predicate Retractable(s: State, t: Target, row: Id, quantity: real)
    requires Wellformed(s) && t in s.orders
  {
    var evidence, net := Evidence(s.orders[t].entries) + quantity, NetOf(s.orders[t].entries, row) + quantity;
    && evidence >= 0.0 && net >= 0.0 && (t.kind == Labour ==> CertifiedBilled(s.bills, t) <= evidence)
    && Consumed(s.bills, t, row) <= net && Disposed(s.bills, t, evidence).Some?
  }

  predicate Addresses(s: State, t: Target, e: Entry)
    requires t in s.orders
  {
    && e.corrects.Some?
    && exists k :: 0 <= k < |s.orders[t].entries| &&
         s.orders[t].entries[k].corrects == None && s.orders[t].entries[k].id == e.corrects.value
  }

  /** A correction addresses an original of its line. Adding to it is free. */
  lemma CorrectUpwards(s: State, t: Target, e: Entry)
    requires Wellformed(s) && e.quantity >= 0.0
    ensures Correct(s, t, e).Done? <==> IsNew(s, t, e) && Addresses(s, t, e) && e.quantity > 0.0
    ensures Correct(s, t, e).Done? ==> EvidenceAdded(s, Correct(s, t, e).state, t, e, s.bills)
  {
    if Correct(s, t, e).Done? {
      FiledAdds(s.orders[t].entries, e);
    }
  }

  /** Taking back passes every floor, and disputes the claims it leaves without evidence. */
  lemma CorrectDownwards(s: State, t: Target, e: Entry)
    requires Wellformed(s) && e.quantity < 0.0
    ensures Correct(s, t, e).Done? <==>
            IsNew(s, t, e) && Addresses(s, t, e) && Retractable(s, t, e.corrects.value, e.quantity)
  {
    if t in s.orders && e.corrects.Some? {
      FiledFolds(s.orders[t].entries, e, e.corrects.value);
    }
  }

  lemma CorrectionWrites(s: State, t: Target, e: Entry)
    requires Wellformed(s) && e.quantity < 0.0 && Correct(s, t, e).Done?
    ensures IsNew(s, t, e) && Disposed(s.bills, t, Evidence(s.orders[t].entries) + e.quantity).Some?
    ensures EvidenceAdded(s, Correct(s, t, e).state, t, e,
              Disposed(s.bills, t, Evidence(s.orders[t].entries) + e.quantity).value)
  {
    FiledFolds(s.orders[t].entries, e, e.corrects.value);
    FiledAdds(s.orders[t].entries, e);
  }

  /** An order that stands is killed when every live claim on it can be disputed. */
  lemma KillOrderExactly(s: State, t: Target)
    requires Wellformed(s)
    ensures KillOrder(s, t).Done? <==> t in s.orders && s.orders[t].live && Disposed(s.bills, t, 0.0).Some?
    ensures KillOrder(s, t).Done? ==>
              KillOrder(s, t).state ==
                  State(Disposed(s.bills, t, 0.0).value, s.orders[t := s.orders[t].(live := false)])
  {
  }
}
