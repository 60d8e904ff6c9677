/** The commands that move a claim, its money, its order and its evidence: one state function each.
    A refused command leaves nothing behind, because its transaction aborts. */
module Commands {
  import opened Sums
  import opened Claims
  import opened EvidenceRows
  import opened Draws
  import opened Disposition

  datatype Outcome = Done(state: State) | Refused

  // ── the bounds ───────────────────────────────────────────────────────────────────────────────

  function Ordered(o: Order): real { o.qty + o.overage }

  /** `extra` is the quantity of a claim counted as though it were live. */
  predicate WithinBounds(bills: seq<Bill>, o: Order, t: Target, extra: real) {
    o.live && Billed(bills, t) + extra <= Ordered(o) && Billed(bills, t) + extra <= Evidence(o.entries)
  }

  predicate AllWithin(bills: seq<Bill>, orders: map<Target, Order>, lines: seq<ClaimLine>, countAsLive: bool) {
    forall t :: t in TargetsOf(lines) ==>
      t in orders && WithinBounds(bills, orders[t], t, if countAsLive then LineQty(lines, t) else 0.0)
  }

  /** Every line names a purchase-order line of the project; one that does not aborts the command. */
  predicate Known(lines: seq<ClaimLine>, orders: map<Target, Order>) {
    forall i :: 0 <= i < |lines| ==> lines[i].target in orders
  }

  predicate Acceptable(lines: seq<ClaimLine>, orders: map<Target, Order>) {
    LinesPositive(lines) && Known(lines, orders)
  }

  /** The verdict on a claim just made live: a breach disputes it, never refuses it. */
  function Settle(bills: seq<Bill>, orders: map<Target, Order>, i: nat): (r: seq<Bill>)
    requires i < |bills| && |bills[i].versions| > 0
  {
    if AllWithin(bills, orders, Current(bills[i]).lines, false) then bills else Dispute(bills, i)
  }

  function WithStatus(bills: seq<Bill>, i: nat, status: Status): (r: seq<Bill>)
    requires i < |bills|
    ensures |r| == |bills|
  {
    bills[i := bills[i].(status := status)]
  }

  // ── claims ───────────────────────────────────────────────────────────────────────────────────

  function Record(s: State, lines: seq<ClaimLine>, at: nat): Outcome {
    if !Acceptable(lines, s.orders) then Refused
    else Done(s.(bills := s.bills + [Bill(Draft, [Version(1, at, false, lines)], [], 0.0)]))
  }

  function Submit(s: State, i: nat): Outcome
    requires i < |s.bills| && |s.bills[i].versions| > 0
  {
    if s.bills[i].status != Draft || !Known(Current(s.bills[i]).lines, s.orders) then Refused
    else Done(s.(bills := Settle(WithStatus(s.bills, i, Submitted), s.orders, i)))
  }

  function BeginVerification(s: State, i: nat): Outcome
    requires i < |s.bills|
  {
    if s.bills[i].status != Submitted then Refused
    else Done(s.(bills := WithStatus(s.bills, i, UnderVerification)))
  }

  /** `otherExceptions` stands for the rate, tax, freight and duplicate checks of the triple. */
  function Verify(s: State, i: nat, otherExceptions: bool): Outcome
    requires i < |s.bills| && |s.bills[i].versions| > 0
  {
    if s.bills[i].status != UnderVerification || !Known(Current(s.bills[i]).lines, s.orders) then Refused
    else if AllWithin(s.bills, s.orders, Current(s.bills[i]).lines, false) && !otherExceptions
    then Done(s.(bills := WithStatus(s.bills, i, Verified)))
    else Done(s.(bills := Dispute(s.bills, i)))
  }

  predicate Rejectable(status: Status) {
    status in {Draft, Submitted, UnderVerification, Disputed, Verified}
  }

  function Reject(s: State, i: nat): Outcome
    requires i < |s.bills|
  {
    if !Rejectable(s.bills[i].status) then Refused
    else Done(s.(bills := WithStatus(s.bills, i, Rejected)))
  }

  /** The bill with its current version retired and its replacement written. */
  function Rewritten(b: Bill, lines: seq<ClaimLine>, at: nat): Bill
    requires |b.versions| > 0
  {
    var retired := Current(b);
    b.(versions := b.versions[|b.versions| - 1 := retired.(superseded := true)] +
        [Version(retired.number + 1, at, false, lines)])
  }

  /** An amendment replaces the claim. Of a disputed claim it is the resolution: it must settle the
      dispute, counted as though it were live, and it ends the bill; otherwise the new claim is
      submitted and settled like any other. */
  function Amend(s: State, i: nat, lines: seq<ClaimLine>, at: nat): Outcome
    requires i < |s.bills| && |s.bills[i].versions| > 0
  {
    var b := s.bills[i];
    if b.status !in {Submitted, Verified, Disputed} || !Acceptable(lines, s.orders) then Refused else
    var bills := s.bills[i := Rewritten(b, lines, at)];
    if b.status == Disputed then
      if AllWithin(bills, s.orders, lines, true) then Done(s.(bills := WithStatus(bills, i, Resolved))) else Refused
    else
      Done(s.(bills := Settle(WithStatus(bills, i, Submitted), s.orders, i)))
  }

  // ── certificates ─────────────────────────────────────────────────────────────────────────────

  function AmountOf(): ClaimLine -> real { (l: ClaimLine) => l.amount }

  function ClaimedAmount(b: Bill): real
    requires |b.versions| > 0
  {
    Sum(Current(b).lines, AmountOf())
  }

  function Last(b: Bill): Certificate
    requires |b.certificates| > 0
  {
    b.certificates[|b.certificates| - 1]
  }

  /** The unreleased withholding a replacement certificate re-states. */
  function Carried(b: Bill): real { if |b.certificates| == 0 then 0.0 else Last(b).withheld }

  /** The payment status as a function of its three folds; the first arm that matches wins. */
  function DerivedStatus(netPayable: real, approved: real, paid: real): Status {
    if netPayable == paid then Paid
    else if approved == 0.0 then Certified
    else if paid == approved && approved < netPayable then Certified
    else if paid == 0.0 then ApprovedForPayment
    else PartPaid
  }

  function Rederived(b: Bill): Bill
    requires |b.certificates| > 0
  {
    b.(status := DerivedStatus(Last(b).amount - Last(b).withheld, Last(b).approved, b.paid))
  }

  function CertifiedBill(b: Bill, draws: seq<Draw>): Bill
    requires |b.versions| > 0
  {
    Rederived(b.(certificates := b.certificates +
                 [Certificate(Current(b).number, ClaimedAmount(b), false, draws, Carried(b), 0.0)]))
  }

  function DrawsFor(s: State, i: nat): DrawResult
    requires i < |s.bills| && |s.bills[i].versions| > 0
  {
    var lines := Current(s.bills[i]).lines;
    DrawAll(OffersOn(s.bills, s.orders), lines, TargetsOf(lines))
  }

  function Certify(s: State, i: nat, otherExceptions: bool): Outcome
    requires i < |s.bills| && |s.bills[i].versions| > 0
  {
    var b := s.bills[i];
    if b.status != Verified || !Known(Current(b).lines, s.orders) then Refused
    else if !AllWithin(s.bills, s.orders, Current(b).lines, false) || otherExceptions then Refused
    else if DrawsFor(s, i).Stuck? || Carried(b) > ClaimedAmount(b) then Refused
    else Done(s.(bills := s.bills[i := CertifiedBill(b, DrawsFor(s, i).draws)]))
  }

  predicate HasLiveCertificate(b: Bill) {
    PastCertification(b.status) && |b.certificates| > 0 && !Last(b).superseded
  }

  function WithLast(b: Bill, c: Certificate): Bill
    requires |b.certificates| > 0
  {
    b.(certificates := b.certificates[|b.certificates| - 1 := c])
  }

  /** A bill whose live certificate's money moved, its status derived anew. */
  function Moved(b: Bill, withheld: real, approved: real, paid: real): (r: Bill)
    requires |b.certificates| > 0
  {
    Rederived(WithLast(b, Last(b).(withheld := withheld, approved := approved)).(paid := paid))
  }

  /** Supersession returns the bill to `verified`. The payment seal refuses it while cash stands,
      because no approval would be left above what was paid. */
  function Supersede(s: State, i: nat): Outcome
    requires i < |s.bills|
  {
    var b := s.bills[i];
    if !HasLiveCertificate(b) || b.paid > 0.0 then Refused
    else Done(s.(bills := s.bills[i := WithLast(b, Last(b).(superseded := true)).(status := Verified)]))
  }

  /** A withholding is taken from what the certificate leaves; the approval seal refuses one that
      would leave less than is approved. */
  function Withhold(s: State, i: nat, amount: real): Outcome
    requires i < |s.bills|
  {
    var b := s.bills[i];
    if !HasLiveCertificate(b) || amount <= 0.0 || amount > Last(b).amount - Last(b).withheld then Refused
    else if Last(b).approved > Last(b).amount - Last(b).withheld - amount then Refused
    else Done(s.(bills := s.bills[i := Moved(b, Last(b).withheld + amount, Last(b).approved, b.paid)]))
  }

  function WithCertificate(b: Bill, k: nat, c: Certificate): Bill
    requires k < |b.certificates|
  {
    b.(certificates := b.certificates[k := c])
  }

  /** A withholding is given back on whichever certificate its row names. Off the last one that moves
      no status; while that one awaits replacement, what is left is what the replacement carries. */
  function Release(s: State, i: nat, k: nat, amount: real): Outcome
    requires i < |s.bills|
  {
    var b := s.bills[i];
    if k >= |b.certificates| || amount <= 0.0 || amount > b.certificates[k].withheld then Refused else
    var left := b.certificates[k].withheld - amount;
    Done(s.(bills := s.bills[i :=
      if HasLiveCertificate(b) && k == |b.certificates| - 1 then Moved(b, left, Last(b).approved, b.paid)
      else WithCertificate(b, k, b.certificates[k].(withheld := left))]))
  }

  function Approve(s: State, i: nat, amount: real): Outcome
    requires i < |s.bills|
  {
    var b := s.bills[i];
    if !HasLiveCertificate(b) || amount <= 0.0 || amount > Last(b).amount - Last(b).withheld - Last(b).approved
    then Refused
    else Done(s.(bills := s.bills[i := Moved(b, Last(b).withheld, Last(b).approved + amount, b.paid)]))
  }

  function Pay(s: State, i: nat, amount: real): Outcome
    requires i < |s.bills|
  {
    var b := s.bills[i];
    if !HasLiveCertificate(b) || amount <= 0.0 || amount > Last(b).approved - b.paid then Refused
    else Done(s.(bills := s.bills[i := Moved(b, Last(b).withheld, Last(b).approved, b.paid + amount)]))
  }

  function ReversePayment(s: State, i: nat, amount: real): Outcome
    requires i < |s.bills|
  {
    var b := s.bills[i];
    if !HasLiveCertificate(b) || amount <= 0.0 || amount > b.paid then Refused
    else Done(s.(bills := s.bills[i := Moved(b, Last(b).withheld, Last(b).approved, b.paid - amount)]))
  }

  // ── orders and evidence ──────────────────────────────────────────────────────────────────────

  predicate NewOrder(o: Order) {
    && o.live && !o.closedShort && o.entries == [] && o.received == 0.0
    && o.qty > 0.0 && o.overage >= 0.0 && o.rate >= 0.0 && o.tax >= 0.0 && o.freight >= 0.0
  }

  function OpenOrder(s: State, t: Target, o: Order): Outcome {
    if t in s.orders || !NewOrder(o) then Refused else Done(s.(orders := s.orders[t := o]))
  }

  function ApproveOverage(s: State, t: Target, more: real): Outcome {
    if t !in s.orders || more <= 0.0 then Refused
    else Done(s.(orders := s.orders[t := s.orders[t].(overage := s.orders[t].overage + more)]))
  }

  function ReceiptProgress(s: State, t: Target, received: real): Outcome {
    if t !in s.orders || received < 0.0 then Refused
    else Done(s.(orders := s.orders[t := s.orders[t].(received := received)]))
  }

  function CloseShort(s: State, t: Target): Outcome {
    if t !in s.orders || !s.orders[t].live then Refused
    else Done(s.(orders := s.orders[t := s.orders[t].(closedShort := true)]))
  }

  predicate Wellformed(s: State) {
    forall i :: 0 <= i < |s.bills| ==> VersionsOk(s.bills[i])
  }

  /** A cancelled or amended-away line authorises nothing: every live claim on it is disputed. */
  function KillOrder(s: State, t: Target): Outcome
    requires Wellformed(s)
  {
    if t !in s.orders || !s.orders[t].live then Refused else
    match Disposed(s.bills, t, 0.0)
    case None => Refused
    case Some(bills) => Done(State(bills, s.orders[t := s.orders[t].(live := false)]))
  }

  predicate Fresh(entries: seq<Entry>, id: Id) {
    forall i :: 0 <= i < |entries| ==> entries[i].id != id
  }

  function FilingPlace(entries: seq<Entry>, id: Id): (k: nat)
    ensures k <= |entries|
  {
    if |entries| == 0 || entries[|entries| - 1].id < id then |entries| else FilingPlace(entries[..|entries| - 1], id)
  }

  /** A new row takes its place in id order. */
  function Filed(entries: seq<Entry>, e: Entry): seq<Entry> {
    var k := FilingPlace(entries, e.id);
    entries[..k] + [e] + entries[k..]
  }

  function AddEvidence(s: State, t: Target, e: Entry): Outcome {
    if t !in s.orders || e.corrects.Some? || e.quantity <= 0.0 || !Fresh(s.orders[t].entries, e.id) then Refused
    else Done(s.(orders := s.orders[t := s.orders[t].(entries := Filed(s.orders[t].entries, e))]))
  }

  function CertifiedOn(t: Target): Bill -> real {
    (b: Bill) => if PastCertification(b.status) then Sum(b.versions, VersionOn(t)) else 0.0
  }

  /** BILLED_QTY over certified claims: the aggregate floor of a reducing measurement correction. */
  function CertifiedBilled(bills: seq<Bill>, t: Target): real { Sum(bills, CertifiedOn(t)) }

  /** A correction keeps its row's net, and the row may not fall below what live certificates froze
      of it; what it withdraws, the disposition answers for. */
  function Correct(s: State, t: Target, e: Entry): Outcome
    requires Wellformed(s)
  {
    if t !in s.orders || e.corrects.None? || e.quantity == 0.0 || !Fresh(s.orders[t].entries, e.id) then Refused else
    var o := s.orders[t];
    if !HasOriginal(o.entries, e.corrects.value) then Refused else
    var entries := Filed(o.entries, e);
    var orders := s.orders[t := o.(entries := entries)];
    if e.quantity > 0.0 then Done(s.(orders := orders))
    else if Evidence(entries) < 0.0 || NetOf(entries, e.corrects.value) < 0.0 then Refused
    else if t.kind == Labour && Evidence(entries) < CertifiedBilled(s.bills, t) then Refused
    else if NetOf(entries, e.corrects.value) < Consumed(s.bills, t, e.corrects.value) then Refused
    else match Disposed(s.bills, t, Evidence(entries))
         case None => Refused
         case Some(bills) => Done(State(bills, orders))
  }

  // ── runs ─────────────────────────────────────────────────────────────────────────────────────

  datatype Command =
    | DoRecord(lines: seq<ClaimLine>, at: nat)
    | DoSubmit(bill: nat)
    | DoBeginVerification(bill: nat)
    | DoVerify(bill: nat, otherExceptions: bool)
    | DoReject(bill: nat)
    | DoAmend(bill: nat, lines: seq<ClaimLine>, at: nat)
    | DoCertify(bill: nat, otherExceptions: bool)
    | DoSupersede(bill: nat)
    | DoWithhold(bill: nat, amount: real)
    | DoRelease(bill: nat, certificate: nat, amount: real)
    | DoApprove(bill: nat, amount: real)
    | DoPay(bill: nat, amount: real)
    | DoReversePayment(bill: nat, amount: real)
    | DoOpenOrder(line: Target, order: Order)
    | DoApproveOverage(line: Target, more: real)
    | DoReceiptProgress(line: Target, received: real)
    | DoCloseShort(line: Target)
    | DoKillOrder(line: Target)
    | DoAddEvidence(line: Target, entry: Entry)
    | DoCorrect(line: Target, entry: Entry)

  predicate OnBill(c: Command) {
    c.DoSubmit? || c.DoBeginVerification? || c.DoVerify? || c.DoReject? || c.DoAmend? || c.DoCertify? ||
    c.DoSupersede? || c.DoWithhold? || c.DoRelease? || c.DoApprove? || c.DoPay? || c.DoReversePayment?
  }

  function Apply(s: State, c: Command): Outcome
    requires Wellformed(s)
  {
    if OnBill(c) && c.bill >= |s.bills| then Refused else
    match c
    case DoRecord(lines, at) => Record(s, lines, at)
    case DoSubmit(i) => Submit(s, i)
    case DoBeginVerification(i) => BeginVerification(s, i)
    case DoVerify(i, x) => Verify(s, i, x)
    case DoReject(i) => Reject(s, i)
    case DoAmend(i, lines, at) => Amend(s, i, lines, at)
    case DoCertify(i, x) => Certify(s, i, x)
    case DoSupersede(i) => Supersede(s, i)
    case DoWithhold(i, a) => Withhold(s, i, a)
    case DoRelease(i, k, a) => Release(s, i, k, a)
    case DoApprove(i, a) => Approve(s, i, a)
    case DoPay(i, a) => Pay(s, i, a)
    case DoReversePayment(i, a) => ReversePayment(s, i, a)
    case DoOpenOrder(t, o) => OpenOrder(s, t, o)
    case DoApproveOverage(t, m) => ApproveOverage(s, t, m)
    case DoReceiptProgress(t, r) => ReceiptProgress(s, t, r)
    case DoCloseShort(t) => CloseShort(s, t)
    case DoKillOrder(t) => KillOrder(s, t)
    case DoAddEvidence(t, e) => AddEvidence(s, t, e)
    case DoCorrect(t, e) => Correct(s, t, e)
  }
}
