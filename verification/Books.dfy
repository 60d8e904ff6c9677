/** The certificates of every claim beside the withholding ledgers their money is recorded in: what a
    certificate withholds is, in every run, what its ledger's rows add up to. */
module Books {
  import opened Sums
  import opened Claims
  import opened Disposition
  import opened Commands
  import opened Safety
  import opened Runs
  import opened CommandLaws
  import opened RestatedRows
  import W = Withholding

  /** One ledger a bill. */
  datatype Books = Books(state: State, ledgers: seq<W.Ledger>)

  /** A withholding is given back row by row; every other command is as it stands. */
  datatype Step = Does(command: Command) | ReleasesRow(bill: nat, deduction: W.Id, amount: real)

  /** What a command that went through writes in the ledgers. */
  function Booked(s: State, ledgers: seq<W.Ledger>, c: Command): (r: seq<W.Ledger>)
    requires |ledgers| == |s.bills|
    requires OnBill(c) ==> c.bill < |s.bills| && |s.bills[c.bill].versions| > 0
  {
    match c
    case DoRecord(_, _) => ledgers + [W.NOTHING_CERTIFIED]
    case DoCertify(i, _) => ledgers[i := W.After(ledgers[i], W.Certifies(ClaimedAmount(s.bills[i])))]
    case DoSupersede(i) => ledgers[i := W.After(ledgers[i], W.Supersedes)]
    case DoWithhold(i, amount) => ledgers[i := W.After(ledgers[i], W.Records(amount))]
    case _ => ledgers
  }

  function Stepped(b: Books, step: Step): Books
    requires Wellformed(b.state) && |b.ledgers| == |b.state.bills|
  {
    match step
    case Does(c) =>
      if c.DoRelease? || Apply(b.state, c).Refused? then b
      else
        assert OnBill(c) ==> VersionsOk(b.state.bills[c.bill]);
        Books(Apply(b.state, c).state, Booked(b.state, b.ledgers, c))
    case ReleasesRow(i, d, amount) =>
      if i >= |b.ledgers| || !W.Admits(b.ledgers[i], W.Releases(d, amount)) then b else
      match Release(b.state, i, b.ledgers[i].deductions[d].certificate, amount)
      case Refused => b
      case Done(next) => Books(next, b.ledgers[i := W.After(b.ledgers[i], W.Releases(d, amount))])
  }

  // ── agreement ────────────────────────────────────────────────────────────────────────────────

  predicate Agrees(c: Certificate, l: W.Ledger, k: nat)
    requires k < |l.certificates|
  {
    && c.amount == l.certificates[k].amount && c.superseded == l.certificates[k].superseded
    && c.withheld == W.Withheld(l, k)
  }

  /** Every certificate of the bill is in its ledger, for the same money and withholding the same. */
  predicate InLedger(b: Bill, l: W.Ledger) {
    |b.certificates| == |l.certificates| && forall k :: 0 <= k < |b.certificates| ==> Agrees(b.certificates[k], l, k)
  }

  ghost predicate LedgerOk(b: Bill, l: W.Ledger) { W.Sound(l) && Held(l) && InLedger(b, l) }

  ghost predicate BooksOk(b: Books) {
    && Inv(b.state) && |b.ledgers| == |b.state.bills|
    && forall i :: 0 <= i < |b.ledgers| ==> LedgerOk(b.state.bills[i], b.ledgers[i])
  }

  /** The certificates as the ledger sees them. */
  predicate SameWithholdings(a: Bill, b: Bill) {
    && |a.certificates| == |b.certificates|
    && forall k :: 0 <= k < |a.certificates| ==>
         && b.certificates[k].amount == a.certificates[k].amount
         && b.certificates[k].superseded == a.certificates[k].superseded
         && b.certificates[k].withheld == a.certificates[k].withheld
  }

  lemma SameStaysInLedger(a: Bill, b: Bill, l: W.Ledger)
    requires LedgerOk(a, l) && SameWithholdings(a, b)
    ensures LedgerOk(b, l)
  {
    forall k | 0 <= k < |b.certificates|
      ensures Agrees(b.certificates[k], l, k)
    {
      assert Agrees(a.certificates[k], l, k);
    }
  }

  /** A bill's last certificate is live exactly when its ledger says so. */
  lemma LiveInBoth(b: Bill, orders: map<Target, Order>, l: W.Ledger)
    requires BillOk(b, orders) && LedgerOk(b, l)
    ensures W.IsLive(l) <==> HasLiveCertificate(b)
    ensures |b.certificates| > 0 ==>
            Last(b).withheld == W.Carried(l) && Last(b).amount == l.certificates[W.Latest(l)].amount
    ensures |b.certificates| == 0 ==> W.Carried(l) == 0.0
  {
    var n := |b.certificates|;
    assert n > 0 ==> Agrees(b.certificates[n - 1], l, n - 1);
  }

  // ── the four acts ────────────────────────────────────────────────────────────────────────────

  lemma CertificateInLedger(b: Bill, r: Bill, l: W.Ledger, claimed: real)
    requires LedgerOk(b, l) && W.Admits(l, W.Certifies(claimed)) && |r.certificates| == |b.certificates| + 1
    requires forall k :: 0 <= k < |b.certificates| ==> r.certificates[k] == b.certificates[k]
    requires var c := r.certificates[|b.certificates|];
             c.amount == claimed && !c.superseded && c.withheld == W.Carried(l)
    ensures LedgerOk(r, W.After(l, W.Certifies(claimed)))
  {
    var now := W.After(l, W.Certifies(claimed));
    W.ReplacedOk(l, claimed);
    ActKeepsHeld(l, W.Certifies(claimed));
    forall k | 0 <= k < |r.certificates|
      ensures Agrees(r.certificates[k], now, k)
    {
      if k < |b.certificates| {
        assert Agrees(b.certificates[k], l, k);
        ReplacementKeepsOthers(l, claimed, k);
      }
    }
  }

  lemma CertifyInBooks(s: State, i: nat, x: bool, l: W.Ledger)
    requires Inv(s) && i < |s.bills| && |s.bills[i].versions| > 0 && LedgerOk(s.bills[i], l) && Certify(s, i, x).Done?
    ensures W.Admits(l, W.Certifies(ClaimedAmount(s.bills[i])))
    ensures |Certify(s, i, x).state.bills| == |s.bills|
    ensures LedgerOk(Certify(s, i, x).state.bills[i], W.After(l, W.Certifies(ClaimedAmount(s.bills[i]))))
  {
    var b := s.bills[i];
    assert BillOk(b, s.orders);
    LiveInBoth(b, s.orders, l);
    ClaimsNonneg(b);
    CertificateInLedger(b, Certify(s, i, x).state.bills[i], l, ClaimedAmount(b));
  }

  lemma ClaimsNonneg(b: Bill)
    requires VersionsOk(b)
    ensures ClaimedAmount(b) >= 0.0
  {
    SumNonneg(Current(b).lines, AmountOf());
  }

  lemma SupersedeInBooks(s: State, i: nat, l: W.Ledger)
    requires Inv(s) && i < |s.bills| && LedgerOk(s.bills[i], l) && Supersede(s, i).Done?
    ensures W.Admits(l, W.Supersedes) && |Supersede(s, i).state.bills| == |s.bills|
    ensures LedgerOk(Supersede(s, i).state.bills[i], W.After(l, W.Supersedes))
  {
    var b, r, now := s.bills[i], Supersede(s, i).state.bills[i], W.After(l, W.Supersedes);
    assert BillOk(b, s.orders);
    LiveInBoth(b, s.orders, l);
    ActKeepsHeld(l, W.Supersedes);
    W.ActKeeps(l, W.Supersedes);
    forall k | 0 <= k < |r.certificates|
      ensures Agrees(r.certificates[k], now, k)
    {
      assert Agrees(b.certificates[k], l, k);
      assert W.Withheld(now, k) == W.Withheld(l, k);
    }
  }

  lemma WithholdInBooks(s: State, i: nat, amount: real, l: W.Ledger)
    requires Inv(s) && i < |s.bills| && LedgerOk(s.bills[i], l) && Withhold(s, i, amount).Done?
    ensures W.Admits(l, W.Records(amount)) && |Withhold(s, i, amount).state.bills| == |s.bills|
    ensures LedgerOk(Withhold(s, i, amount).state.bills[i], W.After(l, W.Records(amount)))
  {
    var b, r, now := s.bills[i], Withhold(s, i, amount).state.bills[i], W.After(l, W.Records(amount));
    assert BillOk(b, s.orders);
    LiveInBoth(b, s.orders, l);
    ActKeepsHeld(l, W.Records(amount));
    W.ActKeeps(l, W.Records(amount));
    forall k | 0 <= k < |r.certificates|
      ensures Agrees(r.certificates[k], now, k)
    {
      assert Agrees(b.certificates[k], l, k);
      W.DeductionCounts(l, W.Deduction(W.Latest(l), amount, Sums.None), k);
    }
  }

  /** What the ledger admits of a row, the certificate that carries the row has. */
  lemma ReleaseInBooks(s: State, i: nat, d: W.Id, amount: real, l: W.Ledger, k: nat)
    requires Inv(s) && i < |s.bills| && LedgerOk(s.bills[i], l) && W.Admits(l, W.Releases(d, amount))
    requires k == l.deductions[d].certificate
    ensures Release(s, i, k, amount).Done? && |Release(s, i, k, amount).state.bills| == |s.bills|
    ensures LedgerOk(Release(s, i, k, amount).state.bills[i], W.After(l, W.Releases(d, amount)))
  {
    var b, now := s.bills[i], W.After(l, W.Releases(d, amount));
    assert BillOk(b, s.orders);
    assert Agrees(b.certificates[k], l, k);
    RowWithinCertificate(l, d);
    ReleaseExactly(s, i, k, amount);
    ActKeepsHeld(l, W.Releases(d, amount));
    W.ActKeeps(l, W.Releases(d, amount));
    var r := Release(s, i, k, amount).state.bills[i];
    forall j | 0 <= j < |r.certificates|
      ensures Agrees(r.certificates[j], now, j)
    {
      assert Agrees(b.certificates[j], l, j);
      W.ReleaseCounts(l, W.Release(d, amount, Sums.None), j);
    }
  }

  // ── every other command ──────────────────────────────────────────────────────────────────────

  predicate OffLedger(c: Command) {
    !(c.DoRecord? || c.DoCertify? || c.DoSupersede? || c.DoWithhold? || c.DoRelease?)
  }

  lemma BillKeepsWithholdings(s: State, c: Command, next: State, i: nat)
    requires Wellformed(s) && OnBill(c) && OffLedger(c) && Apply(s, c) == Done(next) && i < |s.bills|
    ensures |next.bills| == |s.bills| && SameWithholdings(s.bills[i], next.bills[i])
  {
    assert VersionsOk(s.bills[c.bill]);
  }

  lemma OthersKeepWithholdings(s: State, c: Command, next: State, i: nat)
    requires Wellformed(s) && !OnBill(c) && OffLedger(c) && Apply(s, c) == Done(next) && i < |s.bills|
    ensures |next.bills| == |s.bills| && SameWithholdings(s.bills[i], next.bills[i])
  {
    if c.DoKillOrder? {
      DispositionExact(s.bills, c.line, 0.0, c.line);
    } else if c.DoCorrect? && c.entry.quantity < 0.0 {
      var evidence := Evidence(Filed(s.orders[c.line].entries, c.entry));
      DispositionExact(s.bills, c.line, evidence, c.line);
    }
  }

  // ── every run ────────────────────────────────────────────────────────────────────────────────

  lemma SameWithholdingsAfter(s: State, c: Command, next: State, i: nat)
    requires Wellformed(s) && OffLedger(c) && Apply(s, c) == Done(next) && i < |s.bills|
    ensures |next.bills| == |s.bills| && SameWithholdings(s.bills[i], next.bills[i])
  {
    if OnBill(c) {
      BillKeepsWithholdings(s, c, next, i);
    } else {
      OthersKeepWithholdings(s, c, next, i);
    }
  }

  lemma ActKeepsLedgers(b: Books, c: Command, next: State, i: nat)
    requires BooksOk(b) && Wellformed(b.state) && (c.DoCertify? || c.DoSupersede? || c.DoWithhold?)
    requires Apply(b.state, c) == Done(next) && c.bill < |b.state.bills| && |b.state.bills[c.bill].versions| > 0
    requires i < |b.state.bills|
    ensures |Booked(b.state, b.ledgers, c)| == |next.bills| == |b.state.bills|
    ensures LedgerOk(next.bills[i], Booked(b.state, b.ledgers, c)[i])
  {
    assert LedgerOk(b.state.bills[i], b.ledgers[i]);
    if c.bill == i {
      match c
      case DoCertify(_, x) => CertifyInBooks(b.state, i, x, b.ledgers[i]);
      case DoSupersede(_) => SupersedeInBooks(b.state, i, b.ledgers[i]);
      case DoWithhold(_, amount) => WithholdInBooks(b.state, i, amount, b.ledgers[i]);
    }
  }

  lemma BillLedgerKeeps(b: Books, c: Command, next: State, i: nat)
    requires BooksOk(b) && Wellformed(b.state) && !c.DoRelease? && Apply(b.state, c) == Done(next)
    requires OnBill(c) ==> c.bill < |b.state.bills| && |b.state.bills[c.bill].versions| > 0
    requires i < |b.state.bills|
    requires !c.DoRecord?
    ensures |Booked(b.state, b.ledgers, c)| == |next.bills| == |b.state.bills|
    ensures LedgerOk(next.bills[i], Booked(b.state, b.ledgers, c)[i])
  {
    assert LedgerOk(b.state.bills[i], b.ledgers[i]);
    if OffLedger(c) {
      SameWithholdingsAfter(b.state, c, next, i);
      SameStaysInLedger(b.state.bills[i], next.bills[i], b.ledgers[i]);
    } else {
      ActKeepsLedgers(b, c, next, i);
    }
  }

  lemma CommandKeepsBooks(b: Books, c: Command, next: State)
    requires BooksOk(b) && Wellformed(b.state) && !c.DoRelease? && Apply(b.state, c) == Done(next)
    requires OnBill(c) ==> c.bill < |b.state.bills| && |b.state.bills[c.bill].versions| > 0
    ensures |Booked(b.state, b.ledgers, c)| == |next.bills|
    ensures forall i :: 0 <= i < |next.bills| ==> LedgerOk(next.bills[i], Booked(b.state, b.ledgers, c)[i])
  {
    var now := Booked(b.state, b.ledgers, c);
    if c.DoRecord? {
      assert next.bills == b.state.bills + [next.bills[|b.state.bills|]];
      NewBillInBooks(next.bills[|b.state.bills|]);
      forall i | 0 <= i < |b.state.bills|
        ensures LedgerOk(next.bills[i], now[i])
      {
        assert LedgerOk(b.state.bills[i], b.ledgers[i]);
      }
    } else {
      SameNumberOfBills(b.state, c, next);
      forall i | 0 <= i < |next.bills|
        ensures |now| == |next.bills| && LedgerOk(next.bills[i], now[i])
      {
        BillLedgerKeeps(b, c, next, i);
      }
    }
  }

  lemma NewBillInBooks(b: Bill)
    requires b.certificates == []
    ensures LedgerOk(b, W.NOTHING_CERTIFIED)
  {
  }

  lemma SameNumberOfBills(s: State, c: Command, next: State)
    requires Wellformed(s) && !c.DoRecord? && Apply(s, c) == Done(next)
    ensures |next.bills| == |s.bills|
  {
    if c.DoKillOrder? {
      DispositionExact(s.bills, c.line, 0.0, c.line);
    } else if c.DoCorrect? && c.entry.quantity < 0.0 {
      DispositionExact(s.bills, c.line, Evidence(Filed(s.orders[c.line].entries, c.entry)), c.line);
    }
  }

  lemma ReleaseKeepsBooks(b: Books, i: nat, d: W.Id, amount: real)
    requires BooksOk(b) && Wellformed(b.state) && i < |b.ledgers| && W.Admits(b.ledgers[i], W.Releases(d, amount))
    ensures BooksOk(Stepped(b, ReleasesRow(i, d, amount)))
    ensures Stepped(b, ReleasesRow(i, d, amount)).ledgers ==
            b.ledgers[i := W.After(b.ledgers[i], W.Releases(d, amount))]
  {
    var k := b.ledgers[i].deductions[d].certificate;
    assert LedgerOk(b.state.bills[i], b.ledgers[i]);
    ReleaseInBooks(b.state, i, d, amount, b.ledgers[i], k);
    KeepsRelease(b.state, i, k, amount);
    var after := Stepped(b, ReleasesRow(i, d, amount));
    forall j | 0 <= j < |after.ledgers|
      ensures LedgerOk(after.state.bills[j], after.ledgers[j])
    {
      assert LedgerOk(b.state.bills[j], b.ledgers[j]);
    }
  }

  lemma SteppedOk(b: Books, step: Step)
    requires BooksOk(b) && Wellformed(b.state)
    ensures BooksOk(Stepped(b, step))
  {
    match step
    case Does(c) =>
      if !c.DoRelease? && Apply(b.state, c).Done? {
        KeepsApply(b.state, c);
        assert OnBill(c) ==> VersionsOk(b.state.bills[c.bill]);
        CommandKeepsBooks(b, c, Apply(b.state, c).state);
      }
    case ReleasesRow(i, d, amount) =>
      if i < |b.ledgers| && W.Admits(b.ledgers[i], W.Releases(d, amount)) {
        ReleaseKeepsBooks(b, i, d, amount);
      }
  }

  /** The books a run reaches from an empty project. */
  ghost function Kept(run: seq<Step>): (b: Books)
    ensures BooksOk(b)
  {
    if |run| == 0 then Books(EMPTY, []) else
    var b := Kept(run[..|run| - 1]);
    InvWellformed(b.state);
    SteppedOk(b, run[|run| - 1]);
    Stepped(b, run[|run| - 1])
  }

  /** THE CERTIFICATES ARE THEIR LEDGERS. In every run of commands and releases of single rows, what any
      certificate of any bill withholds is what the rows recorded on it, less what was given back of them,
      add up to; no row gives back more than it took. */
  lemma LedgersInEveryRun(run: seq<Step>, i: nat, k: nat)
    requires i < |Kept(run).state.bills| && k < |Kept(run).state.bills[i].certificates|
    ensures i < |Kept(run).ledgers| && k < |Kept(run).ledgers[i].certificates|
    ensures var c, l := Kept(run).state.bills[i].certificates[k], Kept(run).ledgers[i];
            && c.withheld == W.Withheld(l, k) && c.amount == l.certificates[k].amount
            && forall d :: 0 <= d < |l.deductions| ==> W.Outstanding(l, d) >= 0.0
  {
    assert LedgerOk(Kept(run).state.bills[i], Kept(run).ledgers[i]);
    assert Agrees(Kept(run).state.bills[i].certificates[k], Kept(run).ledgers[i], k);
  }

  /** So a verified claim is certified when what its ledger still withholds is within its money, and its
      new certificate takes over exactly that. */
  lemma CertifiedFromTheLedger(run: seq<Step>, i: nat)
    requires i < |Kept(run).state.bills| && Kept(run).state.bills[i].status == Verified
    ensures i < |Kept(run).ledgers| && |Kept(run).state.bills[i].versions| > 0
    ensures var b, l := Kept(run).state.bills[i], Kept(run).ledgers[i];
            var certified, n := Certify(Kept(run).state, i, false), |Kept(run).state.bills[i].certificates|;
            var standing := if n == 0 then 0.0 else W.Withheld(l, n - 1);
            && (certified.Done? <==> standing <= Sum(b.versions[|b.versions| - 1].lines, AmountOf()))
            && (certified.Done? ==>
                && |certified.state.bills| > i && |certified.state.bills[i].certificates| == n + 1
                && certified.state.bills[i].certificates[n].withheld == standing)
  {
    var s, l := Kept(run).state, Kept(run).ledgers[i];
    assert BillOk(s.bills[i], s.orders) && LedgerOk(s.bills[i], l);
    LiveInBoth(s.bills[i], s.orders, l);
    CertifyExactly(s, i, false);
  }
}
