/** Certification as it runs: a plan read without locks, then every row it named locked in order and
    read again, while other transactions act on whatever is not yet held. */
module Certification {
  import opened Sums
  import opened Claims
  import opened EvidenceRows
  import opened Draws
  import opened Commands
  import opened Runs

  datatype World = World(bills: seq<Bill>, orders: map<Target, Order>, signedOff: set<Id>)

  /** The row locks one transaction holds. */
  datatype Locks = Locks(rows: set<(Target, Id)>, activities: set<Id>, bill: Option<nat>)

  /** What another transaction may do; it waits, and so does nothing yet, on a row that is held. */
  datatype Foreign =
    | AmendsClaim(bill: nat, lines: seq<ClaimLine>, at: nat)
    | MovesClaim(bill: nat, status: Status)
    | CertifiesClaim(bill: nat, draws: seq<Draw>)
    | SupersedesCertificate(bill: nat)
    | AddsRow(line: Target, entry: Entry)
    | CorrectsRow(line: Target, entry: Entry)
    | SignsOff(activity: Id)
    | RevertsSignOff(activity: Id)

  predicate OnHeldRows(draws: seq<Draw>, held: Locks) {
    exists k :: 0 <= k < |draws| && (draws[k].target, draws[k].row) in held.rows
  }

  /** A frozen quantity is positive. */
  predicate TakesSomething(draws: seq<Draw>) {
    forall k :: 0 <= k < |draws| ==> draws[k].quantity > 0.0
  }

  function Act(w: World, held: Locks, step: Foreign): (r: World)
    ensures |r.bills| == |w.bills|
  {
    match step
    case AmendsClaim(i, lines, at) =>
      if i >= |w.bills| || held.bill == Some(i) || |w.bills[i].versions| == 0 then w
      else w.(bills := w.bills[i := Rewritten(w.bills[i], lines, at).(status := Submitted)])
    case MovesClaim(i, status) =>
      if i >= |w.bills| || held.bill == Some(i) then w else w.(bills := WithStatus(w.bills, i, status))
    case CertifiesClaim(i, draws) =>
      if i >= |w.bills| || held.bill == Some(i) || |w.bills[i].versions| == 0 || OnHeldRows(draws, held) then w
      else w.(bills := w.bills[i := CertifiedBill(w.bills[i], draws)])
    case SupersedesCertificate(i) =>
      if i >= |w.bills| || held.bill == Some(i) || |w.bills[i].certificates| == 0 ||
          !TakesSomething(Last(w.bills[i]).draws) then w
      else w.(bills := w.bills[i := WithLast(w.bills[i], Last(w.bills[i]).(superseded := true)).(status := Verified)])
    case AddsRow(t, e) =>
      if t !in w.orders || e.corrects.Some? || !Fresh(w.orders[t].entries, e.id) then w
      else w.(orders := w.orders[t := w.orders[t].(entries := Filed(w.orders[t].entries, e))])
    case CorrectsRow(t, e) =>
      if t !in w.orders || e.corrects.None? || !Fresh(w.orders[t].entries, e.id) || (t, e.corrects.value) in held.rows
      then w
      else w.(orders := w.orders[t := w.orders[t].(entries := Filed(w.orders[t].entries, e))])
    case SignsOff(a) => w.(signedOff := w.signedOff + {a})
    case RevertsSignOff(a) => if a in held.activities then w else w.(signedOff := w.signedOff - {a})
  }

  /** What others reach: any bill but the held one, any row of evidence but a held one, and any activity's
      sign-off but a held one's. */
  lemma OthersReach(w: World, held: Locks, i: nat, status: Status, lines: seq<ClaimLine>, at: nat, a: Id)
    requires i < |w.bills| && |w.bills[i].versions| > 0
    ensures Act(w, held, MovesClaim(i, status)) ==
            if held.bill == Some(i) then w else w.(bills := w.bills[i := w.bills[i].(status := status)])
    ensures var after, n := Act(w, held, AmendsClaim(i, lines, at)), |w.bills[i].versions|;
            if held.bill == Some(i) then after == w
            else
              && after == w.(bills := w.bills[i := after.bills[i]]) && after.bills[i].status == Submitted
              && |after.bills[i].versions| == n + 1 && after.bills[i].versions[n - 1].superseded
              && after.bills[i].versions[n] == Version(w.bills[i].versions[n - 1].number + 1, at, false, lines)
    ensures Act(w, held, SignsOff(a)) == w.(signedOff := w.signedOff + {a})
    ensures Act(w, held, RevertsSignOff(a)) == w.(signedOff := if a in held.activities then w.signedOff
                                                              else w.signedOff - {a})
  {
  }

  lemma OthersReachEvidence(w: World, held: Locks, t: Target, e: Entry)
    requires t in w.orders && Fresh(w.orders[t].entries, e.id)
    ensures e.corrects.None? ==>
              var after := Act(w, held, AddsRow(t, e));
              && t in after.orders && after == w.(orders := w.orders[t := after.orders[t]])
              && multiset(after.orders[t].entries) == multiset(w.orders[t].entries) + multiset{e}
    ensures e.corrects.Some? && (t, e.corrects.value) !in held.rows ==>
              var after := Act(w, held, CorrectsRow(t, e));
              && t in after.orders && after == w.(orders := w.orders[t := after.orders[t]])
              && multiset(after.orders[t].entries) == multiset(w.orders[t].entries) + multiset{e}
    ensures e.corrects.Some? && (t, e.corrects.value) in held.rows ==> Act(w, held, CorrectsRow(t, e)) == w
  {
    var entries, k := w.orders[t].entries, FilingPlace(w.orders[t].entries, e.id);
    assert entries == entries[..k] + entries[k..];
  }

  // ── what locks guarantee ─────────────────────────────────────────────────────────────────────

  /** A row read under its lock still stands as it was read, on signed-off work. */
  ghost predicate RowStands(w: World, held: Locks, t: Target, r: Row) {
    && (t, r.id) in held.rows && t in w.orders
    && NetOf(w.orders[t].entries, r.id) == r.available
    && (exists e :: e in w.orders[t].entries && Heads(e, r))
    && (t.kind == Labour ==> r.activity in held.activities)
  }

  ghost predicate Standing(w: World, held: Locks, rowsOn: map<Target, seq<Row>>) {
    && (forall t :: t in w.orders ==> Ascending(w.orders[t].entries))
    && (forall p :: p in held.rows ==> p.0 in w.orders && HasOriginal(w.orders[p.0].entries, p.1))
    && held.activities <= w.signedOff
    && (forall t :: t in rowsOn ==> RowsAscend(rowsOn[t]))
    && (forall t, r :: t in rowsOn && r in rowsOn[t] ==> RowStands(w, held, t, r))
  }

  /** The held bill does not change, and live certificates take no more of a held row. */
  ghost predicate Spares(was: World, now: World, held: Locks) {
    && |now.bills| == |was.bills|
    && (held.bill.Some? && held.bill.value < |was.bills| ==> now.bills[held.bill.value] == was.bills[held.bill.value])
    && (forall p :: p in held.rows ==> Consumed(now.bills, p.0, p.1) <= Consumed(was.bills, p.0, p.1))
  }

  /** A certificate added to a bill adds exactly its draws to what its rows are consumed for. */
  lemma CertificateConsumes(bills: seq<Bill>, i: nat, draws: seq<Draw>, t: Target, row: Id)
    requires i < |bills| && |bills[i].versions| > 0
    ensures Consumed(bills[i := CertifiedBill(bills[i], draws)], t, row) ==
            Consumed(bills, t, row) + Sum(draws, DrawOnRow(t, row))
  {
    var b, c := bills[i], CertifiedBill(bills[i], draws);
    assert c.certificates[..|c.certificates| - 1] == b.certificates;
    assert LiveDraws(c.certificates) == LiveDraws(b.certificates) + draws;
    SumAppend(LiveDraws(b.certificates), draws, DrawOnRow(t, row));
    SumUpdate(bills, i, c, FrozenOnRow(t, row));
  }

  lemma FiledStands(w: World, held: Locks, rowsOn: map<Target, seq<Row>>, t: Target, e: Entry)
    requires Standing(w, held, rowsOn) && t in w.orders && Fresh(w.orders[t].entries, e.id)
    requires e.corrects.Some? ==> (t, e.corrects.value) !in held.rows
    ensures Standing(w.(orders := w.orders[t := w.orders[t].(entries := Filed(w.orders[t].entries, e))]), held, rowsOn)
  {
    var entries := w.orders[t].entries;
    var now := w.(orders := w.orders[t := w.orders[t].(entries := Filed(entries, e))]);
    FiledAscends(entries, e);
    FiledHolds(entries, e);
    FiledKeepsOriginals(entries, e);
    forall u, r | u in rowsOn && r in rowsOn[u]
      ensures RowStands(now, held, u, r)
    {
      assert RowStands(w, held, u, r);
      if u == t {
        FiledFolds(entries, e, r.id);
        assert (t, r.id) in held.rows && HasOriginal(entries, r.id);
      }
    }
  }

  /** Superseding a certificate only ever frees rows. */
  lemma SupersedingFrees(bills: seq<Bill>, i: nat, t: Target, row: Id)
    requires i < |bills| && |bills[i].certificates| > 0 && TakesSomething(Last(bills[i]).draws)
    ensures Consumed(
              bills[i := WithLast(bills[i], Last(bills[i]).(superseded := true)).(status := Verified)], t, row) <=
            Consumed(bills, t, row)
  {
    var b := bills[i];
    var c := WithLast(b, Last(b).(superseded := true)).(status := Verified);
    var n := |b.certificates| - 1;
    assert c.certificates[..n] == b.certificates[..n];
    SumAppend(LiveDraws(b.certificates[..n]), Last(b).draws, DrawOnRow(t, row));
    SumAppend(LiveDraws(b.certificates[..n]), [], DrawOnRow(t, row));
    SumNonneg(Last(b).draws, DrawOnRow(t, row));
    SumUpdate(bills, i, c, FrozenOnRow(t, row));
  }

  lemma ActSpares(w: World, held: Locks, step: Foreign)
    ensures Spares(w, Act(w, held, step), held)
  {
    var now := Act(w, held, step);
    forall p | p in held.rows
      ensures Consumed(now.bills, p.0, p.1) <= Consumed(w.bills, p.0, p.1)
    {
      if now == w {
      } else if step.CertifiesClaim? {
        CertificateConsumes(w.bills, step.bill, step.draws, p.0, p.1);
        SumZero(step.draws, DrawOnRow(p.0, p.1));
      } else if step.SupersedesCertificate? {
        SupersedingFrees(w.bills, step.bill, p.0, p.1);
      } else {
        SumPointwise(now.bills, w.bills, FrozenOnRow(p.0, p.1));
      }
    }
  }

  lemma ActStands(w: World, held: Locks, rowsOn: map<Target, seq<Row>>, step: Foreign)
    requires Standing(w, held, rowsOn)
    ensures Standing(Act(w, held, step), held, rowsOn)
  {
    var now := Act(w, held, step);
    if step.AddsRow? && now != w {
      FiledStands(w, held, rowsOn, step.line, step.entry);
    } else if step.CorrectsRow? && now != w {
      FiledStands(w, held, rowsOn, step.line, step.entry);
    } else {
      forall t, r | t in rowsOn && r in rowsOn[t]
        ensures RowStands(now, held, t, r)
      {
        assert RowStands(w, held, t, r);
      }
    }
  }

  // ── drawing on what was locked ───────────────────────────────────────────────────────────────

  function HeldOffers(bills: seq<Bill>, rowsOn: map<Target, seq<Row>>): Target -> seq<Offer> {
    (t: Target) => if t in rowsOn then OffersOf(bills, t, rowsOn[t]) else []
  }

  /** Every draw is on a row that was offered, for no more than was free of it. */
  lemma {:induction false} DrawsAreOffered(offers: Target -> seq<Offer>, lines: seq<ClaimLine>, targets: seq<Target>,
      d: Draw)
    requires DrawAll(offers, lines, targets).Covered? && d in DrawAll(offers, lines, targets).draws
    ensures d.target in targets && d.quantity > 0.0
    ensures exists k :: 0 <= k < |offers(d.target)| &&
              offers(d.target)[k].row == d.row && d.quantity <= offers(d.target)[k].free
  {
    var t := targets[0];
    var rest := DrawAll(offers, lines, targets[1..]).draws;
    GreedyOnlyOffers(t, offers(t), LineQty(lines, t));
    if d !in Greedy(t, offers(t), LineQty(lines, t)) {
      assert d in rest;
      DrawsAreOffered(offers, lines, targets[1..], d);
    }
  }

  lemma GreedyFits(t: Target, offers: seq<Offer>, claimed: real, k: nat)
    requires OffersAscend(offers) && k < |offers| && offers[k].free > 0.0
    ensures Sum(Greedy(t, offers, claimed), DrawOnRow(t, offers[k].row)) <= offers[k].free
  {
    GreedyClosedForm(t, offers, claimed, k);
    assert Spare()(offers[k]) == offers[k].free;
  }

  /** All the draws on one row together take no more of it than was free. */
  lemma DrawsFitRow(offers: Target -> seq<Offer>, lines: seq<ClaimLine>, targets: seq<Target>, t: Target, k: nat)
    requires LinesPositive(lines) && TargetsAscend(targets) && DrawAll(offers, lines, targets).Covered?
    requires OffersAscend(offers(t)) && k < |offers(t)| && offers(t)[k].free > 0.0
    ensures Sum(DrawAll(offers, lines, targets).draws, DrawOnRow(t, offers(t)[k].row)) <= offers(t)[k].free
  {
    DrawsOnRow(offers, lines, targets, t, offers(t)[k].row);
    GreedyFits(t, offers(t), LineQty(lines, t), k);
  }

  /** One line of the draw. */
  lemma FollowingLine(done: seq<Draw>, offers: Target -> seq<Offer>, lines: seq<ClaimLine>, targets: seq<Target>)
    requires |targets| > 0
    ensures Shortfall(offers(targets[0]), LineQty(lines, targets[0])) > 0.0 ==> DrawAll(offers, lines, targets).Stuck?
    ensures Shortfall(offers(targets[0]), LineQty(lines, targets[0])) <= 0.0 ==>
              Following(done, DrawAll(offers, lines, targets)) ==
              Following(done + Greedy(targets[0], offers(targets[0]), LineQty(lines, targets[0])),
                  DrawAll(offers, lines, targets[1..]))
  {
    FollowingBoth(done, Greedy(targets[0], offers(targets[0]), LineQty(lines, targets[0])),
        DrawAll(offers, lines, targets[1..]));
  }

  // ── what a certificate rests on ──────────────────────────────────────────────────────────────

  /** Every draw is on a row held to the end: an original of a line the live version claims, on work
      signed off at commit, and consumed by live certificates for no more than stands on it. */
  ghost predicate RestsOnHeld(w: World, held: Locks, i: nat, draws: seq<Draw>)
    requires i < |w.bills| && |w.bills[i].versions| > 0
  {
    forall d :: d in draws ==>
      && (d.target, d.row) in held.rows && d.target in w.orders
      && Touches(Current(w.bills[i]).lines, d.target)
      && Consumed(w.bills, d.target, d.row) <= NetOf(w.orders[d.target].entries, d.row)
      && exists e :: e in w.orders[d.target].entries && e.corrects.None? && e.id == d.row &&
                     (d.target.kind == Labour ==> e.activity in w.signedOff)
  }

  /** One draw, decided on `drawn`, when the certificate is written on `w`. */
  lemma DrawRestsOnHeld(drawn: World, w: World, held: Locks, rowsOn: map<Target, seq<Row>>, i: nat,
      lines: seq<ClaimLine>, draws: seq<Draw>, d: Draw)
    requires Standing(w, held, rowsOn) && Spares(drawn, w, held)
    requires i < |w.bills| && |w.bills[i].versions| > 0 && LinesPositive(lines) && d in draws
    requires DrawAll(HeldOffers(drawn.bills, rowsOn), lines, TargetsOf(lines)) == Covered(draws)
    ensures (d.target, d.row) in held.rows && d.target in w.orders && d.target in TargetsOf(lines)
    ensures Consumed(w.bills[i := CertifiedBill(w.bills[i], draws)], d.target, d.row) <=
            NetOf(w.orders[d.target].entries, d.row)
    ensures exists e :: e in w.orders[d.target].entries && e.corrects.None? && e.id == d.row &&
              (d.target.kind == Labour ==> e.activity in w.signedOff)
  {
    var t, offers := d.target, HeldOffers(drawn.bills, rowsOn);
    DrawsAreOffered(offers, lines, TargetsOf(lines), d);
    var k :| 0 <= k < |offers(t)| && offers(t)[k].row == d.row && d.quantity <= offers(t)[k].free;
    var r := rowsOn[t][k];
    assert r in rowsOn[t] && RowStands(w, held, t, r);
    var e :| e in w.orders[t].entries && Heads(e, r);
    TargetsOfClaim(lines);
    DrawsFitRow(offers, lines, TargetsOf(lines), t, k);
    CertificateConsumes(w.bills, i, draws, t, d.row);
  }

  /** What the draw decided still holds of the held rows when the certificate is written. */
  lemma FrozenRestsOnHeld(drawn: World, w: World, held: Locks, rowsOn: map<Target, seq<Row>>, i: nat, draws: seq<Draw>)
    requires Standing(w, held, rowsOn) && Spares(drawn, w, held)
    requires i < |w.bills| && |w.bills[i].versions| > 0 && LinesPositive(Current(w.bills[i]).lines)
    requires DrawAll(HeldOffers(drawn.bills, rowsOn), Current(w.bills[i]).lines,
             TargetsOf(Current(w.bills[i]).lines)) == Covered(draws)
    ensures RestsOnHeld(w.(bills := w.bills[i := CertifiedBill(w.bills[i], draws)]), held, i, draws)
  {
    var lines := Current(w.bills[i]).lines;
    TargetsOfClaim(lines);
    forall d | d in draws
      ensures && (d.target, d.row) in held.rows && d.target in w.orders && Touches(lines, d.target)
              && Consumed(w.bills[i := CertifiedBill(w.bills[i], draws)], d.target, d.row) <=
                  NetOf(w.orders[d.target].entries, d.row)
      ensures exists e :: e in w.orders[d.target].entries && e.corrects.None? && e.id == d.row &&
                (d.target.kind == Labour ==> e.activity in w.signedOff)
    {
      DrawRestsOnHeld(drawn, w, held, rowsOn, i, lines, draws, d);
    }
  }

  lemma DrawnExactly(offers: Target -> seq<Offer>, lines: seq<ClaimLine>)
    requires LinesPositive(lines) && DrawAll(offers, lines, TargetsOf(lines)).Covered?
    ensures forall t :: Sum(DrawAll(offers, lines, TargetsOf(lines)).draws, DrawOn(t)) == LineQty(lines, t)
  {
    TargetsOfClaim(lines);
    forall t
      ensures Sum(DrawAll(offers, lines, TargetsOf(lines)).draws, DrawOn(t)) == LineQty(lines, t)
    {
      DrawsExact(offers, lines, TargetsOf(lines), t);
      if !Touches(lines, t) {
        UntouchedQty(lines, t);
      }
    }
  }

  lemma CertifiedStands(w: World, held: Locks, rowsOn: map<Target, seq<Row>>, i: nat, draws: seq<Draw>)
    requires Standing(w, held, rowsOn) && i < |w.bills| && |w.bills[i].versions| > 0
    ensures Standing(w.(bills := w.bills[i := CertifiedBill(w.bills[i], draws)]), held, rowsOn)
  {
    var now := w.(bills := w.bills[i := CertifiedBill(w.bills[i], draws)]);
    forall t, r | t in rowsOn && r in rowsOn[t]
      ensures RowStands(now, held, t, r)
    {
      assert RowStands(w, held, t, r);
    }
  }

  /** Taking the bill's lock changes nothing about the rows. */
  lemma StandsWithBill(w: World, held: Locks, rowsOn: map<Target, seq<Row>>, bill: Option<nat>)
    requires Standing(w, held.(bill := bill), rowsOn)
    ensures Standing(w, held, rowsOn)
  {
    forall t, r | t in rowsOn && r in rowsOn[t]
      ensures RowStands(w, held, t, r)
    {
      assert RowStands(w, held.(bill := bill), t, r);
    }
  }

  // ── a certification nobody interferes with ───────────────────────────────────────────────────

  ghost predicate Quiet(others: nat -> seq<Foreign>) { forall n :: others(n) == [] }

  /** The rows a line offers, as read under their lock. */
  function RowsAt(orders: map<Target, Order>, t: Target): seq<Row> {
    if t in orders then AvailableRows(orders[t].entries) else []
  }

  /** The activities the measurements of the labour lines rest on. */
  function ActivitiesIn(orders: map<Target, Order>, targets: seq<Target>): set<Id> {
    set t, e | t in targets && t.kind == Labour && t in orders && e in orders[t].entries :: e.activity
  }

  predicate RowsOnWork(rows: seq<Row>, activities: set<Id>) {
    forall r :: r in rows ==> r.activity in activities
  }

  lemma {:induction false} DrawAllSame(a: Target -> seq<Offer>, b: Target -> seq<Offer>, lines: seq<ClaimLine>,
      targets: seq<Target>)
    requires forall t :: t in targets ==> a(t) == b(t)
    ensures DrawAll(a, lines, targets) == DrawAll(b, lines, targets)
  {
    if |targets| > 0 {
      DrawAllSame(a, b, lines, targets[1..]);
    }
  }

  /** Rows of a line whose every measurement is on planned work are on planned work. */
  lemma PlannedRows(orders: map<Target, Order>, targets: seq<Target>, t: Target)
    requires t in targets && t.kind == Labour
    requires t in orders ==> Ascending(orders[t].entries)
    ensures RowsOnWork(RowsAt(orders, t), ActivitiesIn(orders, targets))
  {
    if t in orders {
      RowsAreOriginals(orders[t].entries, orders[t].entries);
      forall r | r in RowsAt(orders, t)
        ensures r.activity in ActivitiesIn(orders, targets)
      {
        var e :| e in orders[t].entries && Heads(e, r);
      }
    }
  }

  /** Every planned line's rows are in hand, as they stand. */
  predicate AllInHand(orders: map<Target, Order>, targets: seq<Target>, rowsOn: map<Target, seq<Row>>) {
    forall t :: t in targets ==> t in rowsOn && rowsOn[t] == RowsAt(orders, t)
  }

  lemma InHandDraws(bills: seq<Bill>, orders: map<Target, Order>, lines: seq<ClaimLine>, targets: seq<Target>,
      rowsOn: map<Target, seq<Row>>)
    requires AllInHand(orders, targets, rowsOn)
    ensures DrawAll(HeldOffers(bills, rowsOn), lines, targets) == DrawAll(OffersOn(bills, orders), lines, targets)
  {
    forall t | t in targets
      ensures HeldOffers(bills, rowsOn)(t) == OffersOn(bills, orders)(t)
    {
    }
    DrawAllSame(HeldOffers(bills, rowsOn), OffersOn(bills, orders), lines, targets);
  }

  /** The bill is verified, well formed, and claims the planned lines, all of them known. */
  predicate Claimed(w: World, i: nat, planned: seq<Target>) {
    && i < |w.bills| && |w.bills[i].versions| > 0 && w.bills[i].status == Verified
    && LinesPositive(Current(w.bills[i]).lines) && Known(Current(w.bills[i]).lines, w.orders)
    && TargetsOf(Current(w.bills[i]).lines) == planned
  }

  predicate WouldCertify(w: World, i: nat, planned: seq<Target>) {
    Claimed(w, i, planned) && Certify(State(w.bills, w.orders), i, false).Done?
  }

  /** The claim's draw on the rows in hand. */
  function ClaimDraw(w: World, i: nat, rowsOn: map<Target, seq<Row>>): DrawResult
    requires i < |w.bills| && |w.bills[i].versions| > 0
  {
    DrawAll(HeldOffers(w.bills, rowsOn), Current(w.bills[i]).lines, TargetsOf(Current(w.bills[i]).lines))
  }

  predicate Drawable(w: World, i: nat, rowsOn: map<Target, seq<Row>>)
    requires i < |w.bills| && |w.bills[i].versions| > 0
  {
    && AllWithin(w.bills, w.orders, Current(w.bills[i]).lines, false)
    && ClaimDraw(w, i, rowsOn).Covered? && Carried(w.bills[i]) <= ClaimedAmount(w.bills[i])
  }

  /** With every planned line's rows in hand, what the protocol asks is what the command asks. */
  lemma DrawableInHand(w: World, i: nat, planned: seq<Target>, rowsOn: map<Target, seq<Row>>)
    requires Claimed(w, i, planned) && AllInHand(w.orders, planned, rowsOn)
    ensures Drawable(w, i, rowsOn) <==> WouldCertify(w, i, planned)
    ensures Drawable(w, i, rowsOn) ==>
              Certify(State(w.bills, w.orders), i, false).state ==
              State(w.bills[i := CertifiedBill(w.bills[i], ClaimDraw(w, i, rowsOn).draws)], w.orders)
  {
    InHandDraws(w.bills, w.orders, Current(w.bills[i]).lines, planned, rowsOn);
  }

  /** What a certification nobody interferes with asks: the command's own conditions, and that every
      measurement on the claim's labour lines rests on work still signed off. */
  predicate Certifiable(w: World, i: nat) {
    && i < |w.bills| && |w.bills[i].versions| > 0 && LinesPositive(Current(w.bills[i]).lines)
    && ActivitiesIn(w.orders, TargetsOf(Current(w.bills[i]).lines)) <= w.signedOff
    && Certify(State(w.bills, w.orders), i, false).Done?
  }

  /** What a bill's last certificate takes over: what the one before it withholds, and no approval. */
  predicate TakesOver(b: Bill)
    requires |b.certificates| > 0
  {
    var n := |b.certificates| - 1;
    && b.certificates[n].withheld == (if n == 0 then 0.0 else b.certificates[n - 1].withheld)
    && b.certificates[n].withheld <= b.certificates[n].amount && b.certificates[n].approved == 0.0
  }

  lemma CertifiedTakesOver(b: Bill, draws: seq<Draw>)
    requires |b.versions| > 0 && Carried(b) <= ClaimedAmount(b)
    ensures |CertifiedBill(b, draws).certificates| > 0 && TakesOver(CertifiedBill(b, draws))
  {
  }

  /** A certificate just written: it stands, for the live version and its whole amount, on draws that
      rest on held rows and sum to the claim on every line, and takes over what the last withheld. */
  ghost predicate CertificateStands(w: World, held: Locks, i: nat, draws: seq<Draw>) {
    && i < |w.bills| && |w.bills[i].versions| > 0 && |w.bills[i].certificates| > 0
    && Last(w.bills[i]).draws == draws && !Last(w.bills[i]).superseded
    && Last(w.bills[i]).version == Current(w.bills[i]).number && Last(w.bills[i]).amount == ClaimedAmount(w.bills[i])
    && RestsOnHeld(w, held, i, draws) && TakesOver(w.bills[i])
    && forall t :: Sum(draws, DrawOn(t)) == LineQty(Current(w.bills[i]).lines, t)
  }

  class Certifier {
    var bills: seq<Bill>
    var orders: map<Target, Order>
    var signedOff: set<Id>
    var held: Locks
    var clock: nat // how many times others have had their turn

    constructor (bills: seq<Bill>, orders: map<Target, Order>, signedOff: set<Id>)
      ensures Here() == World(bills, orders, signedOff) && held == Locks({}, {}, None)
    {
      this.bills, this.orders, this.signedOff := bills, orders, signedOff;
      held := Locks({}, {}, None);
      clock := 0;
    }

    function Here(): World
      reads this
    {
      World(bills, orders, signedOff)
    }

    /** Other transactions act until this one takes its next lock: in turn `n`, `others(n)`. */
    method Meanwhile(others: nat -> seq<Foreign>, ghost rowsOn: map<Target, seq<Row>>)
      requires Standing(Here(), held, rowsOn)
      modifies this`bills, this`orders, this`signedOff, this`clock
      ensures Standing(Here(), held, rowsOn) && Spares(old(Here()), Here(), held)
      ensures Quiet(others) ==> Here() == old(Here())
    {
      var env := others(clock);
      clock := clock + 1;
      for k := 0 to |env|
        invariant Standing(Here(), held, rowsOn) && Spares(old(Here()), Here(), held)
        invariant k == 0 ==> Here() == old(Here())
      {
        ActSpares(Here(), held, env[k]);
        ActStands(Here(), held, rowsOn, env[k]);
        var w := Act(Here(), held, env[k]);
        bills, orders, signedOff := w.bills, w.orders, w.signedOff;
      }
    }

    /** Lock the rows of one line and read them under the lock. */
    method LockRows(t: Target, ghost rowsOn: map<Target, seq<Row>>) returns (rows: seq<Row>)
      requires Standing(Here(), held, rowsOn)
      modifies this`held
      ensures held.activities == old(held).activities && held.bill == old(held).bill && old(held).rows <= held.rows
      ensures Standing(Here(), held, rowsOn) && RowsAscend(rows) && rows == RowsAt(orders, t)
      ensures forall r :: r in rowsOn[t := rows][t] && (t.kind == Labour ==> r.activity in held.activities) ==>
                RowStands(Here(), held, t, r)
    {
      rows := [];
      if t in orders {
        var entries := orders[t].entries;
        rows := LockMeasurementsFor(entries);
        held := held.(rows := held.rows + set r | r in rows :: (t, r.id));
        RowsAreOriginals(entries, entries);
        forall p | p in held.rows
          ensures p.0 in orders && HasOriginal(orders[p.0].entries, p.1)
        {
          if p !in old(held).rows {
            var r :| r in rows && p == (t, r.id);
            var e :| e in entries && Heads(e, r);
          }
        }
        forall u, r | u in rowsOn && r in rowsOn[u]
          ensures RowStands(Here(), held, u, r)
        {
          assert RowStands(Here(), old(held), u, r);
        }
      }
    }

    /** The activities the labour lines' measurements rest on, read without a lock. */
    method ActivitiesFor(targets: seq<Target>) returns (activities: set<Id>)
      ensures activities == ActivitiesIn(orders, targets)
    {
      activities := {};
      for k := 0 to |targets|
        invariant activities == ActivitiesIn(orders, targets[..k])
      {
        var t := targets[k];
        assert targets[..k + 1] == targets[..k] + [t];
        if t.kind == Labour && t in orders {
          activities := activities + set e | e in orders[t].entries :: e.activity;
        }
      }
      assert targets[..|targets|] == targets;
    }

    /** Lock each planned activity in turn; one that is not signed off refuses the certificate. */
    method LockActivities(planned: set<Id>, others: nat -> seq<Foreign>, ghost rowsOn: map<Target, seq<Row>>)
      returns (ok: bool)
      requires Standing(Here(), held, rowsOn) && held.activities == {} && held.bill == None
      modifies this
      ensures Standing(Here(), held, rowsOn) && held.bill == None
      ensures ok ==> held.activities == planned
      ensures Quiet(others) ==> Here() == old(Here()) && (ok <==> planned <= signedOff)
    {
      var todo := planned;
      while todo != {}
        invariant Standing(Here(), held, rowsOn) && held.bill == None
        invariant Quiet(others) ==> Here() == old(Here())
        invariant held.activities + todo == planned && held.activities !! todo
        decreases todo
      {
        var a :| a in todo;
        Meanwhile(others, rowsOn);
        if a !in signedOff {
          return false;
        }
        held := held.(activities := held.activities + {a});
        todo := todo - {a};
        forall t, r | t in rowsOn && r in rowsOn[t]
          ensures RowStands(Here(), held, t, r)
        {
        }
      }
      return true;
    }

    /** The draw over the rows already locked, line by line. */
    method DrawClaim(lines: seq<ClaimLine>, rowsOn: map<Target, seq<Row>>) returns (ok: bool, draws: seq<Draw>)
      ensures match DrawAll(HeldOffers(bills, rowsOn), lines, TargetsOf(lines))
              case Stuck(_, _) => !ok
              case Covered(all) => ok && draws == all
    {
      var targets := TargetsOf(lines);
      ghost var offers := HeldOffers(bills, rowsOn);
      ghost var all := DrawAll(offers, lines, targets);
      ok, draws := true, [];
      assert targets[0..] == targets;
      for k := 0 to |targets|
        invariant ok && Following(draws, DrawAll(offers, lines, targets[k..])) == Following([], all)
      {
        var t := targets[k];
        assert targets[k..][0] == t && targets[k..][1..] == targets[k + 1..];
        FollowingLine(draws, offers, lines, targets[k..]);
        var rows := if t in rowsOn then rowsOn[t] else [];
        assert offers(t) == OffersOf(bills, t, rows);
        var some, remaining := DrawLine(bills, t, rows, LineQty(lines, t));
        if remaining > 0.0 {
          return false, [];
        }
        draws := draws + some;
      }
      assert targets[|targets|..] == [];
      assert draws + [] == draws;
      assert all.Covered? ==> [] + all.draws == all.draws;
    }

    /** Lock the rows of every line in `targets` of one kind, refusing a row on unlocked work. */
    method LockLines(targets: seq<Target>, kind: Kind, others: nat -> seq<Foreign>, rowsOn: map<Target, seq<Row>>)
      returns (ok: bool, all: map<Target, seq<Row>>)
      requires Standing(Here(), held, rowsOn) && held.bill == None
      modifies this
      ensures Standing(Here(), held, all) && held.bill == None && held.activities == old(held).activities
      ensures Quiet(others) ==> Here() == old(Here())
      ensures Quiet(others) && ok ==> forall t :: t in targets && t.kind == kind ==>
              t in all && all[t] == RowsAt(orders, t)
      ensures Quiet(others) && ok ==> forall t :: t in rowsOn && t.kind != kind ==> t in all && all[t] == rowsOn[t]
      ensures Quiet(others) && !ok ==>
              exists t :: t in targets && t.kind == kind == Labour && !RowsOnWork(RowsAt(orders, t), held.activities)
    {
      all := rowsOn;
      for k := 0 to |targets|
        invariant Standing(Here(), held, all) && held.bill == None && held.activities == old(held).activities
        invariant Quiet(others) ==> Here() == old(Here())
        invariant Quiet(others) ==> forall t :: t in targets[..k] && t.kind == kind ==>
                  t in all && all[t] == RowsAt(orders, t)
        invariant forall t :: t in rowsOn && t.kind != kind ==> t in all && all[t] == rowsOn[t]
      {
        var t := targets[k];
        assert targets[..k + 1] == targets[..k] + [t];
        if t.kind == kind {
          Meanwhile(others, all);
          var rows := LockRows(t, all);
          if t.kind == Labour && !RowsOnWork(rows, held.activities) {
            return false, all;
          }
          all := all[t := rows];
        }
      }
      assert targets[..|targets|] == targets;
      return true, all;
    }

    /** Everything a claim on `planned` rests on, locked before its bill: the material rows, then the
        activities, then the measurements. */
    method LockEvidence(planned: seq<Target>, others: nat -> seq<Foreign>)
      returns (ok: bool, rowsOn: map<Target, seq<Row>>)
      requires Standing(Here(), held, map[]) && held == Locks({}, {}, None)
      modifies this
      ensures Standing(Here(), held, rowsOn) && held.bill == None
      ensures Quiet(others) ==> Here() == old(Here()) && (ok <==> ActivitiesIn(orders, planned) <= signedOff)
      ensures Quiet(others) && ok ==> AllInHand(orders, planned, rowsOn)
    {
      ok, rowsOn := LockLines(planned, Material, others, map[]);
      if !ok {
        return;
      }
      var activities := ActivitiesFor(planned);
      ok := LockActivities(activities, others, rowsOn);
      if !ok {
        return;
      }
      forall t | t in planned && t.kind == Labour
        ensures RowsOnWork(RowsAt(old(orders), t), ActivitiesIn(old(orders), planned))
      {
        PlannedRows(old(orders), planned, t);
      }
      ok, rowsOn := LockLines(planned, Labour, others, rowsOn);
    }

    /** Decide the draw and write the certificate, under every lock. */
    method Freeze(i: nat, others: nat -> seq<Foreign>, rowsOn: map<Target, seq<Row>>)
      returns (ok: bool, draws: seq<Draw>)
      requires Standing(Here(), held, rowsOn) && held.bill == Some(i)
      requires i < |bills| && |bills[i].versions| > 0 && LinesPositive(Current(bills[i]).lines)
      modifies this`bills, this`orders, this`signedOff, this`clock
      ensures Standing(Here(), held, rowsOn) && i < |bills| && |bills[i].versions| > 0
      ensures ok ==> bills[i] == CertifiedBill(old(bills)[i], draws) && RestsOnHeld(Here(), held, i, draws)
      ensures ok ==> forall t :: Sum(draws, DrawOn(t)) == LineQty(Current(bills[i]).lines, t)
      ensures ok <==> old(
                && DrawAll(
                     HeldOffers(bills, rowsOn), Current(bills[i]).lines, TargetsOf(Current(bills[i]).lines)).Covered?
                && Carried(bills[i]) <= ClaimedAmount(bills[i]))
      ensures ok ==>
                Covered(draws) ==
                old(DrawAll(HeldOffers(bills, rowsOn), Current(bills[i]).lines, TargetsOf(Current(bills[i]).lines)))
      ensures Quiet(others) ==>
                Here() ==
                if ok then old(Here()).(bills := old(bills)[i := CertifiedBill(old(bills)[i], draws)]) else old(Here())
    {
      var lines := Current(bills[i]).lines;
      ok, draws := DrawClaim(lines, rowsOn);
      ghost var drawn := Here();
      if !ok || Carried(bills[i]) > ClaimedAmount(bills[i]) {
        return false, [];
      }
      Meanwhile(others, rowsOn);
      FrozenRestsOnHeld(drawn, Here(), held, rowsOn, i, draws);
      DrawnExactly(HeldOffers(drawn.bills, rowsOn), lines);
      CertifiedStands(Here(), held, rowsOn, i, draws);
      bills := bills[i := CertifiedBill(bills[i], draws)];
    }

    /** The bill is locked and its present version read again: still verified, still on the planned
        lines. */
    method HoldBill(i: nat, planned: seq<Target>, others: nat -> seq<Foreign>, rowsOn: map<Target, seq<Row>>)
      returns (ok: bool)
      requires Standing(Here(), held, rowsOn) && held.bill == None
      modifies this
      ensures Standing(Here(), held, rowsOn)
      ensures ok <==> Claimed(Here(), i, planned)
      ensures ok ==> held.bill == Some(i)
      ensures Quiet(others) ==> Here() == old(Here())
    {
      Meanwhile(others, rowsOn);
      ok := Claimed(Here(), i, planned);
      if ok {
        held := held.(bill := Some(i));
        StandsWithBill(Here(), held, rowsOn, None);
      }
    }

    /** The verdict on the held bill, then the draw and the certificate. */
    method JudgeAndFreeze(i: nat, planned: seq<Target>, others: nat -> seq<Foreign>, rowsOn: map<Target, seq<Row>>)
      returns (ok: bool, draws: seq<Draw>)
      requires Standing(Here(), held, rowsOn) && held.bill == Some(i) && Claimed(Here(), i, planned)
      modifies this`bills, this`orders, this`signedOff, this`clock
      ensures Standing(Here(), held, rowsOn)
      ensures ok ==> CertificateStands(Here(), held, i, draws)
      ensures Quiet(others) ==> (ok <==> Drawable(old(Here()), i, rowsOn))
      ensures Quiet(others) && ok ==>
                Drawable(old(Here()), i, rowsOn) && Covered(draws) == ClaimDraw(old(Here()), i, rowsOn)
                && Here() == old(Here()).(bills := old(bills)[i := CertifiedBill(old(bills)[i], draws)])
      ensures Quiet(others) && !ok ==> Here() == old(Here())
    {
      var lines := Current(bills[i]).lines;
      Meanwhile(others, rowsOn);
      if !AllWithin(bills, orders, lines, false) {
        return false, [];
      }
      Meanwhile(others, rowsOn);
      ghost var b := bills[i];
      ok, draws := Freeze(i, others, rowsOn);
      if ok {
        CertifiedTakesOver(b, draws);
      }
    }

    /** Everything after the evidence is locked: the bill, its present version against the plan, the
        verdict, the draw and the certificate. */
    method CertifyLocked(i: nat, planned: seq<Target>, others: nat -> seq<Foreign>, rowsOn: map<Target, seq<Row>>)
      returns (ok: bool, draws: seq<Draw>)
      requires Standing(Here(), held, rowsOn) && held.bill == None
      modifies this
      ensures Standing(Here(), held, rowsOn)
      ensures ok ==> CertificateStands(Here(), held, i, draws)
      ensures Quiet(others) && !ok ==> Here() == old(Here())
      ensures Quiet(others) && AllInHand(old(orders), planned, rowsOn) ==>
              (ok <==> WouldCertify(old(Here()), i, planned))
      ensures Quiet(others) && ok && AllInHand(old(orders), planned, rowsOn) ==>
                WouldCertify(old(Here()), i, planned) &&
                    State(bills, orders) == Certify(State(old(bills), old(orders)), i, false).state
                && signedOff == old(signedOff)
    {
      ghost var was := Here();
      ok := HoldBill(i, planned, others, rowsOn);
      if !ok {
        return false, [];
      }
      if Quiet(others) && AllInHand(was.orders, planned, rowsOn) {
        DrawableInHand(was, i, planned, rowsOn);
      }
      ok, draws := JudgeAndFreeze(i, planned, others, rowsOn);
    }

    /** CERTIFY. The plan is read without a lock; the evidence it names is locked before the bill;
        and everything is read again under the locks, while other transactions act before every
        lock, before the verdict, before the draw and before the certificate is written. Whatever
        they do, a certificate that is written rests on held rows of the live version, and sums to
        its claim; when they do nothing, it is written exactly when the command's conditions hold. */
    method CertifyClaim(i: nat, others: nat -> seq<Foreign>) returns (ok: bool, draws: seq<Draw>)
      requires Standing(Here(), held, map[]) && held == Locks({}, {}, None)
      modifies this
      ensures Standing(Here(), held, map[])
      ensures ok ==> CertificateStands(Here(), held, i, draws)
      ensures Quiet(others) ==> (ok <==> Certifiable(old(Here()), i))
      ensures Quiet(others) && ok ==>
                Certifiable(old(Here()), i) &&
                    State(bills, orders) == Certify(State(old(bills), old(orders)), i, false).state
                && signedOff == old(signedOff)
      ensures Quiet(others) && !ok ==> Here() == old(Here())
    {
      if i >= |bills| || |bills[i].versions| == 0 {
        return false, [];
      }
      var planned := TargetsOf(Current(bills[i]).lines);
      var rowsOn;
      ok, rowsOn := LockEvidence(planned, others);
      if !ok {
        return false, [];
      }
      ok, draws := CertifyLocked(i, planned, others, rowsOn);
    }
  }
}
