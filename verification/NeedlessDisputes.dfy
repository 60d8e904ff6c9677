/** When bills leaving the fold can make a withdrawal dispute a claim, or be refused, for nothing: the
    exact conditions over the table before the call, and the inputs that show them. */
module NeedlessDisputes {
  import opened Sums
  import opened Claims
  import opened Disposition
  import opened Interference
  import opened Commands
  import opened StaleTotals

  // ── when some departure does it ──────────────────────────────────────────────────────────────

  /** Bills the lifecycle lets go to `disputed`. */
  predicate Disputable(bills: seq<Bill>, gone: set<nat>) {
    forall i :: i in gone ==> i < |bills| && !PastCertification(bills[i].status)
  }

  /** The claims that leave are worth all the excess left when the `k`-th, newer than any of them and
      needed, is taken; the loop meets no certified claim before it loses one of them or is within its
      total. */
  predicate OvershootsBy(bills: seq<Bill>, t: Target, evidence: real, gone: set<nat>, k: nat) {
    var claims, billed := LiveClaims(bills, t), Billed(bills, t);
    && Disputable(bills, gone)
    && k < Least(FirstOf(claims, gone), Needed(claims, billed, evidence)) <= Clear(bills, claims)
    && LostOf(claims, gone) >= billed - Sum(claims[..k], Quantity()) - evidence
  }

  /** The `k`-th claim is needed, nothing certified comes before the loop has passed it, and it would
      fit the evidence beside the certified claims alone. */
  predicate Exposed(bills: seq<Bill>, t: Target, evidence: real, k: nat) {
    var claims := LiveClaims(bills, t);
    var n, r := Needed(claims, Billed(bills, t), evidence), Clear(bills, claims);
    && k < n && k < r && (k + 1 == n || k + 1 < r)
    && claims[k].quantity + CertifiedBilled(bills, t) <= evidence
  }

  function DisputesOf(gone: set<nat>, n: nat): seq<Step> {
    if n == 0 then [] else DisputesOf(gone, n - 1) + if n - 1 in gone then [Moves(n - 1, Disputed)] else []
  }

  lemma {:induction false} DisputesName(bills: seq<Bill>, gone: set<nat>, n: nat)
    requires Disputable(bills, gone)
    ensures Admitted(bills, DisputesOf(gone, n))
    ensures forall i :: i in BillsIn(DisputesOf(gone, n)) <==> i in gone && i < n
  {
    if n > 0 {
      DisputesName(bills, gone, n - 1);
      var before, steps := DisputesOf(gone, n - 1), DisputesOf(gone, n);
      forall i
        ensures i in BillsIn(steps) <==> i in gone && i < n
      {
        if i in BillsIn(before) {
          var k :| 0 <= k < |before| && before[k].bill == i;
          assert steps[k].bill == i;
        }
        if i in gone && i == n - 1 {
          assert steps[|steps| - 1].bill == i;
        }
      }
    }
  }

  lemma AllNamed(bills: seq<Bill>, gone: set<nat>)
    requires Disputable(bills, gone)
    ensures Admitted(bills, DisputesOf(gone, |bills|)) && BillsIn(DisputesOf(gone, |bills|)) == gone
  {
    DisputesName(bills, gone, |bills|);
  }

  function CertifiedQty(bills: seq<Bill>): Claim -> real {
    (c: Claim) => if IsCertified(bills, c) then c.quantity else 0.0
  }

  lemma {:induction false} InsertSums(claims: seq<Claim>, c: Claim, f: Claim -> real)
    ensures Sum(Insert(claims, c), f) == Sum(claims, f) + f(c)
  {
    SumOne(c, f);
    if |claims| == 0 || Newer(c, claims[0]) {
      SumAppend([c], claims, f);
    } else {
      InsertSums(claims[1..], c, f);
      assert claims == [claims[0]] + claims[1..];
      SumAppend([claims[0]], claims[1..], f);
      SumAppend([claims[0]], Insert(claims[1..], c), f);
    }
  }

  /** The certified claims in hand are the certified fold. */
  lemma {:induction false} CertifiedClaims(bills: seq<Bill>, t: Target, n: nat)
    requires AllOk(bills) && n <= |bills|
    ensures Sum(Gather(bills, t, n), CertifiedQty(bills)) == CertifiedBilled(bills[..n], t)
  {
    if n > 0 {
      CertifiedClaims(bills, t, n - 1);
      SumStep(bills, n - 1, CertifiedOn(t));
      CurrentQty(bills[n - 1], t);
      if ClaimsOf(bills[n - 1], t) {
        InsertSums(Gather(bills, t, n - 1), ClaimOf(bills, n - 1, t), CertifiedQty(bills));
      } else if PastCertification(bills[n - 1].status) {
        UntouchedQty(Current(bills[n - 1]).lines, t);
      }
    }
  }

  lemma {:induction false} FrontSums(claims: seq<Claim>, k: nat, f: Claim -> real)
    requires k <= |claims|
    ensures Sum(claims, f) == Sum(claims[..k], f) + Sum(claims[k..], f)
  {
    assert claims == claims[..k] + claims[k..];
    SumAppend(claims[..k], claims[k..], f);
  }

  /** What is live and uncertified from the `k`-th claim on. */
  function UncertifiedFrom(bills: seq<Bill>, claims: seq<Claim>, k: nat): set<nat> {
    set j | k <= j < |claims| && !IsCertified(bills, claims[j]) :: claims[j].bill
  }

  lemma FrontUncertified(bills: seq<Bill>, claims: seq<Claim>, k: nat)
    requires k <= Clear(bills, claims)
    ensures Sum(claims, CertifiedQty(bills)) == Sum(claims[k..], CertifiedQty(bills))
  {
    FrontSums(claims, k, CertifiedQty(bills));
    SumZero(claims[..k], CertifiedQty(bills));
  }

  lemma FrontKept(claims: seq<Claim>, gone: set<nat>, k: nat)
    requires k <= FirstOf(claims, gone)
    ensures LostOf(claims, gone) == LostOf(claims[k..], gone)
  {
    FrontSums(claims, k, QtyIn(gone));
    SumZero(claims[..k], QtyIn(gone));
  }

  lemma AllClaims(bills: seq<Bill>, t: Target)
    requires AllOk(bills)
    ensures InStep(bills, t, LiveClaims(bills, t))
    ensures Sum(LiveClaims(bills, t), Quantity()) == Billed(bills, t)
    ensures Sum(LiveClaims(bills, t), CertifiedQty(bills)) == CertifiedBilled(bills, t)
  {
    LiveClaimsExact(bills, t);
    ReadInStep(bills, t);
    CertifiedClaims(bills, t, |bills|);
    assert bills[..|bills|] == bills;
  }

  lemma RestWorth(bills: seq<Bill>, t: Target, claims: seq<Claim>, gone: set<nat>, k: nat)
    requires AllOk(bills) && InStep(bills, t, claims) && Disputable(bills, gone) && k <= |claims|
    ensures Sum(claims[k..], CertifiedQty(bills)) + Sum(claims[k..], QtyIn(gone)) <= Sum(claims[k..], Quantity())
    ensures gone == UncertifiedFrom(bills, claims, k) ==>
              Sum(claims[k..], CertifiedQty(bills)) + Sum(claims[k..], QtyIn(gone)) == Sum(claims[k..], Quantity())
  {
    var rest := claims[k..];
    var both := (c: Claim) => CertifiedQty(bills)(c) + QtyIn(gone)(c);
    SumSplit(rest, CertifiedQty(bills), QtyIn(gone), both);
    forall j | 0 <= j < |rest|
      ensures both(rest[j]) <= Quantity()(rest[j])
      ensures gone == UncertifiedFrom(bills, claims, k) ==> both(rest[j]) == Quantity()(rest[j])
    {
      assert rest[j] == claims[k + j] && Holds(bills, claims[k + j]);
      CurrentQty(bills[claims[k + j].bill], t);
    }
    SumLe(rest, both, Quantity());
    if gone == UncertifiedFrom(bills, claims, k) {
      SumSame(rest, both, Quantity());
    }
  }

  lemma StayWorth(bills: seq<Bill>, t: Target, claims: seq<Claim>, s: nat, gone: set<nat>, k: nat)
    requires AllOk(bills) && InStep(bills, t, claims) && Disputable(bills, gone)
    requires s <= k <= Clear(bills, claims) && k - s <= FirstOf(claims[s..], gone)
    ensures Sum(claims, CertifiedQty(bills)) <= LeftAt(claims, Sum(claims, Quantity()), s, gone, k)
  {
    FrontUncertified(bills, claims, k);
    FrontSums(claims, k, Quantity());
    FrontKept(claims[s..], gone, k - s);
    assert claims[s..][k - s..] == claims[k..];
    RestWorth(bills, t, claims, gone, k);
  }

  /** Departures leave at least the certified claims. */
  lemma CertifiedStay(bills: seq<Bill>, t: Target, s: nat, gone: set<nat>, k: nat, claims: seq<Claim>)
    requires AllOk(bills) && Disputable(bills, gone) && claims == LiveClaims(bills, t)
    requires s <= k <= Clear(bills, claims) && k - s <= FirstOf(claims[s..], gone)
    ensures CertifiedBilled(bills, t) <= LeftAt(claims, Billed(bills, t), s, gone, k)
  {
    AllClaims(bills, t);
    StayWorth(bills, t, claims, s, gone, k);
  }

  lemma FromTheFirst(bills: seq<Bill>, claims: seq<Claim>, gone: set<nat>, k: nat)
    requires Distinct(claims) && k <= |claims| && gone == UncertifiedFrom(bills, claims, k)
    ensures k <= FirstOf(claims, gone)
    ensures k < Clear(bills, claims) ==> FirstOf(claims, gone) == k
    ensures k < |claims| && IsCertified(bills, claims[k]) ==> k < FirstOf(claims, gone)
  {
    assert forall i, j :: 0 <= i < k <= j < |claims| ==> claims[i].bill != claims[j].bill;
    if k < Clear(bills, claims) {
      assert claims[k].bill in gone;
    }
  }

  lemma UncertifiedDisputable(bills: seq<Bill>, t: Target, claims: seq<Claim>, k: nat)
    requires InStep(bills, t, claims)
    ensures Disputable(bills, UncertifiedFrom(bills, claims, k))
  {
    forall i | i in UncertifiedFrom(bills, claims, k)
      ensures i < |bills| && !PastCertification(bills[i].status)
    {
      var j :| k <= j < |claims| && !IsCertified(bills, claims[j]) && claims[j].bill == i;
      assert Holds(bills, claims[j]);
    }
  }

  /** When every uncertified claim from the `k`-th on leaves, exactly the certified claims stay. */
  lemma OnlyCertifiedStay(bills: seq<Bill>, t: Target, k: nat, gone: set<nat>, claims: seq<Claim>)
    requires AllOk(bills) && claims == LiveClaims(bills, t) && k <= Clear(bills, claims)
    requires gone == UncertifiedFrom(bills, claims, k)
    ensures Disputable(bills, gone)
    ensures CertifiedBilled(bills, t) == LeftAt(claims, Billed(bills, t), 0, gone, k)
  {
    AllClaims(bills, t);
    FrontUncertified(bills, claims, k);
    FrontSums(claims, k, Quantity());
    FromTheFirst(bills, claims, gone, k);
    UncertifiedDisputable(bills, t, claims, k);
    FrontKept(claims, gone, k);
    assert claims[0..] == claims;
    RestWorth(bills, t, claims, gone, k);
  }

  lemma SumPrefixGrows(bills: seq<Bill>, t: Target, claims: seq<Claim>, j: nat, k: nat)
    requires AllOk(bills) && InStep(bills, t, claims) && j <= k <= |claims|
    ensures Sum(claims[..j], Quantity()) <= Sum(claims[..k], Quantity())
    decreases k
  {
    if j < k {
      SumPrefixGrows(bills, t, claims, j, k - 1);
      SumStep(claims, k - 1, Quantity());
      assert Holds(bills, claims[k - 1]);
      CurrentQty(bills[claims[k - 1].bill], t);
    }
  }

  /** An overshoot exposes the last claim it makes needless. */
  lemma OvershootExposes(bills: seq<Bill>, t: Target, evidence: real, s: nat, gone: set<nat>, claims: seq<Claim>,
      m: nat)
    requires AllOk(bills) && Disputable(bills, gone) && claims == LiveClaims(bills, t)
    requires Overshoots(bills, claims, Billed(bills, t), evidence, s, gone)
    requires m == TurnsTo(claims, Billed(bills, t), evidence, s, gone)
    ensures Exposed(bills, t, evidence, m - 1)
  {
    CertifiedStay(bills, t, s, gone, m, claims);
    SumStep(claims, m - 1, Quantity());
    var p := s + FirstOf(claims[s..], gone);
    if m == p && p < |claims| {
      assert claims[s..][p - s] == claims[p] && !IsCertified(bills, claims[p]);
    }
  }

  /** An exposed claim is made needless by every uncertified claim older than it. */
  lemma ExposedOvershoots(bills: seq<Bill>, t: Target, evidence: real, k: nat, gone: set<nat>)
    requires AllOk(bills) && Exposed(bills, t, evidence, k)
    requires gone == UncertifiedFrom(bills, LiveClaims(bills, t), k + 1)
    ensures OvershootsBy(bills, t, evidence, gone, k)
  {
    var claims := LiveClaims(bills, t);
    AllClaims(bills, t);
    OnlyCertifiedStay(bills, t, k + 1, gone, claims);
    FromTheFirst(bills, claims, gone, k + 1);
    SumStep(claims, k, Quantity());
    assert claims[0..] == claims;
  }

  /** Claims that overshoot do so at once. */
  lemma OvershootsAtOnce(bills: seq<Bill>, t: Target, evidence: real, gone: set<nat>, k: nat)
    requires AllOk(bills) && OvershootsBy(bills, t, evidence, gone, k)
    ensures Overshoots(bills, LiveClaims(bills, t), Billed(bills, t), evidence, 0, gone)
  {
    var claims := LiveClaims(bills, t);
    AllClaims(bills, t);
    assert claims[0..] == claims;
    SumPrefixGrows(bills, t, claims, k, TurnsTo(claims, Billed(bills, t), evidence, 0, gone) - 1);
  }

  /** Some bills leaving somewhere among the turns make the withdrawal dispute a claim for nothing. */
  ghost predicate MayDisputeForNothing(bills: seq<Bill>, t: Target, evidence: real)
    requires AllOk(bills)
  {
    exists s: nat, steps ::
      Admitted(bills, steps) && DisputesForNothing(bills, t, evidence, AmongTheTurns(s, steps))
  }

  ghost predicate SomeOvershoot(bills: seq<Bill>, t: Target, evidence: real) {
    exists gone, k: nat :: OvershootsBy(bills, t, evidence, gone, k)
  }

  ghost predicate SomeExposed(bills: seq<Bill>, t: Target, evidence: real) {
    exists k: nat :: Exposed(bills, t, evidence, k)
  }

  lemma AdmittedDisputable(bills: seq<Bill>, steps: seq<Step>)
    requires Admitted(bills, steps)
    ensures Disputable(bills, BillsIn(steps))
  {
  }

  lemma DisputeExposes(bills: seq<Bill>, t: Target, evidence: real, s: nat, steps: seq<Step>)
    requires AllOk(bills) && Admitted(bills, steps)
    requires DisputesForNothing(bills, t, evidence, AmongTheTurns(s, steps))
    ensures SomeExposed(bills, t, evidence)
  {
    var claims, gone := LiveClaims(bills, t), BillsIn(steps);
    DeparturesExactly(bills, t, evidence, s, steps);
    AdmittedDisputable(bills, steps);
    OvershootExposes(bills, t, evidence, s, gone, claims, TurnsTo(claims, Billed(bills, t), evidence, s, gone));
  }

  lemma OvershootDisputes(bills: seq<Bill>, t: Target, evidence: real, gone: set<nat>, k: nat)
    requires AllOk(bills) && OvershootsBy(bills, t, evidence, gone, k)
    ensures MayDisputeForNothing(bills, t, evidence)
  {
    var steps := DisputesOf(gone, |bills|);
    AllNamed(bills, gone);
    OvershootsAtOnce(bills, t, evidence, gone, k);
    DeparturesExactly(bills, t, evidence, 0, steps);
    assert Admitted(bills, steps) && DisputesForNothing(bills, t, evidence, AmongTheTurns(0, steps));
  }

  /** THE EXACT CONDITION FOR A NEEDLESS DISPUTE. Claims leaving among the turns can cause one if and
      only if some that may leave, all older than a claim the loop takes, are together worth the excess
      left when it takes it; that is, if and only if some claim the loop needs, with nothing certified
      before it is passed, would fit the evidence beside the certified claims. */
  lemma OverDisputesExactly(bills: seq<Bill>, t: Target, evidence: real)
    requires AllOk(bills)
    ensures MayDisputeForNothing(bills, t, evidence) <==> SomeOvershoot(bills, t, evidence)
    ensures MayDisputeForNothing(bills, t, evidence) <==> SomeExposed(bills, t, evidence)
  {
    if MayDisputeForNothing(bills, t, evidence) {
      var s: nat, steps :|
        Admitted(bills, steps) && DisputesForNothing(bills, t, evidence, AmongTheTurns(s, steps));
      DisputeExposes(bills, t, evidence, s, steps);
    }
    if SomeExposed(bills, t, evidence) {
      var k: nat :| Exposed(bills, t, evidence, k);
      ExposedOvershoots(bills, t, evidence, k, UncertifiedFrom(bills, LiveClaims(bills, t), k + 1));
    }
    if SomeOvershoot(bills, t, evidence) {
      var gone, k: nat :| OvershootsBy(bills, t, evidence, gone, k);
      OvershootDisputes(bills, t, evidence, gone, k);
    }
  }

  /** Some bills leaving somewhere among the turns make the withdrawal refused for nothing. */
  ghost predicate MayBeRefusedForNothing(bills: seq<Bill>, t: Target, evidence: real)
    requires AllOk(bills)
  {
    exists s: nat, steps ::
      Admitted(bills, steps) && RefusedForNothing(bills, t, evidence, AmongTheTurns(s, steps))
  }

  /** A certified claim among those the loop needs, and the certified claims within the evidence. */
  predicate Obstructed(bills: seq<Bill>, t: Target, evidence: real) {
    var claims := LiveClaims(bills, t);
    Clear(bills, claims) < Needed(claims, Billed(bills, t), evidence) && CertifiedBilled(bills, t) <= evidence
  }

  lemma RefusalObstructed(bills: seq<Bill>, t: Target, evidence: real, s: nat, steps: seq<Step>)
    requires AllOk(bills) && Admitted(bills, steps)
    requires RefusedForNothing(bills, t, evidence, AmongTheTurns(s, steps))
    ensures Obstructed(bills, t, evidence)
  {
    var claims := LiveClaims(bills, t);
    DeparturesExactly(bills, t, evidence, s, steps);
    AdmittedDisputable(bills, steps);
    CertifiedStay(bills, t, s, BillsIn(steps), Clear(bills, claims), claims);
  }

  /** It is obstructed at once by every uncertified claim older than the certified one. */
  lemma ObstructsAtOnce(bills: seq<Bill>, t: Target, evidence: real, claims: seq<Claim>, r: nat, gone: set<nat>)
    requires AllOk(bills) && Obstructed(bills, t, evidence)
    requires claims == LiveClaims(bills, t) && r == Clear(bills, claims) && gone == UncertifiedFrom(bills, claims, r)
    ensures Disputable(bills, gone) && Obstructs(bills, claims, Billed(bills, t), evidence, 0, gone)
  {
    AllClaims(bills, t);
    OnlyCertifiedStay(bills, t, r, gone, claims);
    FromTheFirst(bills, claims, gone, r);
    assert claims[0..] == claims;
  }

  lemma ObstructionRefuses(bills: seq<Bill>, t: Target, evidence: real, gone: set<nat>)
    requires AllOk(bills) && Disputable(bills, gone)
    requires Obstructs(bills, LiveClaims(bills, t), Billed(bills, t), evidence, 0, gone)
    ensures MayBeRefusedForNothing(bills, t, evidence)
  {
    var steps := DisputesOf(gone, |bills|);
    AllNamed(bills, gone);
    DeparturesExactly(bills, t, evidence, 0, steps);
    assert Admitted(bills, steps) && RefusedForNothing(bills, t, evidence, AmongTheTurns(0, steps));
  }

  /** THE EXACT CONDITION FOR A NEEDLESS REFUSAL. Claims leaving among the turns can cause one if and
      only if the loop needs a certified claim and the certified claims are within the evidence: a
      stale total drives it into the certified claim although the fold needs nothing more. */
  lemma RefusesExactly(bills: seq<Bill>, t: Target, evidence: real)
    requires AllOk(bills)
    ensures MayBeRefusedForNothing(bills, t, evidence) <==> Obstructed(bills, t, evidence)
  {
    if MayBeRefusedForNothing(bills, t, evidence) {
      var s: nat, steps :|
        Admitted(bills, steps) && RefusedForNothing(bills, t, evidence, AmongTheTurns(s, steps));
      RefusalObstructed(bills, t, evidence, s, steps);
    }
    if Obstructed(bills, t, evidence) {
      var r := Clear(bills, LiveClaims(bills, t));
      var gone := UncertifiedFrom(bills, LiveClaims(bills, t), r);
      ObstructsAtOnce(bills, t, evidence, LiveClaims(bills, t), r, gone);
      ObstructionRefuses(bills, t, evidence, gone);
    }
  }

  // ── any schedule of departures at all ────────────────────────────────────────────────────────

  predicate AllAdmitted(bills: seq<Bill>, env: Schedule) {
    forall k :: 0 <= k < |env| ==> Admitted(bills, env[k])
  }

  /** Each bill is as it was, or was uncertified and has left. */
  ghost predicate Thinned(was: seq<Bill>, now: seq<Bill>) {
    |now| == |was| && forall i :: 0 <= i < |was| ==> ThinnedAt(was[i], now[i])
  }

  predicate ThinnedAt(was: Bill, now: Bill) {
    now == was || (!PastCertification(was.status) && now.versions == was.versions && !IsLive(now.status))
  }

  lemma {:induction false} StepsThin(was: seq<Bill>, now: seq<Bill>, steps: seq<Step>)
    requires Thinned(was, now) && Admitted(was, steps)
    ensures Thinned(was, DisturbAll(now, steps))
    decreases |steps|
  {
    if |steps| > 0 {
      var next := Disturb(now, steps[0]);
      forall i | 0 <= i < |was|
        ensures ThinnedAt(was[i], next[i])
      {
        assert ThinnedAt(was[i], now[i]);
      }
      StepsThin(was, next, steps[1..]);
    }
  }

  lemma SlotThins(was: seq<Bill>, now: seq<Bill>, env: Schedule)
    requires Thinned(was, now) && AllAdmitted(was, env)
    ensures Thinned(was, Slot(now, env)) && AllAdmitted(was, Rest(env))
  {
    if |env| > 0 {
      StepsThin(was, now, env[0]);
    }
  }

  /** What is billed at the least while bill `i` is live: its claim, beside the certified claims. */
  function FloorWith(bills: seq<Bill>, t: Target, i: nat): real
    requires i < |bills|
  {
    CertifiedBilled(bills, t) + if PastCertification(bills[i].status) then 0.0 else BillOn(t)(bills[i])
  }

  /** The part of that floor in the first `n` bills. */
  function FloorUpTo(bills: seq<Bill>, t: Target, i: nat, n: nat): real
    requires i < |bills| && n <= |bills|
  {
    CertifiedBilled(bills[..n], t) + if i < n && !PastCertification(bills[i].status) then BillOn(t)(bills[i]) else 0.0
  }

  ghost predicate AllOthersLeft(was: seq<Bill>, now: seq<Bill>, i: nat) {
    |now| == |was| && forall k :: 0 <= k < |was| && k != i && !PastCertification(was[k].status) ==>
        !IsLive(now[k].status)
  }

  lemma ThinnedBill(was: Bill, now: Bill, t: Target)
    requires VersionsOk(was) && ThinnedAt(was, now)
    ensures BillOn(t)(now) >= CertifiedOn(t)(was)
    ensures PastCertification(was.status) || !IsLive(now.status) ==> BillOn(t)(now) == CertifiedOn(t)(was)
  {
    CurrentQty(was, t);
  }

  lemma {:induction false} ThinnedFold(was: seq<Bill>, now: seq<Bill>, t: Target, i: nat, n: nat)
    requires AllOk(was) && Thinned(was, now) && n <= |was| && i < |was| && now[i] == was[i]
    ensures Billed(now[..n], t) >= FloorUpTo(was, t, i, n)
    ensures AllOthersLeft(was, now, i) ==> Billed(now[..n], t) == FloorUpTo(was, t, i, n)
  {
    if n > 0 {
      ThinnedFold(was, now, t, i, n - 1);
      SumStep(was, n - 1, CertifiedOn(t));
      SumStep(now, n - 1, BillOn(t));
      assert ThinnedAt(was[n - 1], now[n - 1]) && VersionsOk(was[n - 1]);
      ThinnedBill(was[n - 1], now[n - 1], t);
    }
  }

  lemma FloorStands(was: seq<Bill>, now: seq<Bill>, t: Target, i: nat)
    requires AllOk(was) && Thinned(was, now) && i < |was| && now[i] == was[i]
    ensures Billed(now, t) >= FloorWith(was, t, i)
    ensures AllOthersLeft(was, now, i) ==> Billed(now, t) == FloorWith(was, t, i)
  {
    ThinnedFold(was, now, t, i, |was|);
    assert now[..|was|] == now && was[..|was|] == was;
  }

  /** A live claim that would fit the evidence beside the certified claims, or is one of them. */
  predicate Fits(bills: seq<Bill>, t: Target, evidence: real, i: nat) {
    i < |bills| && ClaimsOf(bills[i], t) && FloorWith(bills, t, i) <= evidence
  }

  ghost predicate SomeFits(bills: seq<Bill>, t: Target, evidence: real) {
    exists i: nat :: Fits(bills, t, evidence, i)
  }

  /** What every turn keeps: the table is thinned, and every claim in hand was one to begin with. */
  ghost predicate Thinning(was: seq<Bill>, c: Config, t: Target) {
    && AllOk(was) && AllOk(c.bills) && Thinned(was, c.bills) && AllAdmitted(was, c.env)
    && forall k :: 0 <= k < |c.claims| ==> c.claims[k].bill < |was| && ClaimsOf(was[c.claims[k].bill], t)
  }

  lemma ReadThins(was: seq<Bill>, now: seq<Bill>, t: Target)
    requires AllOk(was) && AllOk(now) && Thinned(was, now)
    ensures forall k :: 0 <= k < |LiveClaims(now, t)| ==>
              LiveClaims(now, t)[k].bill < |was| && ClaimsOf(was[LiveClaims(now, t)[k].bill], t)
  {
    var claims := LiveClaims(now, t);
    LiveClaimsExact(now, t);
    forall k | 0 <= k < |claims|
      ensures claims[k].bill < |was| && ClaimsOf(was[claims[k].bill], t)
    {
      assert claims[k] in claims;
      assert ThinnedAt(was[claims[k].bill], now[claims[k].bill]);
    }
  }

  /** When no claim fits, whatever the loop meets is over the evidence. */
  lemma MetOver(was: seq<Bill>, c: Config, t: Target, evidence: real)
    requires Thinning(was, c, t) && !SomeFits(was, t, evidence)
    requires |c.claims| > 0 && Holds(Met(c), c.claims[0])
    ensures Billed(Met(c), t) > evidence
  {
    var i := c.claims[0].bill;
    SlotThins(was, c.bills, c.env);
    assert ThinnedAt(was[i], Met(c)[i]);
    FloorStands(was, Met(c), t, i);
    assert !Fits(was, t, evidence, i);
  }

  /** Where a turn that takes its claim leads. */
  function AfterTaking(c: Config): Config
    requires |c.claims| > 0 && c.claims[0].bill < |c.bills|
  {
    Config(Dispute(Met(c), c.claims[0].bill), c.claims[1..], c.billed - c.claims[0].quantity, Rest(c.env))
  }

  lemma DisputeThins(was: seq<Bill>, now: seq<Bill>, i: nat)
    requires AllOk(now) && Thinned(was, now) && i < |now| && !PastCertification(now[i].status)
    ensures AllOk(Dispute(now, i)) && Thinned(was, Dispute(now, i))
  {
    var next := Dispute(now, i);
    assert VersionsOk(now[i]) && ThinnedAt(was[i], now[i]);
    forall k | 0 <= k < |was|
      ensures ThinnedAt(was[k], next[k])
    {
      assert ThinnedAt(was[k], now[k]);
    }
  }

  lemma TakeThins(was: seq<Bill>, c: Config, t: Target)
    requires Thinning(was, c, t) && |c.claims| > 0 && !PastCertification(Met(c)[c.claims[0].bill].status)
    ensures Thinning(was, AfterTaking(c), t)
  {
    SlotThins(was, c.bills, c.env);
    SlotKeeps(c.bills, c.env);
    DisputeThins(was, Met(c), c.claims[0].bill);
  }

  lemma RereadThins(was: seq<Bill>, c: Config, t: Target, next: Config)
    requires Thinning(was, c, t)
    requires next == Config(MetAgain(c), LiveClaims(MetAgain(c), t), Billed(Met(c), t), Rest(Rest(c.env)))
    ensures Thinning(was, next, t)
  {
    SlotThins(was, c.bills, c.env);
    SlotThins(was, Met(c), Rest(c.env));
    SlotKeeps(c.bills, c.env);
    SlotKeeps(Met(c), Rest(c.env));
    ReadThins(was, MetAgain(c), t);
  }

  lemma {:induction false} NothingFitsNothingWrong(was: seq<Bill>, c: Config, t: Target, evidence: real)
    requires Thinning(was, c, t) && !SomeFits(was, t, evidence)
    ensures EachNeeded(c, t, evidence) && RefusalNeeded(c, t, evidence)
    decreases Left(c.env), Behind(c), |c.claims|
  {
    TurnDescends(c, t, evidence);
    match TurnOf(c, t, evidence)
    case Stops =>
    case Refuses =>
      MetOver(was, c, t, evidence);
    case Takes(_, next) =>
      MetOver(was, c, t, evidence);
      TakeThins(was, c, t);
      NothingFitsNothingWrong(was, next, t, evidence);
    case Rereads(next) =>
      RereadThins(was, c, t, next);
      NothingFitsNothingWrong(was, next, t, evidence);
  }

  /** Some schedule of departures, however many and wherever they land, makes the withdrawal dispute or
      refuse for nothing. */
  ghost predicate MayGoWrong(bills: seq<Bill>, t: Target, evidence: real)
    requires AllOk(bills)
  {
    exists env :: AllAdmitted(bills, env)
      && (DisputesForNothing(bills, t, evidence, env) || RefusedForNothing(bills, t, evidence, env))
  }

  lemma StartsThinning(bills: seq<Bill>, t: Target, env: Schedule)
    requires AllOk(bills) && AllAdmitted(bills, env)
    ensures Thinning(bills, FirstReads(bills, t, env), t)
  {
    assert forall i :: 0 <= i < |bills| ==> ThinnedAt(bills[i], bills[i]);
    SlotThins(bills, bills, env);
    SlotKeeps(bills, env);
    ReadThins(bills, Slot(bills, env), t);
  }

  lemma WrongFits(bills: seq<Bill>, t: Target, evidence: real, env: Schedule)
    requires AllOk(bills) && AllAdmitted(bills, env)
    requires DisputesForNothing(bills, t, evidence, env) || RefusedForNothing(bills, t, evidence, env)
    ensures Billed(bills, t) > evidence && SomeFits(bills, t, evidence)
  {
    var c := FirstReads(bills, t, env);
    FromFirstReads(bills, t, evidence, env);
    if Billed(bills, t) <= evidence {
      TurnOutcome(c, t, evidence);
    } else if !SomeFits(bills, t, evidence) {
      StartsThinning(bills, t, env);
      NothingFitsNothingWrong(bills, c, t, evidence);
    }
  }

  /** Every live bill that can leave, but one. */
  function AllBut(bills: seq<Bill>, i: nat): set<nat> {
    set k | 0 <= k < |bills| && k != i && IsLive(bills[k].status) && !PastCertification(bills[k].status)
  }

  lemma OneStays(bills: seq<Bill>, t: Target, i: nat, steps: seq<Step>, now: seq<Bill>)
    requires AllOk(bills) && i < |bills| && ClaimsOf(bills[i], t) && Admitted(bills, steps)
    requires BillsIn(steps) == AllBut(bills, i) && now == DisturbAll(bills, steps)
    ensures AllOk(now) && Billed(now, t) == FloorWith(bills, t, i) && LiveClaims(now, t) != []
  {
    AllDepart(bills, steps);
    forall k | 0 <= k < |bills|
      ensures ThinnedAt(bills[k], now[k])
    {
      assert k in BillsIn(steps) ==> k in AllBut(bills, i);
    }
    FloorStands(bills, now, t, i);
    LiveClaimsExact(now, t);
    assert ClaimOf(now, i, t) in LiveClaims(now, t);
  }

  lemma WithinGoesWrong(bills: seq<Bill>, t: Target, evidence: real, steps: seq<Step>)
    requires AllOk(bills) && Billed(bills, t) > evidence && Admitted(bills, steps)
    requires AllOk(DisturbAll(bills, steps)) && Billed(DisturbAll(bills, steps), t) <= evidence
    requires LiveClaims(DisturbAll(bills, steps), t) != []
    ensures DisputesForNothing(bills, t, evidence, [steps]) || RefusedForNothing(bills, t, evidence, [steps])
  {
    var now := DisturbAll(bills, steps);
    var claims := LiveClaims(now, t);
    var n, r := Needed(claims, Billed(bills, t), evidence), Clear(now, claims);
    BetweenTheReadsExactly(bills, t, evidence, steps);
    ReadInStep(now, t);
    SumFrontNonneg(now, t, claims, if r < n then r else n - 1);
  }

  lemma FitGoesWrong(bills: seq<Bill>, t: Target, evidence: real, i: nat)
    requires AllOk(bills) && Billed(bills, t) > evidence && Fits(bills, t, evidence, i)
    ensures MayGoWrong(bills, t, evidence)
  {
    var steps := DisputesOf(AllBut(bills, i), |bills|);
    AllNamed(bills, AllBut(bills, i));
    OneStays(bills, t, i, steps, DisturbAll(bills, steps));
    WithinGoesWrong(bills, t, evidence, steps);
    var env: Schedule := [steps];
    assert AllAdmitted(bills, env);
  }

  /** AND OVER EVERY SCHEDULE. However many claims leave, in whatever slots, through any number of lost
      compare-and-sets, the withdrawal can be made to dispute or to refuse for nothing if and only if
      the line is over its evidence and some live claim would fit it beside the certified claims. */
  lemma GoesWrongExactly(bills: seq<Bill>, t: Target, evidence: real)
    requires AllOk(bills)
    ensures MayGoWrong(bills, t, evidence) <==> Billed(bills, t) > evidence && SomeFits(bills, t, evidence)
  {
    if MayGoWrong(bills, t, evidence) {
      var env :| AllAdmitted(bills, env)
        && (DisputesForNothing(bills, t, evidence, env) || RefusedForNothing(bills, t, evidence, env));
      WrongFits(bills, t, evidence, env);
    }
    if Billed(bills, t) > evidence && SomeFits(bills, t, evidence) {
      var i: nat :| Fits(bills, t, evidence, i);
      FitGoesWrong(bills, t, evidence, i);
    }
  }

  /** The same of a certified claim: it fits when the certified claims do. */
  predicate CertifiedFits(bills: seq<Bill>, t: Target, evidence: real, i: nat) {
    Fits(bills, t, evidence, i) && PastCertification(bills[i].status)
  }

  ghost predicate SomeCertifiedFits(bills: seq<Bill>, t: Target, evidence: real) {
    exists i: nat :: CertifiedFits(bills, t, evidence, i)
  }

  lemma RefusedOver(was: seq<Bill>, c: Config, t: Target, evidence: real)
    requires Thinning(was, c, t) && !SomeCertifiedFits(was, t, evidence)
    requires |c.claims| > 0 && Holds(Met(c), c.claims[0]) && PastCertification(Met(c)[c.claims[0].bill].status)
    ensures Billed(Met(c), t) > evidence
  {
    var i := c.claims[0].bill;
    SlotThins(was, c.bills, c.env);
    assert ThinnedAt(was[i], Met(c)[i]);
    FloorStands(was, Met(c), t, i);
    assert !CertifiedFits(was, t, evidence, i);
  }

  lemma {:induction false} NoneRefusedForNothing(was: seq<Bill>, c: Config, t: Target, evidence: real)
    requires Thinning(was, c, t) && !SomeCertifiedFits(was, t, evidence)
    ensures RefusalNeeded(c, t, evidence)
    decreases Left(c.env), Behind(c), |c.claims|
  {
    TurnDescends(c, t, evidence);
    match TurnOf(c, t, evidence)
    case Stops =>
    case Refuses =>
      RefusedOver(was, c, t, evidence);
    case Takes(_, next) =>
      TakeThins(was, c, t);
      NoneRefusedForNothing(was, next, t, evidence);
    case Rereads(next) =>
      RereadThins(was, c, t, next);
      NoneRefusedForNothing(was, next, t, evidence);
  }

  ghost predicate MayBeRefusedSomehow(bills: seq<Bill>, t: Target, evidence: real)
    requires AllOk(bills)
  {
    exists env :: AllAdmitted(bills, env) && RefusedForNothing(bills, t, evidence, env)
  }

  lemma RefusalFits(bills: seq<Bill>, t: Target, evidence: real, env: Schedule)
    requires AllOk(bills) && AllAdmitted(bills, env) && RefusedForNothing(bills, t, evidence, env)
    ensures Billed(bills, t) > evidence && SomeCertifiedFits(bills, t, evidence)
  {
    if !SomeCertifiedFits(bills, t, evidence) {
      StartsThinning(bills, t, env);
      NoneRefusedForNothing(bills, FirstReads(bills, t, env), t, evidence);
    }
  }

  /** Beside a certified claim that stays, only certified claims stay. */
  lemma HandCertified(bills: seq<Bill>, t: Target, i: nat, steps: seq<Step>, now: seq<Bill>)
    requires AllOk(bills) && i < |bills| && PastCertification(bills[i].status) && Admitted(bills, steps)
    requires BillsIn(steps) == AllBut(bills, i) && now == DisturbAll(bills, steps) && AllOk(now)
    requires LiveClaims(now, t) != []
    ensures Clear(now, LiveClaims(now, t)) == 0
  {
    var c := LiveClaims(now, t)[0];
    AllDepart(bills, steps);
    LiveClaimsExact(now, t);
    assert c in LiveClaims(now, t);
    assert c.bill in BillsIn(steps) <==> c.bill in AllBut(bills, i);
  }

  lemma CertifiedFitRefuses(bills: seq<Bill>, t: Target, evidence: real, i: nat)
    requires AllOk(bills) && Billed(bills, t) > evidence && CertifiedFits(bills, t, evidence, i)
    ensures MayBeRefusedSomehow(bills, t, evidence)
  {
    var steps := DisputesOf(AllBut(bills, i), |bills|);
    AllNamed(bills, AllBut(bills, i));
    OneStays(bills, t, i, steps, DisturbAll(bills, steps));
    HandCertified(bills, t, i, steps, DisturbAll(bills, steps));
    BetweenTheReadsExactly(bills, t, evidence, steps);
    assert LiveClaims(DisturbAll(bills, steps), t)[..0] == [];
    var env: Schedule := [steps];
    assert AllAdmitted(bills, env);
  }

  /** And a needless refusal, under some schedule, if and only if the line is over its evidence and has
      a certified claim while the certified claims are within it. */
  lemma RefusedSomehowExactly(bills: seq<Bill>, t: Target, evidence: real)
    requires AllOk(bills)
    ensures MayBeRefusedSomehow(bills, t, evidence) <==>
            Billed(bills, t) > evidence && SomeCertifiedFits(bills, t, evidence)
  {
    if MayBeRefusedSomehow(bills, t, evidence) {
      var env :| AllAdmitted(bills, env) && RefusedForNothing(bills, t, evidence, env);
      RefusalFits(bills, t, evidence, env);
    }
    if Billed(bills, t) > evidence && SomeCertifiedFits(bills, t, evidence) {
      var i: nat :| CertifiedFits(bills, t, evidence, i);
      CertifiedFitRefuses(bills, t, evidence, i);
    }
  }

  // ── four inputs ──────────────────────────────────────────────────────────────────────────────

  const ROW := Target(Material, 0)

  function Claiming(quantity: real, at: nat): Bill {
    Bill(Submitted, [Version(1, at, false, [ClaimLine(ROW, quantity, quantity)])], [], 0.0)
  }

  lemma ClaimingBills(quantity: real, at: nat)
    requires quantity > 0.0
    ensures VersionsOk(Claiming(quantity, at)) && ClaimsOf(Claiming(quantity, at), ROW)
    ensures BillOn(ROW)(Claiming(quantity, at)) == LineQty(Current(Claiming(quantity, at)).lines, ROW) == quantity
  {
    var b := Claiming(quantity, at);
    assert Current(b).lines[0].target == ROW;
    SumOne(ClaimLine(ROW, quantity, quantity), QtyOf(ROW));
    CurrentQty(b, ROW);
  }

  lemma FoldOfThree(a: Bill, b: Bill, c: Bill)
    ensures Billed([a, b, c], ROW) == BillOn(ROW)(a) + BillOn(ROW)(b) + BillOn(ROW)(c)
  {
    SumStep([a, b, c], 2, BillOn(ROW));
    SumStep([a, b, c], 1, BillOn(ROW));
    SumStep([a, b, c], 0, BillOn(ROW));
    assert [a, b, c][..3] == [a, b, c];
  }

  /** Three claims, the last the newest. */
  function Three(a: real, b: real, c: real): seq<Bill> { [Claiming(a, 1), Claiming(b, 2), Claiming(c, 3)] }

  lemma ThreeClaims(a: real, b: real, c: real)
    requires a > 0.0 && b > 0.0 && c > 0.0
    ensures AllOk(Three(a, b, c)) && Billed(Three(a, b, c), ROW) == a + b + c
    ensures LiveClaims(Three(a, b, c), ROW) == [Claim(2, 1, 3, c), Claim(1, 1, 2, b), Claim(0, 1, 1, a)]
  {
    var bills := Three(a, b, c);
    ClaimingBills(a, 1);
    ClaimingBills(b, 2);
    ClaimingBills(c, 3);
    FoldOfThree(bills[0], bills[1], bills[2]);
    var x, y, z := ClaimOf(bills, 0, ROW), ClaimOf(bills, 1, ROW), ClaimOf(bills, 2, ROW);
    assert Gather(bills, ROW, 1) == [x];
    assert Gather(bills, ROW, 2) == [y, x];
    assert Insert([y, x], z) == [z, y, x];
  }

  lemma OvershootsNow(bills: seq<Bill>, t: Target, evidence: real, steps: seq<Step>, k: nat)
    requires AllOk(bills) && Admitted(bills, steps) && OvershootsBy(bills, t, evidence, BillsIn(steps), k)
    ensures DisputesForNothing(bills, t, evidence, AmongTheTurns(0, steps))
  {
    OvershootsAtOnce(bills, t, evidence, BillsIn(steps), k);
    DeparturesExactly(bills, t, evidence, 0, steps);
  }

  /** The sums of three claims, front by front, and what is lost of them. */
  lemma ThreeSums(x: Claim, y: Claim, z: Claim, f: Claim -> real)
    ensures Sum([x, y, z], f) == f(x) + f(y) + f(z)
    ensures Sum([x, y, z][..0], f) == 0.0
    ensures Sum([x, y, z][..1], f) == f(x)
    ensures Sum([x, y, z][..2], f) == f(x) + f(y)
  {
    SumStep([x, y, z], 2, f);
    SumStep([x, y, z], 1, f);
    SumStep([x, y, z], 0, f);
    assert [x, y, z][..3] == [x, y, z];
  }

  const OLDEST_LEAVES: seq<Step> := [Moves(0, Disputed)]

  const MIDDLE_LEAVES: seq<Step> := [Moves(1, Disputed)]

  lemma OneLeaves(bills: seq<Bill>, i: nat)
    requires i < |bills| && !PastCertification(bills[i].status)
    ensures Admitted(bills, [Moves(i, Disputed)]) && BillsIn([Moves(i, Disputed)]) == {i}
  {
    assert [Moves(i, Disputed)][0].bill == i;
  }

  /** Claims of 40, 30 and 30 on evidence fallen to 60. */
  const THREE := Three(40.0, 30.0, 30.0)

  const ELSEWHERE: Schedule := AmongTheTurns(0, OLDEST_LEAVES)

  function Unreached(): Config { FirstReads(THREE, ROW, ELSEWHERE) }

  /** The newest is disputed, on a table where the first already was. */
  lemma FirstTurn()
    ensures AllOk(THREE) && TurnOf(Unreached(), ROW, 60.0).Takes? && TurnOf(Unreached(), ROW, 60.0).bill == 2
    ensures TurnOf(Unreached(), ROW, 60.0).next ==
            Config(Dispute(Dispute(THREE, 0), 2), [Claim(1, 1, 2, 30.0), Claim(0, 1, 1, 40.0)], 70.0, [])
    ensures NoRise(THREE, Met(Unreached()), ROW)
  {
    ThreeClaims(40.0, 30.0, 30.0);
    ClaimingBills(40.0, 1);
    assert Slot(THREE, ELSEWHERE) == THREE && Rest(ELSEWHERE) == [[Moves(0, Disputed)]];
    assert Met(Unreached()) == Dispute(THREE, 0);
    assert Rest(Rest(ELSEWHERE)) == [];
  }

  function Stale(): Config {
    Config(Dispute(Dispute(THREE, 0), 2), [Claim(1, 1, 2, 30.0), Claim(0, 1, 1, 40.0)], 70.0, [])
  }

  /** The next is disputed too, though only it is left. */
  lemma SecondTurn()
    ensures AllOk(Stale().bills) && Billed(Stale().bills, ROW) == 30.0
    ensures TurnOf(Stale(), ROW, 60.0) ==
            Takes(1, Config(Dispute(Stale().bills, 1), [Claim(0, 1, 1, 40.0)], 40.0, []))
  {
    var bills := Stale().bills;
    ThreeClaims(40.0, 30.0, 30.0);
    ClaimingBills(40.0, 1);
    ClaimingBills(30.0, 2);
    ClaimingBills(30.0, 3);
    FoldOfThree(bills[0], bills[1], bills[2]);
    assert bills == [bills[0], bills[1], bills[2]];
    assert Holds(bills, Claim(1, 1, 2, 30.0));
  }

  lemma ThirdTurn()
    ensures TurnOf(Config(Dispute(Stale().bills, 1), [Claim(0, 1, 1, 40.0)], 40.0, []), ROW, 60.0) == Stops
  {
  }

  function Settled(): Config { Config(Dispute(Stale().bills, 1), [Claim(0, 1, 1, 40.0)], 40.0, []) }

  lemma StaleEnds()
    ensures AllOk(Stale().bills) && Loop(Stale(), ROW, 60.0) == Ended(Settled().bills, [1])
  {
    SecondTurn();
    LoopTakes(Stale(), ROW, 60.0, 1, Settled());
    SettledStops();
  }

  lemma StaleLoop()
    ensures AllOk(THREE) && Loop(Unreached(), ROW, 60.0) == Ended(Settled().bills, [2, 1])
  {
    FirstTurn();
    StaleEnds();
    LoopTakes(Unreached(), ROW, 60.0, 2, Stale());
    assert [2] + [1] == [2, 1];
  }

  lemma SettledStops()
    requires AllOk(Settled().bills)
    ensures Loop(Settled(), ROW, 60.0) == Ended(Settled().bills, [])
  {
    ThirdTurn();
  }

  lemma CalmTakes(c: Config, t: Target, evidence: real, i: nat, next: Config)
    requires AllOk(c.bills) && TurnOf(c, t, evidence) == Takes(i, next)
    ensures AllOk(next.bills)
    ensures Calm(c, t, evidence) <==> NoRise(c.bills, Met(c), t) && Calm(next, t, evidence)
  {
    TurnDescends(c, t, evidence);
  }

  lemma StaleIsCalm()
    ensures AllOk(THREE) && CalmFrom(THREE, ROW, 60.0, ELSEWHERE)
  {
    FirstTurn();
    SecondTurn();
    ThirdTurn();
    CalmTakes(Unreached(), ROW, 60.0, 2, Stale());
    CalmTakes(Stale(), ROW, 60.0, 1, Settled());
    assert Met(Stale()) == Stale().bills;
    assert Calm(Settled(), ROW, 60.0);
  }

  lemma UnreachedWorth()
    ensures AllOk(THREE) && OvershootsBy(THREE, ROW, 60.0, {0}, 1)
  {
    var claims := [Claim(2, 1, 3, 30.0), Claim(1, 1, 2, 30.0), Claim(0, 1, 1, 40.0)];
    ThreeClaims(40.0, 30.0, 30.0);
    ThreeSums(claims[0], claims[1], claims[2], Quantity());
    ThreeSums(claims[0], claims[1], claims[2], QtyIn({0}));
  }

  lemma UnreachedOvershoots()
    ensures AllOk(THREE) && Admitted(THREE, OLDEST_LEAVES) && DisputesForNothing(THREE, ROW, 60.0, ELSEWHERE)
  {
    UnreachedWorth();
    OneLeaves(THREE, 0);
    OvershootsNow(THREE, ROW, 60.0, OLDEST_LEAVES, 1);
  }

  /** A claim of 40, the oldest, is disputed before the first compare-and-set. Nothing the loop reaches
      has changed, so it never re-reads: it disputes the newest and then, on a stale total of 70, the
      other 30 as well, though 30 was all that was left billed against 60. */
  lemma StaleTotalOverDisputes()
    ensures AllOk(THREE) && CalmFrom(THREE, ROW, 60.0, ELSEWHERE)
    ensures Disposes(THREE, ROW, 60.0, ELSEWHERE).Ended?
    ensures Disposes(THREE, ROW, 60.0, ELSEWHERE).disputed == [2, 1]
    ensures Billed(Dispute(Dispute(THREE, 0), 2), ROW) == 30.0
    ensures Admitted(THREE, OLDEST_LEAVES) && DisputesForNothing(THREE, ROW, 60.0, ELSEWHERE)
  {
    ThreeClaims(40.0, 30.0, 30.0);
    StaleLoop();
    StaleIsCalm();
    SecondTurn();
    UnreachedOvershoots();
  }

  /** Claims of 40, 50 and 10 on the same evidence. The 50 is disputed before the first
      compare-and-set, and the loop does reach it and lose it: too late for the 10. */
  const REACHED := Three(40.0, 50.0, 10.0)

  function FromReached(): Config { FirstReads(REACHED, ROW, AmongTheTurns(0, MIDDLE_LEAVES)) }

  lemma ReachedWorth()
    ensures AllOk(REACHED) && OvershootsBy(REACHED, ROW, 60.0, {1}, 0)
  {
    var claims := [Claim(2, 1, 3, 10.0), Claim(1, 1, 2, 50.0), Claim(0, 1, 1, 40.0)];
    ThreeClaims(40.0, 50.0, 10.0);
    ThreeSums(claims[0], claims[1], claims[2], Quantity());
    ThreeSums(claims[0], claims[1], claims[2], QtyIn({1}));
  }

  lemma ReachedTooLate()
    ensures AllOk(REACHED) && Admitted(REACHED, MIDDLE_LEAVES)
    ensures DisputesForNothing(REACHED, ROW, 60.0, AmongTheTurns(0, MIDDLE_LEAVES))
  {
    ReachedWorth();
    OneLeaves(REACHED, 1);
    OvershootsNow(REACHED, ROW, 60.0, MIDDLE_LEAVES, 0);
  }

  lemma ReachedAndLost()
    ensures TurnOf(FromReached(), ROW, 60.0).Takes? && TurnOf(FromReached(), ROW, 60.0).bill == 2
    ensures TurnOf(TurnOf(FromReached(), ROW, 60.0).next, ROW, 60.0).Rereads?
  {
    ThreeClaims(40.0, 50.0, 10.0);
  }

  /** Claims of 20, 20 and 30 on evidence 40: the two oldest leave together. */
  const TOGETHER := Three(20.0, 20.0, 30.0)

  const BOTH_LEAVE: seq<Step> := [Moves(0, Disputed), Moves(1, Disputed)]

  lemma BothLeave()
    ensures Admitted(TOGETHER, BOTH_LEAVE) && BillsIn(BOTH_LEAVE) == {0, 1}
  {
    assert BOTH_LEAVE[0].bill == 0 && BOTH_LEAVE[1].bill == 1;
  }

  lemma TogetherWorth()
    ensures AllOk(TOGETHER) && OvershootsBy(TOGETHER, ROW, 40.0, {0, 1}, 0)
  {
    var claims := [Claim(2, 1, 3, 30.0), Claim(1, 1, 2, 20.0), Claim(0, 1, 1, 20.0)];
    ThreeClaims(20.0, 20.0, 30.0);
    ThreeSums(claims[0], claims[1], claims[2], Quantity());
    ThreeSums(claims[0], claims[1], claims[2], QtyIn({0, 1}));
  }

  lemma TogetherOvershoot()
    ensures AllOk(TOGETHER) && DisputesForNothing(TOGETHER, ROW, 40.0, AmongTheTurns(0, BOTH_LEAVE))
  {
    TogetherWorth();
    BothLeave();
    OvershootsNow(TOGETHER, ROW, 40.0, BOTH_LEAVE, 0);
  }

  lemma AloneFallsShort(claims: seq<Claim>, s: nat, i: nat)
    requires claims == [Claim(2, 1, 3, 30.0), Claim(1, 1, 2, 20.0), Claim(0, 1, 1, 20.0)] && i < 3
    ensures !Overshoots(TOGETHER, claims, 70.0, 40.0, s, {i})
  {
    ThreeSums(claims[0], claims[1], claims[2], QtyIn({i}));
    assert claims[0..] == claims && claims == [claims[0], claims[1], claims[2]] && claims[..0] == [];
    assert Needed(claims, 70.0, 40.0) == 1;
  }

  /** Neither does so alone, before whichever compare-and-set it leaves. */
  lemma NeitherAlone(s: nat, i: nat)
    requires i < 3
    ensures AllOk(TOGETHER)
    ensures !DisputesForNothing(TOGETHER, ROW, 40.0, AmongTheTurns(s, [Moves(i, Disputed)]))
  {
    ThreeClaims(20.0, 20.0, 30.0);
    OneLeaves(TOGETHER, i);
    AloneFallsShort(LiveClaims(TOGETHER, ROW), s, i);
    DeparturesExactly(TOGETHER, ROW, 40.0, s, [Moves(i, Disputed)]);
  }

  /** Claims of 50, 20 and 10, the 20 certified, on evidence 40. */
  const BETWEEN := [Claiming(50.0, 1), Claiming(20.0, 2).(status := Certified), Claiming(10.0, 3)]

  lemma BetweenClaims()
    ensures AllOk(BETWEEN) && Billed(BETWEEN, ROW) == 80.0 && CertifiedBilled(BETWEEN, ROW) == 20.0
    ensures LiveClaims(BETWEEN, ROW) == [Claim(2, 1, 3, 10.0), Claim(1, 1, 2, 20.0), Claim(0, 1, 1, 50.0)]
  {
    ClaimingBills(50.0, 1);
    ClaimingBills(20.0, 2);
    ClaimingBills(10.0, 3);
    FoldOfThree(BETWEEN[0], BETWEEN[1], BETWEEN[2]);
    assert BillOn(ROW)(BETWEEN[1]) == BillOn(ROW)(Claiming(20.0, 2));
    var x, y, z := ClaimOf(BETWEEN, 0, ROW), ClaimOf(BETWEEN, 1, ROW), ClaimOf(BETWEEN, 2, ROW);
    assert Gather(BETWEEN, ROW, 1) == [x];
    assert Gather(BETWEEN, ROW, 2) == [y, x];
    assert Insert([y, x], z) == [z, y, x];
    CertifiedClaims(BETWEEN, ROW, 3);
    assert BETWEEN[..3] == BETWEEN;
    ThreeSums(z, y, x, CertifiedQty(BETWEEN));
  }

  /** The 50 leaves before the first compare-and-set, and 30 is billed against 40. On a total of 80 the
      loop takes the 10 all the same, meets the certified 20 and is refused, which leaves nothing
      disputed. Whatever leaves among the turns, this withdrawal disputes nothing for nothing. */
  lemma RefusedOverAStaleTotal()
    ensures AllOk(BETWEEN) && Admitted(BETWEEN, OLDEST_LEAVES)
    ensures RefusedForNothing(BETWEEN, ROW, 40.0, AmongTheTurns(0, OLDEST_LEAVES))
    ensures Disposes(BETWEEN, ROW, 40.0, AmongTheTurns(0, OLDEST_LEAVES)) == Aborted
    ensures !MayDisputeForNothing(BETWEEN, ROW, 40.0)
  {
    var claims := [Claim(2, 1, 3, 10.0), Claim(1, 1, 2, 20.0), Claim(0, 1, 1, 50.0)];
    BetweenClaims();
    OneLeaves(BETWEEN, 0);
    ThreeSums(claims[0], claims[1], claims[2], Quantity());
    ThreeSums(claims[0], claims[1], claims[2], QtyIn({0}));
    BetweenObstructs(claims);
    DeparturesExactly(BETWEEN, ROW, 40.0, 0, OLDEST_LEAVES);
    RefusedAborts(BETWEEN, ROW, 40.0, AmongTheTurns(0, OLDEST_LEAVES));
    OverDisputesExactly(BETWEEN, ROW, 40.0);
    assert forall k: nat :: !Exposed(BETWEEN, ROW, 40.0, k);
  }

  lemma BetweenObstructs(claims: seq<Claim>)
    requires claims == [Claim(2, 1, 3, 10.0), Claim(1, 1, 2, 20.0), Claim(0, 1, 1, 50.0)]
    ensures Clear(BETWEEN, claims) == 1 && Needed(claims, 80.0, 40.0) == 3
    ensures Obstructs(BETWEEN, claims, 80.0, 40.0, 0, {0})
  {
    ThreeSums(claims[0], claims[1], claims[2], Quantity());
    ThreeSums(claims[0], claims[1], claims[2], QtyIn({0}));
    assert claims[0..] == claims && claims == [claims[0], claims[1], claims[2]];
    assert !IsCertified(BETWEEN, claims[0]) && IsCertified(BETWEEN, claims[1]);
    assert FirstOf(claims, {0}) == 2;
    assert Needed(claims[1..][1..], 50.0, 40.0) == 1;
    assert Needed(claims[1..], 70.0, 40.0) == 2;
  }
}
