/** When claims leaving the fold make the withdrawal dispute another for nothing, or refuse for
    nothing. The loop learns of a departure only by losing a compare-and-set, so until then its running
    total counts claims that have gone. */
module StaleTotals {
  import opened Sums
  import opened Claims
  import opened Disposition
  import opened Interference

  // ── what goes wrong ──────────────────────────────────────────────────────────────────────────

  /** Every claim the loop disputes is disputed while the fold is over the evidence. */
  ghost predicate EachNeeded(c: Config, t: Target, evidence: real)
    requires AllOk(c.bills)
    decreases Left(c.env), Behind(c), |c.claims|
  {
    TurnDescends(c, t, evidence);
    match TurnOf(c, t, evidence)
    case Stops => true
    case Refuses => true
    case Takes(_, next) => Billed(Met(c), t) > evidence && EachNeeded(next, t, evidence)
    case Rereads(next) => EachNeeded(next, t, evidence)
  }

  /** If the lifecycle refuses, it refuses while the fold is over the evidence. */
  ghost predicate RefusalNeeded(c: Config, t: Target, evidence: real)
    requires AllOk(c.bills)
    decreases Left(c.env), Behind(c), |c.claims|
  {
    TurnDescends(c, t, evidence);
    match TurnOf(c, t, evidence)
    case Stops => true
    case Refuses => Billed(Met(c), t) > evidence
    case Takes(_, next) => RefusalNeeded(next, t, evidence)
    case Rereads(next) => RefusalNeeded(next, t, evidence)
  }

  /** The loop ends, and has disputed a claim for nothing. An aborted run disputes none. */
  ghost predicate TakesForNothing(c: Config, t: Target, evidence: real)
    requires AllOk(c.bills)
  {
    Loop(c, t, evidence).Ended? && !EachNeeded(c, t, evidence)
  }

  /** The withdrawal goes through, and disputes a claim when what is billed is already within the
      evidence. */
  ghost predicate DisputesForNothing(bills: seq<Bill>, t: Target, evidence: real, env: Schedule)
    requires AllOk(bills)
  {
    SlotKeeps(bills, env);
    Disposes(bills, t, evidence, env).Ended? && !EachNeeded(FirstReads(bills, t, env), t, evidence)
  }

  /** The withdrawal is refused over a certified claim when what is billed is already within the
      evidence. */
  ghost predicate RefusedForNothing(bills: seq<Bill>, t: Target, evidence: real, env: Schedule)
    requires AllOk(bills)
  {
    SlotKeeps(bills, env);
    Billed(bills, t) > evidence && !RefusalNeeded(FirstReads(bills, t, env), t, evidence)
  }

  lemma TurnOutcome(c: Config, t: Target, evidence: real)
    requires AllOk(c.bills)
    ensures AllOk(Met(c))
    ensures TurnOf(c, t, evidence).Stops? ==> !TakesForNothing(c, t, evidence) && RefusalNeeded(c, t, evidence)
    ensures TurnOf(c, t, evidence).Refuses? ==>
              !TakesForNothing(c, t, evidence) && (RefusalNeeded(c, t, evidence) <==> Billed(Met(c), t) > evidence)
  {
    TurnDescends(c, t, evidence);
  }

  lemma TakeOutcome(c: Config, t: Target, evidence: real, i: nat, next: Config)
    requires AllOk(c.bills) && TurnOf(c, t, evidence) == Takes(i, next)
    ensures AllOk(Met(c)) && AllOk(next.bills)
    ensures Loop(c, t, evidence).Ended? <==> Loop(next, t, evidence).Ended?
    ensures Billed(Met(c), t) > evidence ==> (TakesForNothing(c, t, evidence) <==> TakesForNothing(next, t, evidence))
    ensures Billed(Met(c), t) <= evidence ==> (TakesForNothing(c, t, evidence) <==> Loop(next, t, evidence).Ended?)
    ensures RefusalNeeded(c, t, evidence) <==> RefusalNeeded(next, t, evidence)
  {
    TurnDescends(c, t, evidence);
  }

  lemma RereadOutcome(c: Config, t: Target, evidence: real, next: Config)
    requires AllOk(c.bills) && TurnOf(c, t, evidence) == Rereads(next)
    ensures AllOk(next.bills) && Loop(c, t, evidence) == Loop(next, t, evidence)
    ensures TakesForNothing(c, t, evidence) <==> TakesForNothing(next, t, evidence)
    ensures RefusalNeeded(c, t, evidence) <==> RefusalNeeded(next, t, evidence)
  {
    TurnDescends(c, t, evidence);
  }

  /** A refusal that was not needed is a refusal all the same. */
  lemma {:induction false} NeedlessRefusalAborts(c: Config, t: Target, evidence: real)
    requires AllOk(c.bills) && !RefusalNeeded(c, t, evidence)
    ensures Loop(c, t, evidence) == Aborted
    decreases Left(c.env), Behind(c), |c.claims|
  {
    TurnDescends(c, t, evidence);
    if TurnOf(c, t, evidence).Takes? || TurnOf(c, t, evidence).Rereads? {
      NeedlessRefusalAborts(TurnOf(c, t, evidence).next, t, evidence);
    }
  }

  lemma RefusedAborts(bills: seq<Bill>, t: Target, evidence: real, env: Schedule)
    requires AllOk(bills) && RefusedForNothing(bills, t, evidence, env)
    ensures Disposes(bills, t, evidence, env) == Aborted
  {
    SlotKeeps(bills, env);
    NeedlessRefusalAborts(FirstReads(bills, t, env), t, evidence);
  }

  // ── claims in hand ───────────────────────────────────────────────────────────────────────────

  /** Each claim in hand is its bill's present claim. */
  ghost predicate InStep(bills: seq<Bill>, t: Target, claims: seq<Claim>) {
    UpToDate(bills, claims) && forall k :: 0 <= k < |claims| ==>
        LineQty(Current(bills[claims[k].bill]).lines, t) == claims[k].quantity
  }

  lemma ReadInStep(bills: seq<Bill>, t: Target)
    requires AllOk(bills)
    ensures InStep(bills, t, LiveClaims(bills, t))
  {
    FreshReadHolds(bills, t);
    LiveClaimsExact(bills, t);
    forall k | 0 <= k < |LiveClaims(bills, t)|
      ensures LineQty(Current(bills[LiveClaims(bills, t)[k].bill]).lines, t) == LiveClaims(bills, t)[k].quantity
    {
      assert LiveClaims(bills, t)[k] in LiveClaims(bills, t);
    }
  }

  lemma WonInStep(bills: seq<Bill>, t: Target, claims: seq<Claim>)
    requires AllOk(bills) && |claims| > 0 && InStep(bills, t, claims)
    ensures claims[0].bill < |bills| && claims[0].quantity >= 0.0
    ensures InStep(Dispute(bills, claims[0].bill), t, claims[1..])
    ensures Billed(Dispute(bills, claims[0].bill), t) == Billed(bills, t) - claims[0].quantity
  {
    assert Holds(bills, claims[0]);
    DisputeKeepsRest(bills, claims);
    DisputeLive(bills, claims[0].bill, t);
    CurrentQty(bills[claims[0].bill], t);
    forall k | 0 <= k < |claims[1..]|
      ensures LineQty(Current(Dispute(bills, claims[0].bill)[claims[1..][k].bill]).lines, t) == claims[1..][k].quantity
    {
      assert LineQty(Current(bills[claims[k + 1].bill]).lines, t) == claims[k + 1].quantity;
    }
  }

  lemma SumFromFirst(claims: seq<Claim>, k: nat)
    requires 0 < k <= |claims|
    ensures Sum(claims[..k], Quantity()) == claims[0].quantity + Sum(claims[1..][..k - 1], Quantity())
  {
    assert claims[..k] == [claims[0]] + claims[1..][..k - 1];
    SumAppend([claims[0]], claims[1..][..k - 1], Quantity());
    SumOne(claims[0], Quantity());
  }

  /** A claim taken was taken on a running total over the evidence. */
  lemma {:induction false} TakenOverEvidence(claims: seq<Claim>, billed: real, evidence: real, k: nat)
    requires k < Needed(claims, billed, evidence)
    ensures billed - Sum(claims[..k], Quantity()) > evidence
  {
    if k > 0 {
      SumFromFirst(claims, k);
      TakenOverEvidence(claims[1..], billed - claims[0].quantity, evidence, k - 1);
    }
  }

  predicate Distinct(claims: seq<Claim>) { forall j, k :: 0 <= j < k < |claims| ==> claims[j].bill != claims[k].bill }

  predicate IsCertified(bills: seq<Bill>, c: Claim) { c.bill < |bills| && PastCertification(bills[c.bill].status) }

  /** How many claims come before the first certified one. */
  function Clear(bills: seq<Bill>, claims: seq<Claim>): (r: nat)
    ensures r <= |claims|
    ensures r < |claims| ==> IsCertified(bills, claims[r])
    ensures forall k :: 0 <= k < r ==> !IsCertified(bills, claims[k])
  {
    if |claims| == 0 || IsCertified(bills, claims[0]) then 0 else 1 + Clear(bills, claims[1..])
  }

  /** It depends on nothing but which of them are certified. */
  lemma {:induction false} SameClear(bills: seq<Bill>, now: seq<Bill>, claims: seq<Claim>)
    requires forall k :: 0 <= k < |claims| ==> (IsCertified(bills, claims[k]) <==> IsCertified(now, claims[k]))
    ensures Clear(bills, claims) == Clear(now, claims)
  {
    if |claims| > 0 && !IsCertified(bills, claims[0]) {
      SameClear(bills, now, claims[1..]);
    }
  }

  lemma ClearAfterTake(bills: seq<Bill>, claims: seq<Claim>)
    requires |claims| > 0 && Distinct(claims) && claims[0].bill < |bills| && !IsCertified(bills, claims[0])
    ensures Clear(bills, claims) == 1 + Clear(Dispute(bills, claims[0].bill), claims[1..])
  {
    SameClear(bills, Dispute(bills, claims[0].bill), claims[1..]);
  }

  // ── a quiet run on a stale total ─────────────────────────────────────────────────────────────

  /** Before the first `p` claims in hand nothing has gone; the `p`-th, if there is one, has. */
  ghost predicate StaleFrom(c: Config, t: Target, p: nat) {
    && AllOk(c.bills) && c.env == [] && p <= |c.claims| && Distinct(c.claims) && InStep(c.bills, t, c.claims[..p])
    && (p < |c.claims| ==> !Holds(c.bills, c.claims[p]))
  }

  function Least(a: nat, b: nat): nat { if a <= b then a else b }

  /** How many claims the loop takes before it loses one or is within its total. */
  function Turns(c: Config, evidence: real, p: nat): nat { Least(p, Needed(c.claims, c.billed, evidence)) }

  /** None of them is certified, and before the last is taken the fold is within the evidence. */
  predicate LastIsNeedless(c: Config, t: Target, evidence: real, p: nat) {
    var m := Turns(c, evidence, p);
    && 0 < m <= Clear(c.bills, c.claims)
    && Billed(c.bills, t) - Sum(c.claims[..m - 1], Quantity()) <= evidence
  }

  /** One of them is certified, and when the first such is met the fold is within the evidence. */
  predicate RefusalIsNeedless(c: Config, t: Target, evidence: real, p: nat) {
    var r := Clear(c.bills, c.claims);
    r < Turns(c, evidence, p) && Billed(c.bills, t) - Sum(c.claims[..r], Quantity()) <= evidence
  }

  /** The next place of a quiet run that takes its claim. */
  function QuietNext(c: Config): Config
    requires |c.claims| > 0 && c.claims[0].bill < |c.bills|
  {
    Config(Dispute(c.bills, c.claims[0].bill), c.claims[1..], c.billed - c.claims[0].quantity, Rest(c.env))
  }

  lemma StaleHead(c: Config, t: Target, evidence: real, p: nat)
    requires StaleFrom(c, t, p) && p > 0 && c.billed > evidence
    ensures Holds(c.bills, c.claims[0])
    ensures TurnOf(c, t, evidence) ==
            if IsCertified(c.bills, c.claims[0]) then Refuses else Takes(c.claims[0].bill, QuietNext(c))
  {
    var front := c.claims[..p];
    assert front[0] == c.claims[0] && Holds(c.bills, front[0]);
  }

  lemma StaleNext(c: Config, t: Target, p: nat)
    requires StaleFrom(c, t, p) && p > 0 && Holds(c.bills, c.claims[0])
    ensures Billed(QuietNext(c).bills, t) == Billed(c.bills, t) - c.claims[0].quantity <= Billed(c.bills, t)
    ensures StaleFrom(QuietNext(c), t, p - 1)
  {
    var front := c.claims[..p];
    assert front[0] == c.claims[0];
    WonInStep(c.bills, t, front);
    assert front[1..] == c.claims[1..][..p - 1];
    assert VersionsOk(c.bills[c.claims[0].bill]);
  }

  lemma StaleTurn(c: Config, t: Target, evidence: real, p: nat)
    requires StaleFrom(c, t, p) && p > 0 && c.billed > evidence
    ensures Holds(c.bills, c.claims[0])
    ensures TurnOf(c, t, evidence) ==
            if IsCertified(c.bills, c.claims[0]) then Refuses else Takes(c.claims[0].bill, QuietNext(c))
    ensures Billed(QuietNext(c).bills, t) == Billed(c.bills, t) - c.claims[0].quantity <= Billed(c.bills, t)
    ensures StaleFrom(QuietNext(c), t, p - 1)
  {
    StaleHead(c, t, evidence, p);
    StaleNext(c, t, p);
  }

  /** The loop takes another claim before it loses one. */
  predicate TakesFirst(c: Config, evidence: real, p: nat) {
    p > 0 && c.billed > evidence && |c.claims| > 0 && c.claims[0].bill < |c.bills| && !IsCertified(c.bills, c.claims[0])
  }

  lemma TurnsShift(c: Config, evidence: real, p: nat)
    requires Distinct(c.claims) && TakesFirst(c, evidence, p)
    ensures Turns(c, evidence, p) == 1 + Turns(QuietNext(c), evidence, p - 1)
    ensures Clear(c.bills, c.claims) == 1 + Clear(QuietNext(c).bills, QuietNext(c).claims)
  {
    ClearAfterTake(c.bills, c.claims);
  }

  /** When the fold is within the evidence, the run ends unless it meets a certified claim first. */
  ghost predicate EndsUncertified(c: Config, t: Target, evidence: real, p: nat)
    requires AllOk(c.bills)
  {
    Loop(c, t, evidence).Ended? <==> Turns(c, evidence, p) <= Clear(c.bills, c.claims)
  }

  lemma WithinStops(c: Config, t: Target, evidence: real, p: nat)
    requires StaleFrom(c, t, p) && Billed(c.bills, t) <= evidence && !TakesFirst(c, evidence, p)
    ensures EndsUncertified(c, t, evidence, p)
  {
    TurnDescends(c, t, evidence);
    if c.billed > evidence && |c.claims| > 0 {
      if p == 0 {
        RereadOutcome(c, t, evidence, TurnOf(c, t, evidence).next);
        TurnDescends(TurnOf(c, t, evidence).next, t, evidence);
      } else {
        StaleTurn(c, t, evidence, p);
      }
    }
  }

  lemma WithinTakes(c: Config, t: Target, evidence: real, p: nat)
    requires StaleFrom(c, t, p) && TakesFirst(c, evidence, p)
    requires AllOk(QuietNext(c).bills) && EndsUncertified(QuietNext(c), t, evidence, p - 1)
    ensures EndsUncertified(c, t, evidence, p)
  {
    StaleTurn(c, t, evidence, p);
    TakeOutcome(c, t, evidence, c.claims[0].bill, QuietNext(c));
    TurnsShift(c, evidence, p);
  }

  lemma {:induction false} WithinRunEnds(c: Config, t: Target, evidence: real, p: nat)
    requires StaleFrom(c, t, p) && Billed(c.bills, t) <= evidence
    ensures EndsUncertified(c, t, evidence, p)
    decreases |c.claims|
  {
    if TakesFirst(c, evidence, p) {
      StaleTurn(c, t, evidence, p);
      WithinRunEnds(QuietNext(c), t, evidence, p - 1);
      WithinTakes(c, t, evidence, p);
    } else {
      WithinStops(c, t, evidence, p);
    }
  }

  /** A total that is the fold does nothing for nothing. */
  lemma ExactTotalIsHarmless(c: Config, t: Target, evidence: real, p: nat)
    requires c.billed == Billed(c.bills, t)
    ensures !LastIsNeedless(c, t, evidence, p) && !RefusalIsNeedless(c, t, evidence, p)
  {
    var m, r := Turns(c, evidence, p), Clear(c.bills, c.claims);
    if 0 < m {
      TakenOverEvidence(c.claims, c.billed, evidence, m - 1);
    }
    if r < m {
      TakenOverEvidence(c.claims, c.billed, evidence, r);
    }
  }

  ghost predicate StaleOutcome(c: Config, t: Target, evidence: real, p: nat)
    requires AllOk(c.bills)
  {
    && (TakesForNothing(c, t, evidence) <==> LastIsNeedless(c, t, evidence, p))
    && (RefusalNeeded(c, t, evidence) <==> !RefusalIsNeedless(c, t, evidence, p))
  }

  lemma FoldShifts(c: Config, t: Target, k: nat)
    requires 0 < k <= |c.claims| && c.claims[0].bill < |c.bills|
    requires Billed(QuietNext(c).bills, t) == Billed(c.bills, t) - c.claims[0].quantity
    ensures Billed(c.bills, t) - Sum(c.claims[..k], Quantity()) ==
            Billed(QuietNext(c).bills, t) - Sum(QuietNext(c).claims[..k - 1], Quantity())
  {
    SumFromFirst(c.claims, k);
  }

  lemma RefusalShifts(c: Config, t: Target, evidence: real, p: nat)
    requires StaleFrom(c, t, p) && TakesFirst(c, evidence, p)
    ensures RefusalIsNeedless(c, t, evidence, p) <==> RefusalIsNeedless(QuietNext(c), t, evidence, p - 1)
  {
    StaleTurn(c, t, evidence, p);
    TurnsShift(c, evidence, p);
    FoldShifts(c, t, Clear(c.bills, c.claims));
  }

  lemma LastShifts(c: Config, t: Target, evidence: real, p: nat)
    requires StaleFrom(c, t, p) && TakesFirst(c, evidence, p) && Billed(c.bills, t) > evidence
    ensures LastIsNeedless(c, t, evidence, p) <==> LastIsNeedless(QuietNext(c), t, evidence, p - 1)
  {
    StaleTurn(c, t, evidence, p);
    TurnsShift(c, evidence, p);
    if Turns(c, evidence, p) > 1 {
      FoldShifts(c, t, Turns(c, evidence, p) - 1);
    } else {
      assert c.claims[..0] == [];
    }
  }

  lemma {:induction false} SumFrontNonneg(bills: seq<Bill>, t: Target, claims: seq<Claim>, k: nat)
    requires AllOk(bills) && InStep(bills, t, claims) && k <= |claims|
    ensures Sum(claims[..k], Quantity()) >= 0.0
  {
    forall i | 0 <= i < k
      ensures Quantity()(claims[..k][i]) >= 0.0
    {
      assert Holds(bills, claims[i]);
      CurrentQty(bills[claims[i].bill], t);
    }
    SumNonneg(claims[..k], Quantity());
  }

  /** The first claim taken is already needless. */
  lemma NeedlessAtOnce(c: Config, t: Target, evidence: real, p: nat)
    requires StaleFrom(c, t, p) && p > 0 && c.billed > evidence && Billed(c.bills, t) <= evidence
    ensures LastIsNeedless(c, t, evidence, p) <==> Turns(c, evidence, p) <= Clear(c.bills, c.claims)
  {
    var m := Turns(c, evidence, p);
    SumFrontNonneg(c.bills, t, c.claims[..p], m - 1);
    assert c.claims[..p][..m - 1] == c.claims[..m - 1];
  }

  lemma StaleTake(c: Config, t: Target, evidence: real, p: nat)
    requires StaleFrom(c, t, p) && TakesFirst(c, evidence, p)
    requires AllOk(QuietNext(c).bills) && StaleOutcome(QuietNext(c), t, evidence, p - 1)
    ensures StaleOutcome(c, t, evidence, p)
  {
    StaleTurn(c, t, evidence, p);
    TakeOutcome(c, t, evidence, c.claims[0].bill, QuietNext(c));
    RefusalShifts(c, t, evidence, p);
    if Billed(c.bills, t) > evidence {
      LastShifts(c, t, evidence, p);
    } else {
      TurnsShift(c, evidence, p);
      WithinRunEnds(QuietNext(c), t, evidence, p - 1);
      NeedlessAtOnce(c, t, evidence, p);
    }
  }

  /** What was lost is seen at the claim it was lost from, and a fresh read with nothing more to come
      is exact. */
  lemma {:induction false} StaleRun(c: Config, t: Target, evidence: real, p: nat)
    requires StaleFrom(c, t, p)
    ensures StaleOutcome(c, t, evidence, p)
    decreases Behind(c), |c.claims|
  {
    TurnDescends(c, t, evidence);
    if c.billed <= evidence || |c.claims| == 0 {
      TurnOutcome(c, t, evidence);
    } else if p == 0 {
      StaleReread(c, t, evidence);
    } else {
      StaleTurn(c, t, evidence, p);
      if IsCertified(c.bills, c.claims[0]) {
        TurnOutcome(c, t, evidence);
        assert c.claims[..0] == [];
      } else {
        StaleRun(QuietNext(c), t, evidence, p - 1);
        StaleTake(c, t, evidence, p);
      }
    }
  }

  lemma StaleReread(c: Config, t: Target, evidence: real)
    requires StaleFrom(c, t, 0) && c.billed > evidence && |c.claims| > 0
    ensures StaleOutcome(c, t, evidence, 0)
    decreases Behind(c), |c.claims|, 0
  {
    TurnDescends(c, t, evidence);
    var next := TurnOf(c, t, evidence).next;
    RereadOutcome(c, t, evidence, next);
    ReadInStep(c.bills, t);
    assert next.claims[..|next.claims|] == next.claims;
    StaleRun(next, t, evidence, |next.claims|);
    ExactTotalIsHarmless(next, t, evidence, |next.claims|);
  }

  // ── claims that leave ────────────────────────────────────────────────────────────────────────

  /** Steps by which bills leave the fold. */
  predicate Leaving(steps: seq<Step>) { forall k :: 0 <= k < |steps| ==> steps[k].Moves? && !IsLive(steps[k].status) }

  function BillsIn(steps: seq<Step>): set<nat> { set k | 0 <= k < |steps| :: steps[k].bill }

  /** Those bills have left; every other is as it was. */
  ghost predicate Departed(was: seq<Bill>, now: seq<Bill>, gone: set<nat>) {
    && |now| == |was|
    && (forall i :: 0 <= i < |was| && i !in gone ==> now[i] == was[i])
    && (forall i :: 0 <= i < |was| && i in gone ==> now[i].versions == was[i].versions && !IsLive(now[i].status))
  }

  lemma BillsInFirst(steps: seq<Step>)
    requires |steps| > 0
    ensures BillsIn(steps) == {steps[0].bill} + BillsIn(steps[1..])
  {
    forall i
      ensures i in BillsIn(steps) <==> i == steps[0].bill || i in BillsIn(steps[1..])
    {
      if i in BillsIn(steps) {
        var k :| 0 <= k < |steps| && steps[k].bill == i;
        assert k > 0 ==> steps[1..][k - 1].bill == i;
      }
      if i in BillsIn(steps[1..]) {
        var k :| 0 <= k < |steps[1..]| && steps[1..][k].bill == i;
        assert steps[k + 1].bill == i;
      }
    }
  }

  lemma OneDeparts(bills: seq<Bill>, step: Step)
    requires AllOk(bills) && step.Moves? && !IsLive(step.status)
    ensures AllOk(Disturb(bills, step)) && Departed(bills, Disturb(bills, step), {step.bill})
  {
    assert forall i :: 0 <= i < |bills| ==> VersionsOk(bills[i]);
  }

  lemma {:induction false} AllDepart(bills: seq<Bill>, steps: seq<Step>)
    requires AllOk(bills) && Leaving(steps)
    ensures AllOk(DisturbAll(bills, steps)) && Departed(bills, DisturbAll(bills, steps), BillsIn(steps))
    decreases |steps|
  {
    if |steps| > 0 {
      OneDeparts(bills, steps[0]);
      assert forall k :: 0 <= k < |steps[1..]| ==> steps[1..][k] == steps[k + 1];
      AllDepart(Disturb(bills, steps[0]), steps[1..]);
      BillsInFirst(steps);
    }
  }

  /** Every bill still claiming the line is in hand. */
  ghost predicate Covers(bills: seq<Bill>, t: Target, claims: seq<Claim>) {
    forall i :: 0 <= i < |bills| && !Listed(claims, i) ==> BillOn(t)(bills[i]) == 0.0
  }

  lemma ReadCovers(bills: seq<Bill>, t: Target)
    requires AllOk(bills)
    ensures Covers(bills, t, LiveClaims(bills, t))
  {
    ReadTracks(bills, t, Billed(bills, t));
    forall i | 0 <= i < |bills| && !Listed(LiveClaims(bills, t), i)
      ensures BillOn(t)(bills[i]) == 0.0
    {
      CurrentQty(bills[i], t);
    }
  }

  lemma ListedFirst(claims: seq<Claim>, i: nat)
    requires |claims| > 0
    ensures Listed(claims, i) <==> claims[0].bill == i || Listed(claims[1..], i)
  {
    if Listed(claims[1..], i) {
      var k :| 0 <= k < |claims[1..]| && claims[1..][k].bill == i;
      assert claims[k + 1].bill == i;
    }
    if Listed(claims, i) {
      var k :| 0 <= k < |claims| && claims[k].bill == i;
      assert k > 0 ==> claims[1..][k - 1].bill == i;
    }
  }

  lemma TakenCovers(bills: seq<Bill>, t: Target, claims: seq<Claim>)
    requires |claims| > 0 && claims[0].bill < |bills| && Covers(bills, t, claims)
    ensures Covers(Dispute(bills, claims[0].bill), t, claims[1..])
  {
    var now := Dispute(bills, claims[0].bill);
    forall i | 0 <= i < |now| && !Listed(claims[1..], i)
      ensures BillOn(t)(now[i]) == 0.0
    {
      ListedFirst(claims, i);
    }
  }

  function QtyIn(gone: set<nat>): Claim -> real { (c: Claim) => if c.bill in gone then c.quantity else 0.0 }

  /** What the claims that leave were worth. */
  function LostOf(claims: seq<Claim>, gone: set<nat>): real { Sum(claims, QtyIn(gone)) }

  lemma LostFirst(claims: seq<Claim>, gone: set<nat>)
    requires |claims| > 0
    ensures LostOf(claims, gone) == QtyIn(gone)(claims[0]) + LostOf(claims[1..], gone)
  {
    assert claims == [claims[0]] + claims[1..];
    SumAppend([claims[0]], claims[1..], QtyIn(gone));
    SumOne(claims[0], QtyIn(gone));
  }

  lemma DisputeOut(bills: seq<Bill>, i: nat, t: Target)
    requires i < |bills| && !IsLive(bills[i].status)
    ensures Billed(Dispute(bills, i), t) == Billed(bills, t)
  {
    SumUpdate(bills, i, bills[i].(status := Disputed), BillOn(t));
  }

  /** The fold falls by what they were worth. */
  lemma {:induction false} DepartureLowers(was: seq<Bill>, now: seq<Bill>, t: Target, claims: seq<Claim>,
      gone: set<nat>)
    requires AllOk(was) && AllOk(now) && Departed(was, now, gone)
    requires InStep(was, t, claims) && Covers(was, t, claims)
    ensures Billed(now, t) == Billed(was, t) - LostOf(claims, gone)
    decreases |claims|
  {
    if |claims| == 0 {
      SumZero(was, BillOn(t));
      SumZero(now, BillOn(t));
    } else {
      var i := claims[0].bill;
      WonInStep(was, t, claims);
      TakenCovers(was, t, claims);
      DepartureLowers(Dispute(was, i), Dispute(now, i), t, claims[1..], gone);
      LostFirst(claims, gone);
      if i in gone {
        DisputeOut(now, i, t);
      } else {
        DisputeLive(now, i, t);
      }
    }
  }

  /** The place of the first claim that leaves. */
  function FirstOf(claims: seq<Claim>, gone: set<nat>): (p: nat)
    ensures p <= |claims|
    ensures p < |claims| ==> claims[p].bill in gone
    ensures forall k :: 0 <= k < p ==> claims[k].bill !in gone
  {
    if |claims| == 0 || claims[0].bill in gone then 0 else 1 + FirstOf(claims[1..], gone)
  }

  lemma FrontInStep(was: seq<Bill>, now: seq<Bill>, t: Target, claims: seq<Claim>, gone: set<nat>)
    requires InStep(was, t, claims) && Departed(was, now, gone)
    ensures InStep(now, t, claims[..FirstOf(claims, gone)])
  {
    var front := claims[..FirstOf(claims, gone)];
    forall k | 0 <= k < |front|
      ensures Holds(now, front[k]) && now[front[k].bill] == was[front[k].bill]
    {
      assert Holds(was, claims[k]);
    }
    forall j, k | 0 <= j < k < |front|
      ensures front[j].bill != front[k].bill
    {
      assert claims[j].bill != claims[k].bill;
    }
  }

  // ── claims that leave after the reads ────────────────────────────────────────────────────────

  /** All is quiet but the `s`-th slot. */
  function Late(s: nat, steps: seq<Step>): Schedule { if s == 0 then [steps] else [[]] + Late(s - 1, steps) }

  lemma LateRest(s: nat, steps: seq<Step>)
    requires s > 0
    ensures |Late(s, steps)| > 0 && Late(s, steps)[0] == [] && Rest(Late(s, steps)) == Late(s - 1, steps)
  {
  }

  /** The total is the fold, and the claims in hand are all there are, as they stand. */
  ghost predicate Exact(c: Config, t: Target) {
    AllOk(c.bills) && InStep(c.bills, t, c.claims) && Covers(c.bills, t, c.claims) && c.billed == Billed(c.bills, t)
  }

  /** None of them leaves after certification: the lifecycle sees to that. */
  predicate Admitted(bills: seq<Bill>, steps: seq<Step>) {
    Leaving(steps) && forall k :: 0 <= k < |steps| ==>
        steps[k].bill < |bills| && !PastCertification(bills[steps[k].bill].status)
  }

  /** How many of the claims the loop takes when `gone` leave before the `s`-th compare-and-set. */
  function TurnsTo(claims: seq<Claim>, billed: real, evidence: real, s: nat, gone: set<nat>): nat
    requires s <= |claims|
  {
    Least(s + FirstOf(claims[s..], gone), Needed(claims, billed, evidence))
  }

  /** What is billed before the `k`-th claim is taken, once they have left. */
  function LeftAt(claims: seq<Claim>, billed: real, s: nat, gone: set<nat>, k: nat): real
    requires s <= |claims| && k <= |claims|
  {
    billed - Sum(claims[..k], Quantity()) - LostOf(claims[s..], gone)
  }

  /** They leave before some claim is taken, no certified claim is met before the loop sees that they
      have, and when the last is taken what is left is within the evidence. */
  predicate Overshoots(bills: seq<Bill>, claims: seq<Claim>, billed: real, evidence: real, s: nat, gone: set<nat>) {
    && s < |claims| && s < TurnsTo(claims, billed, evidence, s, gone) <= Clear(bills, claims)
    && LeftAt(claims, billed, s, gone, TurnsTo(claims, billed, evidence, s, gone) - 1) <= evidence
  }

  /** A certified claim is met after they leave and before the loop sees it, when what is left is
      within the evidence. */
  predicate Obstructs(bills: seq<Bill>, claims: seq<Claim>, billed: real, evidence: real, s: nat, gone: set<nat>) {
    && s <= Clear(bills, claims) && s < |claims|
    && Clear(bills, claims) < TurnsTo(claims, billed, evidence, s, gone)
    && LeftAt(claims, billed, s, gone, Clear(bills, claims)) <= evidence
  }

  ghost predicate LateOutcome(c: Config, t: Target, evidence: real, s: nat, gone: set<nat>)
    requires AllOk(c.bills)
  {
    && (TakesForNothing(c, t, evidence) <==> Overshoots(c.bills, c.claims, c.billed, evidence, s, gone))
    && (RefusalNeeded(c, t, evidence) <==> !Obstructs(c.bills, c.claims, c.billed, evidence, s, gone))
  }

  lemma SameTurnSameOutcome(c: Config, d: Config, t: Target, evidence: real)
    requires AllOk(c.bills) && AllOk(d.bills) && TurnOf(c, t, evidence) == TurnOf(d, t, evidence) && Met(c) == Met(d)
    ensures TakesForNothing(c, t, evidence) <==> TakesForNothing(d, t, evidence)
    ensures RefusalNeeded(c, t, evidence) <==> RefusalNeeded(d, t, evidence)
  {
    TurnDescends(c, t, evidence);
    TurnDescends(d, t, evidence);
  }

  /** A step before the compare-and-set is a step before the turn. */
  lemma StepThenTurn(c: Config, t: Target, evidence: real, next: Config)
    requires AllOk(c.bills) && |c.env| == 1 && next == Config(Met(c), c.claims, c.billed, [])
    ensures AllOk(next.bills)
    ensures TakesForNothing(c, t, evidence) <==> TakesForNothing(next, t, evidence)
    ensures RefusalNeeded(c, t, evidence) <==> RefusalNeeded(next, t, evidence)
  {
    SlotKeeps(c.bills, c.env);
    assert Rest(c.env) == [];
    SameTurnSameOutcome(c, next, t, evidence);
  }

  lemma ClearWhenGone(bills: seq<Bill>, steps: seq<Step>, now: seq<Bill>, claims: seq<Claim>)
    requires AllOk(bills) && Admitted(bills, steps) && Departed(bills, now, BillsIn(steps))
    ensures Clear(bills, claims) == Clear(now, claims)
  {
    forall k | 0 <= k < |claims|
      ensures IsCertified(bills, claims[k]) <==> IsCertified(now, claims[k])
    {
      if claims[k].bill in BillsIn(steps) && claims[k].bill < |bills| {
        var j :| 0 <= j < |steps| && steps[j].bill == claims[k].bill;
      }
    }
    SameClear(bills, now, claims);
  }

  /** They leave now: from here on the run is quiet, on a total that still counts them. */
  lemma LeaveNow(c: Config, t: Target, evidence: real, steps: seq<Step>, next: Config)
    requires Exact(c, t) && Admitted(c.bills, steps) && c.env == [steps]
    requires next == Config(Met(c), c.claims, c.billed, [])
    ensures StaleFrom(next, t, FirstOf(c.claims, BillsIn(steps)))
    ensures Billed(next.bills, t) == c.billed - LostOf(c.claims, BillsIn(steps))
    ensures Clear(next.bills, c.claims) == Clear(c.bills, c.claims)
  {
    var gone := BillsIn(steps);
    AllDepart(c.bills, steps);
    DepartureLowers(c.bills, next.bills, t, c.claims, gone);
    FrontInStep(c.bills, next.bills, t, c.claims, gone);
    ClearWhenGone(c.bills, steps, next.bills, c.claims);
    var p := FirstOf(c.claims, gone);
    if p < |c.claims| {
      assert Holds(c.bills, c.claims[p]);
    }
  }

  lemma LeaveAtOnce(c: Config, t: Target, evidence: real, steps: seq<Step>)
    requires Exact(c, t) && Admitted(c.bills, steps) && c.env == [steps]
    ensures LateOutcome(c, t, evidence, 0, BillsIn(steps))
  {
    var next := Config(Met(c), c.claims, c.billed, []);
    LeaveNow(c, t, evidence, steps, next);
    StepThenTurn(c, t, evidence, next);
    StaleRun(next, t, evidence, FirstOf(c.claims, BillsIn(steps)));
    assert c.claims[0..] == c.claims;
  }

  /** A quiet turn from an exact place. */
  lemma QuietTurnExact(c: Config, t: Target, evidence: real)
    requires Exact(c, t) && |c.env| > 0 && c.env[0] == [] && c.billed > evidence && |c.claims| > 0
    ensures Holds(c.bills, c.claims[0]) && Met(c) == c.bills
    ensures TurnOf(c, t, evidence) ==
            if IsCertified(c.bills, c.claims[0]) then Refuses else Takes(c.claims[0].bill, QuietNext(c))
    ensures Exact(QuietNext(c), t)
  {
    WonInStep(c.bills, t, c.claims);
    TakenCovers(c.bills, t, c.claims);
    DisturbAllKeeps(Dispute(c.bills, c.claims[0].bill), []);
  }

  lemma AdmittedNext(c: Config, steps: seq<Step>)
    requires Admitted(c.bills, steps) && |c.claims| > 0 && c.claims[0].bill < |c.bills|
    ensures Admitted(QuietNext(c).bills, steps)
  {
  }

  /** The loop takes the claim it is at. */
  predicate GoesOn(c: Config, evidence: real) {
    c.billed > evidence && |c.claims| > 0 && c.claims[0].bill < |c.bills| && !IsCertified(c.bills, c.claims[0])
  }

  /** The loop stops, or is refused, before any of them leaves. */
  lemma LeaveTooLate(c: Config, t: Target, evidence: real, s: nat, steps: seq<Step>)
    requires Exact(c, t) && s > 0 && c.env == Late(s, steps) && !GoesOn(c, evidence)
    ensures LateOutcome(c, t, evidence, s, BillsIn(steps))
  {
    LateRest(s, steps);
    TurnOutcome(c, t, evidence);
    if c.billed > evidence && |c.claims| > 0 {
      QuietTurnExact(c, t, evidence);
    }
  }

  lemma TurnsToShifts(c: Config, evidence: real, s: nat, gone: set<nat>)
    requires GoesOn(c, evidence) && Distinct(c.claims) && 0 < s <= |c.claims|
    ensures c.claims[s..] == QuietNext(c).claims[s - 1..]
    ensures TurnsTo(c.claims, c.billed, evidence, s, gone) ==
            1 + TurnsTo(QuietNext(c).claims, QuietNext(c).billed, evidence, s - 1, gone)
    ensures Clear(c.bills, c.claims) == 1 + Clear(QuietNext(c).bills, QuietNext(c).claims)
  {
    ClearAfterTake(c.bills, c.claims);
  }

  lemma LeftShifts(c: Config, s: nat, gone: set<nat>, k: nat)
    requires 0 < s <= |c.claims| && 0 < k <= |c.claims| && c.claims[0].bill < |c.bills|
    ensures LeftAt(c.claims, c.billed, s, gone, k) ==
            LeftAt(QuietNext(c).claims, QuietNext(c).billed, s - 1, gone, k - 1)
  {
    assert c.claims[s..] == QuietNext(c).claims[s - 1..];
    SumFromFirst(c.claims, k);
  }

  lemma OvershootsShifts(c: Config, evidence: real, s: nat, gone: set<nat>, next: Config, m: nat)
    requires GoesOn(c, evidence) && Distinct(c.claims) && 0 < s < |c.claims| && next == QuietNext(c)
    requires m == TurnsTo(c.claims, c.billed, evidence, s, gone)
    ensures Overshoots(c.bills, c.claims, c.billed, evidence, s, gone) <==>
            Overshoots(next.bills, next.claims, next.billed, evidence, s - 1, gone)
  {
    TurnsToShifts(c, evidence, s, gone);
    if s < m {
      LeftShifts(c, s, gone, m - 1);
    }
  }

  lemma ObstructsShifts(c: Config, evidence: real, s: nat, gone: set<nat>, next: Config, r: nat)
    requires GoesOn(c, evidence) && Distinct(c.claims) && 0 < s < |c.claims| && next == QuietNext(c)
    requires r == Clear(c.bills, c.claims)
    ensures Obstructs(c.bills, c.claims, c.billed, evidence, s, gone) <==>
            Obstructs(next.bills, next.claims, next.billed, evidence, s - 1, gone)
  {
    TurnsToShifts(c, evidence, s, gone);
    LeftShifts(c, s, gone, r);
  }

  lemma LateShifts(c: Config, t: Target, evidence: real, s: nat, gone: set<nat>)
    requires Exact(c, t) && GoesOn(c, evidence) && s > 0
    ensures Overshoots(c.bills, c.claims, c.billed, evidence, s, gone) <==>
            Overshoots(QuietNext(c).bills, QuietNext(c).claims, QuietNext(c).billed, evidence, s - 1, gone)
    ensures Obstructs(c.bills, c.claims, c.billed, evidence, s, gone) <==>
            Obstructs(QuietNext(c).bills, QuietNext(c).claims, QuietNext(c).billed, evidence, s - 1, gone)
  {
    if s < |c.claims| {
      OvershootsShifts(c, evidence, s, gone, QuietNext(c), TurnsTo(c.claims, c.billed, evidence, s, gone));
      ObstructsShifts(c, evidence, s, gone, QuietNext(c), Clear(c.bills, c.claims));
    }
  }

  lemma LeaveLater(c: Config, t: Target, evidence: real, s: nat, gone: set<nat>)
    requires Exact(c, t) && GoesOn(c, evidence) && s > 0 && |c.env| > 0 && c.env[0] == []
    requires AllOk(QuietNext(c).bills) && LateOutcome(QuietNext(c), t, evidence, s - 1, gone)
    ensures LateOutcome(c, t, evidence, s, gone)
  {
    QuietTurnExact(c, t, evidence);
    TakeOutcome(c, t, evidence, c.claims[0].bill, QuietNext(c));
    LateShifts(c, t, evidence, s, gone);
  }

  /** They leave before the `s`-th compare-and-set. */
  lemma {:induction false} Leave(c: Config, t: Target, evidence: real, s: nat, steps: seq<Step>)
    requires Exact(c, t) && Admitted(c.bills, steps) && c.env == Late(s, steps)
    ensures LateOutcome(c, t, evidence, s, BillsIn(steps))
    decreases s
  {
    if s == 0 {
      LeaveAtOnce(c, t, evidence, steps);
    } else if !GoesOn(c, evidence) {
      LeaveTooLate(c, t, evidence, s, steps);
    } else {
      LateRest(s, steps);
      QuietTurnExact(c, t, evidence);
      AdmittedNext(c, steps);
      Leave(QuietNext(c), t, evidence, s - 1, steps);
      LeaveLater(c, t, evidence, s, BillsIn(steps));
    }
  }

  // ── the conditions, over the table before the call ───────────────────────────────────────────

  lemma FromFirstReads(bills: seq<Bill>, t: Target, evidence: real, env: Schedule)
    requires AllOk(bills)
    ensures AllOk(FirstReads(bills, t, env).bills)
    ensures DisputesForNothing(bills, t, evidence, env) <==> TakesForNothing(FirstReads(bills, t, env), t, evidence)
    ensures RefusedForNothing(bills, t, evidence, env) <==> !RefusalNeeded(FirstReads(bills, t, env), t, evidence)
  {
    SlotKeeps(bills, env);
    if Billed(bills, t) <= evidence {
      TurnOutcome(FirstReads(bills, t, env), t, evidence);
    }
  }

  /** Bills leave after the claims were read, before the `s`-th compare-and-set. */
  function AmongTheTurns(s: nat, steps: seq<Step>): Schedule { [[]] + Late(s, steps) }

  /** DEPARTURES, WHEREVER THEY LAND AMONG THE TURNS. A claim is disputed for nothing if and only if
      they overshoot, and the withdrawal is refused for nothing if and only if they obstruct. */
  lemma DeparturesExactly(bills: seq<Bill>, t: Target, evidence: real, s: nat, steps: seq<Step>)
    requires AllOk(bills) && Admitted(bills, steps)
    ensures DisputesForNothing(bills, t, evidence, AmongTheTurns(s, steps)) <==>
            Overshoots(bills, LiveClaims(bills, t), Billed(bills, t), evidence, s, BillsIn(steps))
    ensures RefusedForNothing(bills, t, evidence, AmongTheTurns(s, steps)) <==>
            Obstructs(bills, LiveClaims(bills, t), Billed(bills, t), evidence, s, BillsIn(steps))
  {
    var c := FirstReads(bills, t, AmongTheTurns(s, steps));
    assert c == Config(bills, LiveClaims(bills, t), Billed(bills, t), Late(s, steps));
    FromFirstReads(bills, t, evidence, AmongTheTurns(s, steps));
    ReadInStep(bills, t);
    ReadCovers(bills, t);
    Leave(c, t, evidence, s, steps);
  }

  /** Between the first fold and the first read of the claims a departure is never seen: the loop takes
      what the whole fold called for out of the claims that are left. */
  predicate OvershootsUnseen(bills: seq<Bill>, left: seq<Bill>, t: Target, evidence: real) {
    var claims := LiveClaims(left, t);
    var n := Needed(claims, Billed(bills, t), evidence);
    0 < n <= Clear(left, claims) && Billed(left, t) - Sum(claims[..n - 1], Quantity()) <= evidence
  }

  predicate ObstructsUnseen(bills: seq<Bill>, left: seq<Bill>, t: Target, evidence: real) {
    var claims := LiveClaims(left, t);
    var r := Clear(left, claims);
    r < Needed(claims, Billed(bills, t), evidence) && Billed(left, t) - Sum(claims[..r], Quantity()) <= evidence
  }

  lemma BetweenTheReadsExactly(bills: seq<Bill>, t: Target, evidence: real, steps: seq<Step>)
    requires AllOk(bills)
    ensures DisputesForNothing(bills, t, evidence, [steps]) <==>
            OvershootsUnseen(bills, DisturbAll(bills, steps), t, evidence)
    ensures RefusedForNothing(bills, t, evidence, [steps]) <==>
            ObstructsUnseen(bills, DisturbAll(bills, steps), t, evidence)
  {
    var c := FirstReads(bills, t, [steps]);
    FromFirstReads(bills, t, evidence, [steps]);
    ReadInStep(c.bills, t);
    assert c.claims[..|c.claims|] == c.claims;
    StaleRun(c, t, evidence, |c.claims|);
  }
}
