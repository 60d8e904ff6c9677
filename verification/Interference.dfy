/** The withdrawal disposition while other transactions move claims between its reads and its
    compare-and-sets. */
module Interference {
  import opened Sums
  import opened Claims
  import opened Disposition
  import opened Commands

  /** What a concurrent transaction may do to a claim: move its status, or amend it. */
  datatype Step =
    | Moves(bill: nat, status: Status)
    | Amends(bill: nat, lines: seq<ClaimLine>, at: nat)

  function Disturb(bills: seq<Bill>, step: Step): (r: seq<Bill>)
    ensures |r| == |bills|
  {
    if step.bill >= |bills| || |bills[step.bill].versions| == 0 then bills else
    match step
    case Moves(i, status) => WithStatus(bills, i, status)
    case Amends(i, lines, at) =>
      if LinesPositive(lines) then bills[i := Rewritten(bills[i], lines, at).(status := Submitted)] else bills
  }

  /** A step moves its bill's status, or claims other lines under its next version. */
  lemma DisturbsExactly(bills: seq<Bill>, i: nat, status: Status, lines: seq<ClaimLine>, at: nat)
    requires i < |bills| && |bills[i].versions| > 0
    ensures Disturb(bills, Moves(i, status)) == bills[i := bills[i].(status := status)]
    ensures LinesPositive(lines) ==>
              var after, n := Disturb(bills, Amends(i, lines, at)), |bills[i].versions|;
              && after == bills[i := after[i]] && after[i].status == Submitted && |after[i].versions| == n + 1
              && after[i].versions[n] == Version(bills[i].versions[n - 1].number + 1, at, false, lines)
              && after[i].versions[n - 1].superseded
  {
  }

  function DisturbAll(bills: seq<Bill>, steps: seq<Step>): (r: seq<Bill>)
    ensures |r| == |bills|
    decreases |steps|
  {
    if |steps| == 0 then bills else DisturbAll(Disturb(bills, steps[0]), steps[1..])
  }

  /** One slot after another, each with the steps that slip in there. An exhausted schedule is quiet. */
  type Schedule = seq<seq<Step>>

  function Slot(bills: seq<Bill>, env: Schedule): (r: seq<Bill>)
    ensures |r| == |bills|
  {
    if |env| == 0 then bills else DisturbAll(bills, env[0])
  }

  function Rest(env: Schedule): Schedule { if |env| == 0 then [] else env[1..] }

  /** How much interference is still to come. */
  function Left(env: Schedule): nat {
    if |env| == 0 then 0 else |env[0]| + Left(env[1..])
  }

  ghost predicate AllOk(bills: seq<Bill>) {
    forall i :: 0 <= i < |bills| ==> VersionsOk(bills[i])
  }

  lemma {:induction false} DisturbAllKeeps(bills: seq<Bill>, steps: seq<Step>)
    requires AllOk(bills)
    ensures AllOk(DisturbAll(bills, steps))
    decreases |steps|
  {
    if |steps| > 0 {
      assert AllOk(Disturb(bills, steps[0]));
      DisturbAllKeeps(Disturb(bills, steps[0]), steps[1..]);
    }
  }

  lemma SlotKeeps(bills: seq<Bill>, env: Schedule)
    requires AllOk(bills)
    ensures AllOk(Slot(bills, env))
    ensures Left(Rest(env)) <= Left(env)
    ensures Left(Rest(env)) == Left(env) ==> Slot(bills, env) == bills
  {
    if |env| > 0 {
      DisturbAllKeeps(bills, env[0]);
    }
  }

  /** The compare-and-set's guard: still live, and still the version the quantity was read from. */
  predicate Holds(bills: seq<Bill>, c: Claim) {
    c.bill < |bills| && IsLive(bills[c.bill].status) && |bills[c.bill].versions| > 0 &&
        Current(bills[c.bill]).number == c.version
  }

  /** Every claim in hand would still pass, and no bill is in hand twice. */
  predicate UpToDate(bills: seq<Bill>, claims: seq<Claim>) {
    && (forall k :: 0 <= k < |claims| ==> Holds(bills, claims[k]))
    && (forall j, k :: 0 <= j < k < |claims| ==> claims[j].bill != claims[k].bill)
  }

  lemma FreshReadHolds(bills: seq<Bill>, t: Target)
    requires AllOk(bills)
    ensures UpToDate(bills, LiveClaims(bills, t))
  {
    LiveClaimsExact(bills, t);
    var claims := LiveClaims(bills, t);
    forall k | 0 <= k < |claims|
      ensures Holds(bills, claims[k])
    {
      assert claims[k] in claims;
    }
    forall j, k | 0 <= j < k < |claims|
      ensures claims[j].bill != claims[k].bill
    {
      assert claims[j] in claims && claims[k] in claims;
    }
  }

  lemma DisputeKeepsRest(bills: seq<Bill>, claims: seq<Claim>)
    requires |claims| > 0 && claims[0].bill < |bills|
    ensures UpToDate(bills, claims) ==> UpToDate(Dispute(bills, claims[0].bill), claims[1..])
  {
    if UpToDate(bills, claims) {
      var after := Dispute(bills, claims[0].bill);
      forall k | 0 <= k < |claims[1..]|
        ensures Holds(after, claims[1..][k])
      {
        assert Holds(bills, claims[k + 1]) && claims[0].bill != claims[k + 1].bill;
      }
      forall j, k | 0 <= j < k < |claims[1..]|
        ensures claims[1..][j].bill != claims[1..][k].bill
      {
        assert claims[j + 1].bill != claims[k + 1].bill;
      }
    }
  }

  datatype Ending =
    | Aborted  // the lifecycle refused to dispute a certified claim
    | Ended(bills: seq<Bill>, disputed: seq<nat>)

  function Then(i: nat, e: Ending): Ending {
    match e case Aborted => Aborted case Ended(bills, disputed) => Ended(bills, [i] + disputed)
  }

  /** Where the loop stands: the table, the claims in hand, the running total, the interference to
      come. */
  datatype Config = Config(bills: seq<Bill>, claims: seq<Claim>, billed: real, env: Schedule)

  datatype Turn =
    | Stops                          // within the evidence, or nothing left in hand
    | Refuses                        // the lifecycle refuses to dispute a certified claim
    | Takes(bill: nat, next: Config) // the compare-and-set is won
    | Rereads(next: Config)          // it is lost: the fold, then the claims, are read again

  /** The table the compare-and-set meets. */
  function Met(c: Config): seq<Bill> { Slot(c.bills, c.env) }

  /** The table the second read of a lost turn meets. */
  function MetAgain(c: Config): seq<Bill> { Slot(Met(c), Rest(c.env)) }

  /** One turn. A slot of interference precedes the compare-and-set, and one separates the reads. */
  function TurnOf(c: Config, t: Target, evidence: real): Turn {
    if c.billed <= evidence || |c.claims| == 0 then Stops else
    var claim := c.claims[0];
    if !Holds(Met(c), claim) then
      Rereads(Config(MetAgain(c), LiveClaims(MetAgain(c), t), Billed(Met(c), t), Rest(Rest(c.env))))
    else if PastCertification(Met(c)[claim.bill].status) then Refuses
    else Takes(claim.bill, Config(Dispute(Met(c), claim.bill), c.claims[1..], c.billed - claim.quantity, Rest(c.env)))
  }

  ghost function Behind(c: Config): nat { if UpToDate(c.bills, c.claims) then 0 else 1 }

  /** Each turn spends interference, or catches up with it, or takes a claim. */
  ghost predicate Descends(next: Config, c: Config) {
    || Left(next.env) < Left(c.env)
    || (Left(next.env) == Left(c.env) && Behind(next) < Behind(c))
    || (Left(next.env) == Left(c.env) && Behind(next) == Behind(c) && |next.claims| < |c.claims|)
  }

  lemma RereadDescends(c: Config, next: Config, t: Target)
    requires AllOk(c.bills) && AllOk(next.bills) && |c.claims| > 0 && !Holds(Met(c), c.claims[0])
    requires Left(c.env) == Left(next.env) ==> Met(c) == c.bills
    requires Left(next.env) <= Left(c.env) && next.claims == LiveClaims(next.bills, t)
    ensures Descends(next, c)
  {
    FreshReadHolds(next.bills, t);
    assert Left(c.env) == Left(next.env) ==> !Holds(c.bills, c.claims[0]);
  }

  lemma TakeDescends(c: Config, next: Config)
    requires AllOk(c.bills) && |c.claims| > 0 && c.claims[0].bill < |c.bills|
    requires Left(c.env) == Left(next.env) ==> Met(c) == c.bills
    requires Left(next.env) <= Left(c.env) && next.bills == Dispute(Met(c), c.claims[0].bill) &&
             next.claims == c.claims[1..]
    ensures Descends(next, c)
  {
    DisputeKeepsRest(Met(c), c.claims);
  }

  lemma TurnDescends(c: Config, t: Target, evidence: real)
    requires AllOk(c.bills)
    ensures AllOk(Met(c)) && AllOk(MetAgain(c))
    ensures TurnOf(c, t, evidence).Takes? || TurnOf(c, t, evidence).Rereads? ==>
              AllOk(TurnOf(c, t, evidence).next.bills) && Descends(TurnOf(c, t, evidence).next, c)
  {
    SlotKeeps(c.bills, c.env);
    SlotKeeps(Met(c), Rest(c.env));
    if TurnOf(c, t, evidence).Rereads? {
      RereadDescends(c, TurnOf(c, t, evidence).next, t);
    } else if TurnOf(c, t, evidence).Takes? {
      TakeDescends(c, TurnOf(c, t, evidence).next);
    }
  }

  /** The loop: it ends because interference is finite and, without it, a fresh read never loses. */
  ghost function Loop(c: Config, t: Target, evidence: real): Ending
    requires AllOk(c.bills)
    decreases Left(c.env), Behind(c), |c.claims|
  {
    TurnDescends(c, t, evidence);
    match TurnOf(c, t, evidence)
    case Stops => Ended(c.bills, [])
    case Refuses => Aborted
    case Takes(i, next) => Then(i, Loop(next, t, evidence))
    case Rereads(next) => Loop(next, t, evidence)
  }

  /** The first fold, a slot of interference, then the first read of the claims. */
  function FirstReads(bills: seq<Bill>, t: Target, env: Schedule): Config {
    Config(Slot(bills, env), LiveClaims(Slot(bills, env), t), Billed(bills, t), Rest(env))
  }

  /** The disposition: a line within its evidence is left alone, any other enters the loop. */
  ghost function Disposes(bills: seq<Bill>, t: Target, evidence: real, env: Schedule): Ending
    requires AllOk(bills)
  {
    SlotKeeps(bills, env);
    if Billed(bills, t) <= evidence then Ended(bills, []) else Loop(FirstReads(bills, t, env), t, evidence)
  }

  // ── without interference ─────────────────────────────────────────────────────────────────────

  function BillsOf(claims: seq<Claim>): (r: seq<nat>)
    ensures |r| == |claims|
    ensures forall k :: 0 <= k < |claims| ==> r[k] == claims[k].bill
  {
    seq(|claims|, k requires 0 <= k < |claims| => claims[k].bill)
  }

  /** Disputing from the front is disputing them all. */
  lemma {:induction false} DisputeFirst(bills: seq<Bill>, claims: seq<Claim>)
    requires |claims| > 0 && InRange(claims, bills)
    ensures InRange(claims[1..], Dispute(bills, claims[0].bill))
    ensures DisputeAll(bills, claims) == DisputeAll(Dispute(bills, claims[0].bill), claims[1..])
  {
    var n := |claims|;
    if n == 1 {
      assert claims[..0] == [] && claims[1..] == [];
    } else {
      DisputeFirst(bills, claims[..n - 1]);
      assert claims[..n - 1][1..] == claims[1..][..n - 2];
    }
  }

  predicate MeetsCertified(bills: seq<Bill>, claims: seq<Claim>) {
    exists k :: 0 <= k < |claims| && claims[k].bill < |bills| && PastCertification(bills[claims[k].bill].status)
  }

  /** What the first `n` claims in hand come to when nothing interferes. */
  ghost function QuietEnd(bills: seq<Bill>, claims: seq<Claim>, n: nat): Ending
    requires n <= |claims| && InRange(claims[..n], bills)
  {
    if MeetsCertified(bills, claims[..n]) then Aborted else Ended(DisputeAll(bills, claims[..n]), BillsOf(claims[..n]))
  }

  lemma UpToDateInRange(bills: seq<Bill>, claims: seq<Claim>, n: nat)
    requires n <= |claims| && UpToDate(bills, claims)
    ensures InRange(claims[..n], bills)
  {
    forall k | 0 <= k < n
      ensures claims[..n][k].bill < |bills|
    {
      assert Holds(bills, claims[k]);
    }
  }

  lemma QuietMeets(bills: seq<Bill>, claims: seq<Claim>, n: nat)
    requires 0 < n <= |claims| && UpToDate(bills, claims)
    requires claims[0].bill < |bills| && !PastCertification(bills[claims[0].bill].status)
    ensures MeetsCertified(bills, claims[..n]) <==> MeetsCertified(Dispute(bills, claims[0].bill), claims[..n][1..])
  {
    var after, taken, rest := Dispute(bills, claims[0].bill), claims[..n], claims[..n][1..];
    assert |rest| == n - 1 && |after| == |bills|;
    forall k | 0 <= k < n - 1
      ensures rest[k] == claims[k + 1] && claims[0].bill != rest[k].bill
    {
      assert claims[0].bill != claims[k + 1].bill;
    }
    if MeetsCertified(bills, taken) {
      var k :| 0 <= k < n && taken[k].bill < |bills| && PastCertification(bills[taken[k].bill].status);
      assert k > 0 && rest[k - 1] == taken[k];
    }
    if MeetsCertified(after, rest) {
      var k :| 0 <= k < |rest| && rest[k].bill < |after| && PastCertification(after[rest[k].bill].status);
      assert taken[k + 1] == rest[k];
    }
  }

  lemma QuietEndStep(bills: seq<Bill>, claims: seq<Claim>, n: nat)
    requires 0 < n <= |claims| && UpToDate(bills, claims) && InRange(claims[..n], bills)
    requires claims[0].bill < |bills| && !PastCertification(bills[claims[0].bill].status)
    ensures InRange(claims[1..][..n - 1], Dispute(bills, claims[0].bill))
    ensures QuietEnd(bills, claims, n) ==
            Then(claims[0].bill, QuietEnd(Dispute(bills, claims[0].bill), claims[1..], n - 1))
  {
    var taken := claims[..n];
    assert taken[0] == claims[0];
    assert taken[1..] == claims[1..][..n - 1];
    DisputeFirst(bills, taken);
    QuietMeets(bills, claims, n);
    assert BillsOf(taken) == [claims[0].bill] + BillsOf(taken[1..]);
  }

  lemma QuietTurn(c: Config, t: Target, evidence: real)
    requires UpToDate(c.bills, c.claims) && c.env == [] && c.billed > evidence && |c.claims| > 0
    ensures c.claims[0].bill < |c.bills|
    ensures TurnOf(c, t, evidence) ==
            if PastCertification(c.bills[c.claims[0].bill].status) then Refuses
            else Takes(c.claims[0].bill,
                Config(Dispute(c.bills, c.claims[0].bill), c.claims[1..], c.billed - c.claims[0].quantity, []))
  {
    assert Holds(c.bills, c.claims[0]);
  }

  lemma QuietRefusal(bills: seq<Bill>, claims: seq<Claim>, n: nat)
    requires 0 < n <= |claims| && claims[0].bill < |bills| && PastCertification(bills[claims[0].bill].status)
    ensures MeetsCertified(bills, claims[..n])
  {
    assert claims[..n][0] == claims[0];
  }

  lemma LoopTakes(c: Config, t: Target, evidence: real, i: nat, next: Config)
    requires AllOk(c.bills) && TurnOf(c, t, evidence) == Takes(i, next)
    ensures AllOk(next.bills) && Loop(c, t, evidence) == Then(i, Loop(next, t, evidence))
  {
    TurnDescends(c, t, evidence);
  }

  lemma NextInRange(c: Config, n: nat, next: Config)
    requires 0 < n <= |c.claims| && UpToDate(c.bills, c.claims)
    requires c.claims[0].bill < |c.bills| && next.bills == Dispute(c.bills, c.claims[0].bill) &&
             next.claims == c.claims[1..]
    ensures UpToDate(next.bills, next.claims) && InRange(next.claims[..n - 1], next.bills)
  {
    DisputeKeepsRest(c.bills, c.claims);
    UpToDateInRange(next.bills, next.claims, n - 1);
  }

  lemma {:induction false} QuietLoop(c: Config, t: Target, evidence: real, n: nat)
    requires AllOk(c.bills) && UpToDate(c.bills, c.claims) && c.env == []
    requires n == Needed(c.claims, c.billed, evidence) && InRange(c.claims[..n], c.bills)
    ensures Loop(c, t, evidence) == QuietEnd(c.bills, c.claims, n)
    decreases |c.claims|
  {
    if c.billed <= evidence || |c.claims| == 0 {
      assert c.claims[..n] == [];
      assert TurnOf(c, t, evidence) == Stops;
    } else {
      QuietTurn(c, t, evidence);
      var i := c.claims[0].bill;
      if PastCertification(c.bills[i].status) {
        QuietRefusal(c.bills, c.claims, n);
      } else {
        var next := Config(Dispute(c.bills, i), c.claims[1..], c.billed - c.claims[0].quantity, []);
        QuietStep(c, t, evidence, n, next);
      }
    }
  }

  lemma QuietStep(c: Config, t: Target, evidence: real, n: nat, next: Config)
    requires AllOk(c.bills) && UpToDate(c.bills, c.claims) && 0 < n <= |c.claims| && InRange(c.claims[..n], c.bills)
    requires c.claims[0].bill < |c.bills| && !PastCertification(c.bills[c.claims[0].bill].status)
    requires TurnOf(c, t, evidence) == Takes(c.claims[0].bill, next) && next.env == []
    requires next.bills == Dispute(c.bills, c.claims[0].bill) && next.claims == c.claims[1..]
    requires n - 1 == Needed(next.claims, next.billed, evidence)
    ensures Loop(c, t, evidence) == QuietEnd(c.bills, c.claims, n)
    decreases |c.claims|, 0
  {
    LoopTakes(c, t, evidence, c.claims[0].bill, next);
    NextInRange(c, n, next);
    QuietLoop(next, t, evidence, n - 1);
    QuietEndStep(c.bills, c.claims, n);
  }

  /** Without interference the loop is exactly the disposition: the same prefix, disputed once each,
      newest first, and refused on the same condition. */
  lemma QuietIsExact(bills: seq<Bill>, t: Target, evidence: real)
    requires AllOk(bills)
    ensures Disposes(bills, t, evidence, []) ==
            match Disposed(bills, t, evidence)
            case None => Aborted
            case Some(after) => Ended(after, BillsOf(Taken(bills, t, evidence)))
  {
    FreshReadHolds(bills, t);
    UpToDateInRange(bills, LiveClaims(bills, t), Needed(LiveClaims(bills, t), Billed(bills, t), evidence));
    QuietLoop(FirstReads(bills, t, []), t, evidence, Needed(LiveClaims(bills, t), Billed(bills, t), evidence));
    TakenInRange(bills, t, evidence);
    var taken := Taken(bills, t, evidence);
    if MeetsCertified(bills, taken) {
      var k :| 0 <= k < |taken| && taken[k].bill < |bills| && PastCertification(bills[taken[k].bill].status);
      assert taken[k] in taken;
    }
  }

  // ── under interference that raises no claim ──────────────────────────────────────────────────

  /** No bill claims more of the line than it did. */
  ghost predicate NoRise(was: seq<Bill>, now: seq<Bill>, t: Target) {
    |now| == |was| && forall i :: 0 <= i < |was| ==> BillOn(t)(now[i]) <= BillOn(t)(was[i])
  }

  /** Along this run of the loop, no interfering step raises what any bill claims of the line. */
  ghost predicate Calm(c: Config, t: Target, evidence: real)
    requires AllOk(c.bills)
    decreases Left(c.env), Behind(c), |c.claims|
  {
    TurnDescends(c, t, evidence);
    match TurnOf(c, t, evidence)
    case Stops => true
    case Refuses => true
    case Takes(_, next) => NoRise(c.bills, Met(c), t) && Calm(next, t, evidence)
    case Rereads(next) => NoRise(c.bills, Met(c), t) && NoRise(Met(c), MetAgain(c), t) && Calm(next, t, evidence)
  }

  /** Nor does the step between the first two reads. */
  ghost predicate CalmFrom(bills: seq<Bill>, t: Target, evidence: real, env: Schedule)
    requires AllOk(bills)
  {
    SlotKeeps(bills, env);
    NoRise(bills, Slot(bills, env), t) && Calm(FirstReads(bills, t, env), t, evidence)
  }

  /** A claim in hand was read from a version its bill has or had: versions are append-only. */
  predicate ReadFrom(b: Bill, t: Target, c: Claim) {
    && |b.versions| > 0 && c.version <= Current(b).number
    && (Current(b).number == c.version ==> LineQty(Current(b).lines, t) == c.quantity)
  }

  /** The running total is no less than the fold, and every bill still claiming is in hand. */
  ghost predicate Tracks(bills: seq<Bill>, t: Target, claims: seq<Claim>, billed: real) {
    && Billed(bills, t) <= billed
    && (forall k :: 0 <= k < |claims| ==> claims[k].bill < |bills| && ReadFrom(bills[claims[k].bill], t, claims[k]))
    && (forall i :: 0 <= i < |bills| && BillOn(t)(bills[i]) > 0.0 ==> Listed(claims, i))
  }

  lemma {:induction false} NoRiseFold(was: seq<Bill>, now: seq<Bill>, t: Target)
    requires NoRise(was, now, t)
    ensures Billed(now, t) <= Billed(was, t)
  {
    var n := |was|;
    if n > 0 {
      NoRiseFold(was[..n - 1], now[..n - 1], t);
    }
  }

  lemma {:induction false} StepsReadFrom(bills: seq<Bill>, steps: seq<Step>, t: Target, c: Claim)
    requires c.bill < |bills| && ReadFrom(bills[c.bill], t, c)
    ensures ReadFrom(DisturbAll(bills, steps)[c.bill], t, c)
    decreases |steps|
  {
    if |steps| > 0 {
      assert ReadFrom(Disturb(bills, steps[0])[c.bill], t, c);
      StepsReadFrom(Disturb(bills, steps[0]), steps[1..], t, c);
    }
  }

  lemma SlotReadFrom(bills: seq<Bill>, env: Schedule, t: Target, c: Claim)
    requires c.bill < |bills| && ReadFrom(bills[c.bill], t, c)
    ensures ReadFrom(Slot(bills, env)[c.bill], t, c)
  {
    if |env| > 0 {
      StepsReadFrom(bills, env[0], t, c);
    }
  }

  lemma SlotTracks(bills: seq<Bill>, env: Schedule, t: Target, claims: seq<Claim>, billed: real)
    requires Tracks(bills, t, claims, billed) && NoRise(bills, Slot(bills, env), t)
    ensures Tracks(Slot(bills, env), t, claims, billed)
  {
    NoRiseFold(bills, Slot(bills, env), t);
    forall k | 0 <= k < |claims|
      ensures ReadFrom(Slot(bills, env)[claims[k].bill], t, claims[k])
    {
      SlotReadFrom(bills, env, t, claims[k]);
    }
  }

  lemma ReadTracks(bills: seq<Bill>, t: Target, billed: real)
    requires AllOk(bills) && Billed(bills, t) <= billed
    ensures Tracks(bills, t, LiveClaims(bills, t), billed)
  {
    LiveClaimsExact(bills, t);
    var claims := LiveClaims(bills, t);
    forall k | 0 <= k < |claims|
      ensures claims[k].bill < |bills| && ReadFrom(bills[claims[k].bill], t, claims[k])
    {
      assert claims[k] in claims;
    }
    forall i | 0 <= i < |bills| && BillOn(t)(bills[i]) > 0.0
      ensures Listed(claims, i)
    {
      CurrentQty(bills[i], t);
      if !Touches(Current(bills[i]).lines, t) {
        UntouchedQty(Current(bills[i]).lines, t);
      }
      assert ClaimOf(bills, i, t) in claims;
    }
  }

  lemma WonTracks(bills: seq<Bill>, t: Target, claims: seq<Claim>, billed: real)
    requires AllOk(bills) && |claims| > 0 && Tracks(bills, t, claims, billed) && Holds(bills, claims[0])
    ensures Tracks(Dispute(bills, claims[0].bill), t, claims[1..], billed - claims[0].quantity)
  {
    var c := claims[0];
    var after := Dispute(bills, c.bill);
    DisputeLive(bills, c.bill, t);
    forall k | 0 <= k < |claims[1..]|
      ensures claims[1..][k].bill < |after| && ReadFrom(after[claims[1..][k].bill], t, claims[1..][k])
    {
      assert ReadFrom(bills[claims[k + 1].bill], t, claims[k + 1]);
    }
    forall i | 0 <= i < |after| && BillOn(t)(after[i]) > 0.0
      ensures Listed(claims[1..], i)
    {
      assert i != c.bill;
      var k :| 0 <= k < |claims| && claims[k].bill == i;
      assert claims[1..][k - 1].bill == i;
    }
  }

  /** When nothing is left in hand, nothing is left claiming. */
  lemma ExhaustedIsEmpty(bills: seq<Bill>, t: Target, billed: real)
    requires AllOk(bills) && Tracks(bills, t, [], billed)
    ensures Billed(bills, t) == 0.0
  {
    forall i | 0 <= i < |bills|
      ensures BillOn(t)(bills[i]) == 0.0
    {
      CurrentQty(bills[i], t);
      assert !Listed([], i);
    }
    SumZero(bills, BillOn(t));
  }

  lemma TurnTracks(c: Config, t: Target, evidence: real)
    requires AllOk(c.bills) && Tracks(c.bills, t, c.claims, c.billed) && NoRise(c.bills, Met(c), t)
    ensures match TurnOf(c, t, evidence)
            case Takes(_, next) => Tracks(next.bills, t, next.claims, next.billed)
            case Rereads(next) => NoRise(Met(c), MetAgain(c), t) ==> Tracks(next.bills, t, next.claims, next.billed)
            case _ => true
  {
    TurnDescends(c, t, evidence);
    SlotTracks(c.bills, c.env, t, c.claims, c.billed);
    if TurnOf(c, t, evidence).Takes? {
      WonTracks(Met(c), t, c.claims, c.billed);
    } else if TurnOf(c, t, evidence).Rereads? && NoRise(Met(c), MetAgain(c), t) {
      NoRiseFold(Met(c), MetAgain(c), t);
      ReadTracks(MetAgain(c), t, Billed(Met(c), t));
    }
  }

  lemma {:induction false} CalmLoopEndsWithin(c: Config, t: Target, evidence: real)
    requires AllOk(c.bills) && evidence >= 0.0 && Tracks(c.bills, t, c.claims, c.billed)
    requires Calm(c, t, evidence) && Loop(c, t, evidence).Ended?
    ensures Billed(Loop(c, t, evidence).bills, t) <= evidence
    decreases Left(c.env), Behind(c), |c.claims|
  {
    TurnDescends(c, t, evidence);
    match TurnOf(c, t, evidence)
    case Stops =>
      if |c.claims| == 0 && c.billed > evidence {
        assert c.claims == [];
        ExhaustedIsEmpty(c.bills, t, c.billed);
      }
    case Takes(_, next) =>
      TurnTracks(c, t, evidence);
      CalmLoopEndsWithin(next, t, evidence);
    case Rereads(next) =>
      TurnTracks(c, t, evidence);
      CalmLoopEndsWithin(next, t, evidence);
  }

  /** Under any finite interference of disputes, rejections and shrinking amendments, a disposition
      that ends leaves the line within its evidence. */
  lemma CalmEndsWithin(bills: seq<Bill>, t: Target, evidence: real, env: Schedule)
    requires AllOk(bills) && evidence >= 0.0
    requires CalmFrom(bills, t, evidence, env)
    requires Disposes(bills, t, evidence, env).Ended?
    ensures Billed(Disposes(bills, t, evidence, env).bills, t) <= evidence
  {
    if Billed(bills, t) > evidence {
      SlotKeeps(bills, env);
      NoRiseFold(bills, Slot(bills, env), t);
      ReadTracks(Slot(bills, env), t, Billed(bills, t));
      CalmLoopEndsWithin(FirstReads(bills, t, env), t, evidence);
    }
  }
}
