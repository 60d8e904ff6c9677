/** The withdrawal disposition: which live claims leave when a line's evidence is withdrawn. */
module Disposition {
  import opened Sums
  import opened Claims

  /** One live bill's claim on a line, folded to one row per bill. */
  datatype Claim = Claim(bill: nat, version: nat, createdAt: nat, quantity: real)

  predicate Newer(a: Claim, b: Claim) {
    a.createdAt > b.createdAt || (a.createdAt == b.createdAt && a.bill > b.bill)
  }

  predicate NewestFirst(claims: seq<Claim>) {
    forall i, j :: 0 <= i < j < |claims| ==> Newer(claims[i], claims[j])
  }

  function Insert(claims: seq<Claim>, c: Claim): seq<Claim> {
    if |claims| == 0 || Newer(c, claims[0]) then [c] + claims
    else [claims[0]] + Insert(claims[1..], c)
  }

  predicate ClaimsOf(b: Bill, t: Target) {
    IsLive(b.status) && |b.versions| > 0 && Touches(Current(b).lines, t)
  }

  function ClaimOf(bills: seq<Bill>, i: nat, t: Target): Claim
    requires i < |bills| && |bills[i].versions| > 0
  {
    var v := Current(bills[i]);
    Claim(i, v.number, v.createdAt, LineQty(v.lines, t))
  }

  /** The live claims on a line, newest first; the bill breaks a tie. */
  function LiveClaims(bills: seq<Bill>, t: Target): seq<Claim> {
    Gather(bills, t, |bills|)
  }

  function Gather(bills: seq<Bill>, t: Target, n: nat): seq<Claim>
    requires n <= |bills|
  {
    if n == 0 then []
    else if ClaimsOf(bills[n - 1], t) then Insert(Gather(bills, t, n - 1), ClaimOf(bills, n - 1, t))
    else Gather(bills, t, n - 1)
  }

  function Quantity(): Claim -> real { (c: Claim) => c.quantity }

  lemma {:induction false} InsertHolds(claims: seq<Claim>, c: Claim)
    ensures forall x :: x in Insert(claims, c) <==> x in claims || x == c
    ensures Sum(Insert(claims, c), Quantity()) == Sum(claims, Quantity()) + c.quantity
  {
    SumOne(c, Quantity());
    if |claims| == 0 || Newer(c, claims[0]) {
      SumAppend([c], claims, Quantity());
    } else {
      var rest := claims[1..];
      InsertHolds(rest, c);
      assert claims == [claims[0]] + rest;
      SumAppend([claims[0]], rest, Quantity());
      SumAppend([claims[0]], Insert(rest, c), Quantity());
    }
  }

  /** A later bill takes its place: newer claims before it, older ones after. */
  lemma {:induction false} InsertOrders(claims: seq<Claim>, c: Claim)
    requires NewestFirst(claims)
    requires forall x :: x in claims ==> x.bill < c.bill
    ensures NewestFirst(Insert(claims, c))
  {
    if |claims| == 0 || Newer(c, claims[0]) {
      forall j | 0 <= j < |claims|
        ensures Newer(c, claims[j])
      {
        assert j > 0 ==> Newer(claims[0], claims[j]);
      }
    } else {
      var rest := claims[1..];
      assert claims == [claims[0]] + rest && claims[0] in claims;
      InsertOrders(rest, c);
      InsertHolds(rest, c);
      forall x | x in Insert(rest, c)
        ensures Newer(claims[0], x)
      {
        if x != c {
          var j :| 0 <= j < |rest| && rest[j] == x;
          assert claims[j + 1] == x;
        }
      }
    }
  }

  /** `c` is the row of one of the first `n` bills. */
  predicate RowOfBill(bills: seq<Bill>, t: Target, n: nat, c: Claim)
    requires n <= |bills|
  {
    c.bill < n && ClaimsOf(bills[c.bill], t) && c == ClaimOf(bills, c.bill, t)
  }

  lemma {:induction false} GatherHolds(bills: seq<Bill>, t: Target, n: nat, c: Claim)
    requires n <= |bills|
    ensures c in Gather(bills, t, n) <==> RowOfBill(bills, t, n, c)
  {
    if n > 0 {
      GatherHolds(bills, t, n - 1, c);
      if ClaimsOf(bills[n - 1], t) {
        InsertHolds(Gather(bills, t, n - 1), ClaimOf(bills, n - 1, t));
      }
    }
  }

  lemma {:induction false} GatherOrders(bills: seq<Bill>, t: Target, n: nat)
    requires n <= |bills|
    ensures NewestFirst(Gather(bills, t, n))
  {
    if n > 0 {
      GatherOrders(bills, t, n - 1);
      if ClaimsOf(bills[n - 1], t) {
        forall x | x in Gather(bills, t, n - 1)
          ensures x.bill < n - 1
        {
          GatherHolds(bills, t, n - 1, x);
        }
        InsertOrders(Gather(bills, t, n - 1), ClaimOf(bills, n - 1, t));
      }
    }
  }

  lemma {:induction false} GatherSums(bills: seq<Bill>, t: Target, n: nat)
    requires n <= |bills|
    requires forall i :: 0 <= i < |bills| ==> VersionsOk(bills[i])
    ensures Sum(Gather(bills, t, n), Quantity()) == Billed(bills[..n], t)
  {
    if n > 0 {
      GatherSums(bills, t, n - 1);
      SumStep(bills, n - 1, BillOn(t));
      CurrentQty(bills[n - 1], t);
      if ClaimsOf(bills[n - 1], t) {
        InsertHolds(Gather(bills, t, n - 1), ClaimOf(bills, n - 1, t));
      } else if IsLive(bills[n - 1].status) {
        UntouchedQty(Current(bills[n - 1]).lines, t);
      }
    }
  }

  /** The claims on a line are exactly the live bills touching it, one row each, newest first, and
      together they are the whole billed fold. */
  lemma LiveClaimsExact(bills: seq<Bill>, t: Target)
    requires forall i :: 0 <= i < |bills| ==> VersionsOk(bills[i])
    ensures NewestFirst(LiveClaims(bills, t))
    ensures forall c :: c in LiveClaims(bills, t) <==>
              c.bill < |bills| && ClaimsOf(bills[c.bill], t) && c == ClaimOf(bills, c.bill, t)
    ensures Sum(LiveClaims(bills, t), Quantity()) == Billed(bills, t)
  {
    GatherOrders(bills, t, |bills|);
    GatherSums(bills, t, |bills|);
    assert bills[..|bills|] == bills;
    forall c
      ensures c in LiveClaims(bills, t) <==> RowOfBill(bills, t, |bills|, c)
    {
      GatherHolds(bills, t, |bills|, c);
    }
  }

  /** A bill counted live with a line on `t`. */
  predicate ClaimsFor(b: Bill, t: Target) {
    && b.status in {Submitted, UnderVerification, Verified, Certified, ApprovedForPayment, PartPaid, Paid}
    && |b.versions| > 0
    && var lines := b.versions[|b.versions| - 1].lines;
       exists k :: 0 <= k < |lines| && lines[k].target == t
  }

  /** Claimed later, or at the same time by a bill of higher number. */
  predicate LaterOrHigher(a: Claim, b: Claim) {
    b.createdAt <= a.createdAt && (b.createdAt == a.createdAt ==> b.bill < a.bill)
  }

  /** THE ORDER CLAIMS LEAVE IN. Each live bill with a line on `t` has one claim, of its last version as it
      was written and claimed; the latest written come first, and of those written at once the bill of
      highest number. */
  lemma LiveClaimsInFields(bills: seq<Bill>, t: Target)
    requires forall i :: 0 <= i < |bills| ==> VersionsOk(bills[i])
    ensures forall k :: 0 <= k < |LiveClaims(bills, t)| ==>
              var c := LiveClaims(bills, t)[k];
              && c.bill < |bills| && ClaimsFor(bills[c.bill], t)
              && var v := bills[c.bill].versions[|bills[c.bill].versions| - 1];
                 c.version == v.number && c.createdAt == v.createdAt && c.quantity == LineQty(v.lines, t)
    ensures forall i :: 0 <= i < |bills| && ClaimsFor(bills[i], t) ==> Listed(LiveClaims(bills, t), i)
    ensures forall j, k :: 0 <= j < k < |LiveClaims(bills, t)| ==>
              LaterOrHigher(LiveClaims(bills, t)[j], LiveClaims(bills, t)[k])
  {
    var claims := LiveClaims(bills, t);
    LiveClaimsExact(bills, t);
    forall k | 0 <= k < |claims|
      ensures RowOfBill(bills, t, |bills|, claims[k])
    {
      assert claims[k] in claims;
    }
    forall i | 0 <= i < |bills| && ClaimsFor(bills[i], t)
      ensures Listed(claims, i)
    {
      assert ClaimOf(bills, i, t) in claims;
    }
    forall j, k | 0 <= j < k < |claims|
      ensures LaterOrHigher(claims[j], claims[k])
    {
      assert Newer(claims[j], claims[k]);
    }
  }

  lemma HeadIsLatest(claims: seq<Claim>, i: nat, at: nat)
    requires Listed(claims, i)
    requires forall j, k :: 0 <= j < k < |claims| ==> LaterOrHigher(claims[j], claims[k])
    requires forall k :: 0 <= k < |claims| ==>
               if claims[k].bill == i then claims[k].createdAt == at else claims[k].createdAt < at
    ensures |claims| > 0 && claims[0].bill == i
  {
    assert forall k :: 0 < k < |claims| ==> LaterOrHigher(claims[0], claims[k]);
  }

  /** A live claim written later than every other is the first to leave. */
  lemma LatestIsFirst(bills: seq<Bill>, t: Target, i: nat, evidence: real)
    requires forall j :: 0 <= j < |bills| ==> VersionsOk(bills[j])
    requires i < |bills| && ClaimsFor(bills[i], t)
    requires forall j :: 0 <= j < |bills| && j != i && IsLive(bills[j].status) && |bills[j].versions| > 0 ==>
               bills[j].versions[|bills[j].versions| - 1].createdAt <
               bills[i].versions[|bills[i].versions| - 1].createdAt
    ensures |LiveClaims(bills, t)| > 0 && LiveClaims(bills, t)[0].bill == i
    ensures Billed(bills, t) > evidence ==> |Taken(bills, t, evidence)| > 0 && Taken(bills, t, evidence)[0].bill == i
  {
    LiveClaimsInFields(bills, t);
    HeadIsLatest(LiveClaims(bills, t), i, bills[i].versions[|bills[i].versions| - 1].createdAt);
  }

  // ── the loop, uninterrupted ──────────────────────────────────────────────────────────────────

  function Dispute(bills: seq<Bill>, i: nat): seq<Bill>
    requires i < |bills|
  {
    bills[i := bills[i].(status := Disputed)]
  }

  /** How many claims the loop takes before the running total is within the evidence. */
  function Needed(claims: seq<Claim>, billed: real, evidence: real): (n: nat)
    ensures n <= |claims|
  {
    if billed <= evidence || |claims| == 0 then 0
    else 1 + Needed(claims[1..], billed - claims[0].quantity, evidence)
  }

  predicate InRange(claims: seq<Claim>, bills: seq<Bill>) {
    forall i :: 0 <= i < |claims| ==> claims[i].bill < |bills|
  }

  function DisputeAll(bills: seq<Bill>, claims: seq<Claim>): (r: seq<Bill>)
    requires InRange(claims, bills)
    ensures |r| == |bills|
  {
    if |claims| == 0 then bills else Dispute(DisputeAll(bills, claims[..|claims| - 1]), claims[|claims| - 1].bill)
  }

  /** The claims the disposition takes: the newest-first prefix it needs. */
  function Taken(bills: seq<Bill>, t: Target, evidence: real): seq<Claim> {
    LiveClaims(bills, t)[..Needed(LiveClaims(bills, t), Billed(bills, t), evidence)]
  }

  /** The bills after the disposition. The lifecycle refuses to move a certified claim to
      `disputed`, which ends the whole transaction. */
  function Disposed(bills: seq<Bill>, t: Target, evidence: real): Option<seq<Bill>>
    requires forall i :: 0 <= i < |bills| ==> VersionsOk(bills[i])
  {
    TakenInRange(bills, t, evidence);
    if exists c :: c in Taken(bills, t, evidence) && PastCertification(bills[c.bill].status) then None
    else Some(DisputeAll(bills, Taken(bills, t, evidence)))
  }

  /** The prefix taken is enough, and one claim fewer would not be. */
  lemma {:induction false} NeededIsMinimal(claims: seq<Claim>, billed: real, evidence: real)
    requires billed - Sum(claims, Quantity()) <= evidence
    ensures billed - Sum(claims[..Needed(claims, billed, evidence)], Quantity()) <= evidence
    ensures forall k :: 0 <= k < Needed(claims, billed, evidence) ==> billed - Sum(claims[..k], Quantity()) > evidence
  {
    if billed > evidence && |claims| > 0 {
      var n := Needed(claims, billed, evidence);
      assert claims == [claims[0]] + claims[1..];
      SumAppend([claims[0]], claims[1..], Quantity());
      SumOne(claims[0], Quantity());
      NeededIsMinimal(claims[1..], billed - claims[0].quantity, evidence);
      forall k | 0 < k <= n
        ensures Sum(claims[..k], Quantity()) == claims[0].quantity + Sum(claims[1..][..k - 1], Quantity())
      {
        assert claims[..k] == [claims[0]] + claims[1..][..k - 1];
        SumAppend([claims[0]], claims[1..][..k - 1], Quantity());
      }
    }
  }

  predicate Listed(claims: seq<Claim>, i: nat) {
    exists k :: 0 <= k < |claims| && claims[k].bill == i
  }

  /** Exactly the listed bills are disputed, and nothing else about any bill changes. */
  lemma {:induction false} DisputeAllExact(bills: seq<Bill>, claims: seq<Claim>)
    requires InRange(claims, bills)
    ensures forall i :: 0 <= i < |bills| ==>
              DisputeAll(bills, claims)[i] == if Listed(claims, i) then bills[i].(status := Disputed) else bills[i]
  {
    if |claims| > 0 {
      var rest, last := claims[..|claims| - 1], claims[|claims| - 1];
      DisputeAllExact(bills, rest);
      forall i | 0 <= i < |bills|
        ensures Listed(claims, i) <==> Listed(rest, i) || last.bill == i
      {
        if Listed(rest, i) {
          var k :| 0 <= k < |rest| && rest[k].bill == i;
          assert claims[k].bill == i;
        }
        if last.bill == i {
          assert claims[|claims| - 1].bill == i;
        }
        if Listed(claims, i) && last.bill != i {
          var k :| 0 <= k < |claims| && claims[k].bill == i;
          assert rest[k].bill == i;
        }
      }
    }
  }

  lemma DisputeLive(bills: seq<Bill>, i: nat, u: Target)
    requires i < |bills| && VersionsOk(bills[i]) && IsLive(bills[i].status)
    ensures Billed(Dispute(bills, i), u) == Billed(bills, u) - LineQty(Current(bills[i]).lines, u) <= Billed(bills, u)
  {
    SumUpdate(bills, i, bills[i].(status := Disputed), BillOn(u));
    CurrentQty(bills[i], u);
  }

  lemma OneRowPerBill(bills: seq<Bill>, t: Target, n: nat)
    requires forall i :: 0 <= i < |bills| ==> VersionsOk(bills[i])
    requires n < |LiveClaims(bills, t)|
    ensures !Listed(LiveClaims(bills, t)[..n], LiveClaims(bills, t)[n].bill)
  {
    LiveClaimsExact(bills, t);
    var claims := LiveClaims(bills, t);
    assert claims[n] in claims;
    forall k | 0 <= k < n
      ensures claims[..n][k].bill != claims[n].bill
    {
      assert claims[k] in claims && Newer(claims[k], claims[n]);
    }
  }

  /** Disputing live claims on a line lowers its fold by exactly what they claim of it, and raises
      the fold of no line. */
  lemma {:induction false} DisputeAllLowers(bills: seq<Bill>, t: Target, n: nat, u: Target)
    requires forall i :: 0 <= i < |bills| ==> VersionsOk(bills[i])
    requires n <= |LiveClaims(bills, t)| && InRange(LiveClaims(bills, t)[..n], bills)
    ensures Billed(DisputeAll(bills, LiveClaims(bills, t)[..n]), u) <= Billed(bills, u)
    ensures u == t ==>
              Billed(DisputeAll(bills, LiveClaims(bills, t)[..n]), t) ==
              Billed(bills, t) - Sum(LiveClaims(bills, t)[..n], Quantity())
  {
    if n > 0 {
      var claims := LiveClaims(bills, t);
      var last := claims[n - 1];
      assert claims[..n][..n - 1] == claims[..n - 1];
      assert claims[..n][n - 1] == last;
      assert forall k :: 0 <= k < n - 1 ==> claims[..n][k] == claims[..n - 1][k];
      DisputeAllLowers(bills, t, n - 1, u);
      var before := DisputeAll(bills, claims[..n - 1]);
      OneRowPerBill(bills, t, n - 1);
      DisputeAllExact(bills, claims[..n - 1]);
      assert last in claims && last == ClaimOf(bills, last.bill, t) && ClaimsOf(bills[last.bill], t) by {
        LiveClaimsExact(bills, t);
      }
      assert before[last.bill] == bills[last.bill];
      DisputeLive(before, last.bill, u);
      SumStep(claims, n - 1, Quantity());
    }
  }

  lemma TakenInRange(bills: seq<Bill>, t: Target, evidence: real)
    requires forall i :: 0 <= i < |bills| ==> VersionsOk(bills[i])
    ensures InRange(Taken(bills, t, evidence), bills)
  {
    LiveClaimsExact(bills, t);
    var claims := LiveClaims(bills, t);
    forall k | 0 <= k < |Taken(bills, t, evidence)|
      ensures Taken(bills, t, evidence)[k].bill < |bills|
    {
      assert claims[k] in claims;
    }
  }

  /** Without interference the disposition ends within the evidence, takes a newest-first prefix of
      the live claims, would break the bound if it stopped one claim earlier, and raises no line. */
  lemma DispositionExact(bills: seq<Bill>, t: Target, evidence: real, u: Target)
    requires forall i :: 0 <= i < |bills| ==> VersionsOk(bills[i])
    requires evidence >= 0.0
    requires Disposed(bills, t, evidence).Some?
    ensures Billed(Disposed(bills, t, evidence).value, t) <= evidence
    ensures Billed(Disposed(bills, t, evidence).value, u) <= Billed(bills, u)
    ensures Taken(bills, t, evidence) <= LiveClaims(bills, t) && NewestFirst(LiveClaims(bills, t))
    ensures forall k :: 0 <= k < |Taken(bills, t, evidence)| ==>
              Billed(bills, t) - Sum(LiveClaims(bills, t)[..k], Quantity()) > evidence
    ensures |Disposed(bills, t, evidence).value| == |bills|
    ensures forall i :: 0 <= i < |bills| ==>
              Disposed(bills, t, evidence).value[i] ==
              if Listed(Taken(bills, t, evidence), i) then bills[i].(status := Disputed) else bills[i]
  {
    LiveClaimsExact(bills, t);
    TakenInRange(bills, t, evidence);
    var claims := LiveClaims(bills, t);
    var n := Needed(claims, Billed(bills, t), evidence);
    NeededIsMinimal(claims, Billed(bills, t), evidence);
    DisputeAllExact(bills, claims[..n]);
    DisputeAllLowers(bills, t, n, t);
    DisputeAllLowers(bills, t, n, u);
  }

  /** Every bill the disposition takes was live, claims the line, and has no live certificate when
      the disposition goes through. */
  lemma TakenWereLive(bills: seq<Bill>, t: Target, evidence: real, i: nat)
    requires forall k :: 0 <= k < |bills| ==> VersionsOk(bills[k])
    requires Listed(Taken(bills, t, evidence), i)
    ensures i < |bills| && ClaimsOf(bills[i], t)
    ensures Disposed(bills, t, evidence).Some? ==> !PastCertification(bills[i].status)
  {
    LiveClaimsExact(bills, t);
    var taken := Taken(bills, t, evidence);
    var k :| 0 <= k < |taken| && taken[k].bill == i;
    assert taken[k] in taken && taken[k] in LiveClaims(bills, t);
  }
}
