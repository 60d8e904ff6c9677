/** What a restatement writes, row by row, and what each row of the withholding ledger still holds. */
module RestatedRows {
  import opened Sums
  import opened Withholding

  /** A deduction holds its amount until releases name it; a release takes from the deduction it names. */
  lemma RowsHold(l: Ledger, row: Deduction, r: Release, x: Id)
    requires RowsOk(l) && x <= |l.deductions|
    ensures Outstanding(WithDeduction(l, row), x) == if x < |l.deductions| then Outstanding(l, x) else row.amount
    ensures x < |l.deductions| ==>
              Outstanding(WithRelease(l, r), x) == Outstanding(l, x) - if r.deduction == x then r.amount else 0.0
  {
    if x == |l.deductions| {
      SumZero(l.releases, ReleasedFrom(x));
    }
    SumAppend(l.releases, [r], ReleasedFrom(x));
    SumOne(r, ReleasedFrom(x));
  }

  // ── the copied rows ──────────────────────────────────────────────────────────────────────────

  /** Row `e` of `now` re-states one of the first `n` rows of `l` on certificate `prior`: the same amount,
      on `next`, still holding what that row holds. */
  predicate StatesAgain(l: Ledger, now: Ledger, prior: Id, next: Id, n: nat, e: Id)
    requires n <= |l.deductions| && e < |now.deductions|
  {
    var d := now.deductions[e].restates;
    && d.Some? && d.value < n && l.deductions[d.value].certificate == prior
    && now.deductions[e] == Deduction(next, l.deductions[d.value].amount, d)
    && Outstanding(now, e) == Outstanding(l, d.value)
  }

  predicate IsRestated(l: Ledger, now: Ledger, d: Id) {
    exists e :: |l.deductions| <= e < |now.deductions| && now.deductions[e].restates == Some(d)
  }

  /** Release `q` of `now` re-states one of the releases given, for the same amount. */
  predicate ReleasesAgain(given: seq<Release>, now: Ledger, q: nat)
    requires q < |now.releases|
  {
    var r := now.releases[q].restates;
    r.Some? && r.value < |given| && now.releases[q].amount == given[r.value].amount
  }

  /** The first `n` rows of `prior` are on `next` again, each once, and nothing else is new. */
  ghost predicate RowByRow(l: Ledger, now: Ledger, prior: Id, next: Id, n: nat) {
    && n <= |l.deductions| && l.deductions <= now.deductions && l.releases <= now.releases
    && (forall e :: |l.deductions| <= e < |now.deductions| ==> StatesAgain(l, now, prior, next, n, e))
    && (forall d :: 0 <= d < n && l.deductions[d].certificate == prior ==> IsRestated(l, now, d))
    && (forall q :: |l.releases| <= q < |now.releases| ==> ReleasesAgain(l.releases, now, q))
    && (forall d :: 0 <= d < |l.deductions| ==> Outstanding(now, d) == Outstanding(l, d))
  }

  lemma {:induction false} ReleasesCopiedHold(l: Ledger, given: seq<Release>, d: Id, id: Id, m: nat, x: Id)
    requires RowsOk(l) && m <= |given| <= |l.releases| && given <= l.releases
    requires id < |l.deductions| && x < |l.deductions|
    ensures WithReleasesOf(l, given, d, id, m).deductions == l.deductions
    ensures Outstanding(WithReleasesOf(l, given, d, id, m), x) ==
            Outstanding(l, x) - if x == id then Sum(given[..m], ReleasedFrom(d)) else 0.0
  {
    CopiedReleasesOk(l, given, d, id, m);
    if m > 0 {
      ReleasesCopiedHold(l, given, d, id, m - 1, x);
      CopiedReleasesOk(l, given, d, id, m - 1);
      SumStep(given, m - 1, ReleasedFrom(d));
      var before := WithReleasesOf(l, given, d, id, m - 1);
      if given[m - 1].deduction == d {
        RowsHold(before, Deduction(0, 1.0, None), Release(id, given[m - 1].amount, Some(m - 1)), x);
      }
    }
  }

  lemma {:induction false} ReleasesCopiedAgain(l: Ledger, given: seq<Release>, d: Id, id: Id, m: nat)
    requires m <= |given|
    ensures l.releases <= WithReleasesOf(l, given, d, id, m).releases
    ensures forall q :: |l.releases| <= q < |WithReleasesOf(l, given, d, id, m).releases| ==>
              ReleasesAgain(given, WithReleasesOf(l, given, d, id, m), q)
  {
    if m > 0 {
      ReleasesCopiedAgain(l, given, d, id, m - 1);
      var before, now := WithReleasesOf(l, given, d, id, m - 1), WithReleasesOf(l, given, d, id, m);
      forall q | |l.releases| <= q < |now.releases|
        ensures ReleasesAgain(given, now, q)
      {
        if q < |before.releases| {
          assert ReleasesAgain(given, before, q) && now.releases[q] == before.releases[q];
        }
      }
    }
  }

  /** The copied deduction, before its releases follow it. */
  lemma DeductionStatedAgain(l: Ledger, now: Ledger, prior: Id, next: Id, n: nat, mid: Ledger, after: Ledger)
    requires RowsOk(l) && RowsOk(now) && n < |l.deductions| && RowByRow(l, now, prior, next, n)
    requires l.deductions[n].certificate == prior
    requires mid == WithDeduction(now, Deduction(next, l.deductions[n].amount, Some(n)))
    requires RowsOk(mid) && after == WithReleasesOf(mid, l.releases, n, |now.deductions|, |l.releases|)
    ensures after.deductions == mid.deductions && now.releases <= after.releases
    ensures forall x :: 0 <= x < |now.deductions| ==> Outstanding(after, x) == Outstanding(now, x)
    ensures Outstanding(after, |now.deductions|) == Outstanding(l, n)
  {
    var id, row := |now.deductions|, Deduction(next, l.deductions[n].amount, Some(n));
    assert l.releases[..|l.releases|] == l.releases;
    ReleasesCopiedAgain(mid, l.releases, n, id, |l.releases|);
    ReleasesCopiedHold(mid, l.releases, n, id, |l.releases|, id);
    RowsHold(now, row, Release(0, 1.0, None), id);
    forall x | 0 <= x < |now.deductions|
      ensures Outstanding(after, x) == Outstanding(now, x)
    {
      ReleasesCopiedHold(mid, l.releases, n, id, |l.releases|, x);
      RowsHold(now, row, Release(0, 1.0, None), x);
    }
  }

  lemma RowStatedAgain(l: Ledger, now: Ledger, prior: Id, next: Id, n: nat, mid: Ledger, after: Ledger)
    requires RowsOk(l) && RowsOk(now) && n < |l.deductions| && RowByRow(l, now, prior, next, n)
    requires l.deductions[n].certificate == prior
    requires mid == WithDeduction(now, Deduction(next, l.deductions[n].amount, Some(n)))
    requires RowsOk(mid) && after == WithReleasesOf(mid, l.releases, n, |now.deductions|, |l.releases|)
    ensures RowByRow(l, after, prior, next, n + 1)
  {
    DeductionStatedAgain(l, now, prior, next, n, mid, after);
    ReleasesCopiedAgain(mid, l.releases, n, |now.deductions|, |l.releases|);
    var m := n + 1;
    forall e | |l.deductions| <= e < |after.deductions|
      ensures StatesAgain(l, after, prior, next, m, e)
    {
      assert e < |now.deductions| ==> StatesAgain(l, now, prior, next, n, e);
    }
    forall d | 0 <= d < n + 1 && l.deductions[d].certificate == prior
      ensures IsRestated(l, after, d)
    {
      if d < n {
        assert IsRestated(l, now, d);
        var e :| |l.deductions| <= e < |now.deductions| && now.deductions[e].restates == Some(d);
        assert after.deductions[e].restates == Some(d);
      } else {
        assert after.deductions[|now.deductions|].restates == Some(n);
      }
    }
    forall q | |l.releases| <= q < |after.releases|
      ensures ReleasesAgain(l.releases, after, q)
    {
      if q < |now.releases| {
        assert ReleasesAgain(l.releases, now, q) && after.releases[q] == now.releases[q];
      }
    }
  }

  lemma {:induction false} RestatedSoFar(l: Ledger, prior: Id, next: Id, n: nat)
    requires RowsOk(l) && CarriedOk(l) && n <= |l.deductions|
    requires forall i :: 0 <= i < |l.deductions| ==> l.deductions[i].certificate < next
    requires prior + 1 == next < |l.certificates|
    ensures RowByRow(l, Restated(l, l.deductions, l.releases, prior, next, n), prior, next, n)
  {
    if n > 0 {
      RestatedSoFar(l, prior, next, n - 1);
      RestatedOk(l, prior, next, n - 1);
      var before := Restated(l, l.deductions, l.releases, prior, next, n - 1);
      if l.deductions[n - 1].certificate == prior {
        var row := Deduction(next, l.deductions[n - 1].amount, Some(n - 1));
        DeductionCounts(before, row, next);
        RowStatedAgain(l, before, prior, next, n - 1, WithDeduction(before, row),
            WithCopy(before, l.deductions, l.releases, n - 1, next));
      } else {
        OneRowFurther(l, before, prior, next, n - 1);
      }
    }
  }

  lemma OneRowFurther(l: Ledger, now: Ledger, prior: Id, next: Id, n: nat)
    requires n < |l.deductions| && RowByRow(l, now, prior, next, n) && l.deductions[n].certificate != prior
    ensures RowByRow(l, now, prior, next, n + 1)
  {
    var m := n + 1;
    forall e | |l.deductions| <= e < |now.deductions|
      ensures StatesAgain(l, now, prior, next, m, e)
    {
      assert StatesAgain(l, now, prior, next, n, e);
    }
  }

  /** A REPLACEMENT RE-STATES ROW BY ROW. Each deduction of the last certificate is on the new one again,
      for the same amount and still holding the same; each release of it again; and nothing else. */
  lemma ReplacementRowByRow(l: Ledger, amount: real)
    requires Sound(l) && !IsLive(l) && amount >= 0.0 && Carried(l) <= amount && |l.certificates| > 0
    ensures RowByRow(l, Replaced(l, amount), |l.certificates| - 1, |l.certificates|, |l.deductions|)
  {
    var prior, n, all := |l.certificates| - 1, |l.certificates|, |l.deductions|;
    var begun := l.(certificates := l.certificates + [Certificate(amount, false)]);
    OpenedOk(l, amount);
    RestatedSoFar(begun, prior, n, all);
    var now := Replaced(l, amount);
    assert forall d :: 0 <= d < |l.deductions| ==> Outstanding(begun, d) == Outstanding(l, d);
    forall e | |l.deductions| <= e < |now.deductions|
      ensures StatesAgain(l, now, prior, n, all, e)
    {
      assert StatesAgain(begun, now, prior, n, all, e);
    }
    forall d | 0 <= d < |l.deductions| && l.deductions[d].certificate == prior
      ensures IsRestated(l, now, d)
    {
      assert IsRestated(begun, now, d);
    }
  }

  // ── what each row holds, in every run ────────────────────────────────────────────────────────

  /** No more is ever released of a deduction than was deducted. */
  predicate Held(l: Ledger) { forall d :: 0 <= d < |l.deductions| ==> Outstanding(l, d) >= 0.0 }

  lemma ActKeepsHeld(l: Ledger, act: Act)
    requires Sound(l) && Held(l)
    ensures Held(After(l, act))
  {
    if Admits(l, act) {
      var now := After(l, act);
      if act.Certifies? && |l.certificates| > 0 {
        ReplacementRowByRow(l, act.amount);
        forall e | 0 <= e < |now.deductions|
          ensures Outstanding(now, e) >= 0.0
        {
          assert e >= |l.deductions| ==> StatesAgain(l, now, |l.certificates| - 1, |l.certificates|, |l.deductions|, e);
        }
      } else {
        forall x | 0 <= x < |now.deductions|
          ensures Outstanding(now, x) >= 0.0
        {
          var row := if act.Records? then Deduction(Latest(l), act.amount, None) else Deduction(0, 1.0, None);
          var r := if act.Releases? then Release(act.deduction, act.amount, None) else Release(0, 1.0, None);
          RowsHold(l, row, r, x);
        }
      }
    }
  }

  lemma {:induction false} WithheldBeforeHolds(l: Ledger, certificate: Id, n: nat, d: Id)
    requires Held(l) && n <= |l.deductions|
    ensures WithheldBefore(l.deductions, l.releases, certificate, n) >= 0.0
    ensures d < n && l.deductions[d].certificate == certificate ==>
              WithheldBefore(l.deductions, l.releases, certificate, n) >= Outstanding(l, d)
  {
    if n == 0 {
      SumZero(l.releases, ReleasedBefore(l.deductions, certificate, 0));
    } else {
      WithheldBeforeHolds(l, certificate, n - 1, d);
      WithheldStep(l.deductions, l.releases, certificate, n - 1);
      assert Outstanding(l, n - 1) >= 0.0;
    }
  }

  /** A row holds no more than its certificate withholds. */
  lemma RowWithinCertificate(l: Ledger, d: Id)
    requires RowsOk(l) && Held(l) && d < |l.deductions|
    ensures Outstanding(l, d) <= Withheld(l, l.deductions[d].certificate)
  {
    var certificate := l.deductions[d].certificate;
    WithheldBeforeHolds(l, certificate, |l.deductions|, d);
    assert l.deductions[..|l.deductions|] == l.deductions;
    SumSame(l.releases, ReleasedBefore(l.deductions, certificate, |l.deductions|),
        ReleasedOn(l.deductions, certificate));
  }

  // ── what each certificate withholds ──────────────────────────────────────────────────────────

  lemma OthersKeepWithheld(l: Ledger, now: Ledger, next: Id, certificate: Id)
    requires RowsOk(l) && certificate != next && l.deductions <= now.deductions && l.releases <= now.releases
    requires forall e :: |l.deductions| <= e < |now.deductions| ==> now.deductions[e].certificate == next
    requires forall q :: |l.releases| <= q < |now.releases| ==> now.releases[q].deduction >= |l.deductions|
    ensures Withheld(now, certificate) == Withheld(l, certificate)
  {
    var ds, rs := now.deductions[|l.deductions|..], now.releases[|l.releases|..];
    assert now.deductions == l.deductions + ds && now.releases == l.releases + rs;
    SumAppend(l.deductions, ds, DeductedOn(certificate));
    SumZero(ds, DeductedOn(certificate));
    SumAppend(l.releases, rs, ReleasedOn(now.deductions, certificate));
    SumZero(rs, ReleasedOn(now.deductions, certificate));
    SumSame(l.releases, ReleasedOn(now.deductions, certificate), ReleasedOn(l.deductions, certificate));
  }

  /** A replacement leaves what every earlier certificate withholds as it was. */
  lemma ReplacementKeepsOthers(l: Ledger, amount: real, certificate: Id)
    requires Sound(l) && !IsLive(l) && amount >= 0.0 && Carried(l) <= amount && certificate < |l.certificates|
    ensures Withheld(Replaced(l, amount), certificate) == Withheld(l, certificate)
  {
    var n := |l.certificates|;
    var begun := l.(certificates := l.certificates + [Certificate(amount, false)]);
    OpenedOk(l, amount);
    RestatementConserves(begun, n - 1, n);
    OthersKeepWithheld(begun, Replaced(l, amount), n, certificate);
    assert Withheld(begun, certificate) == Withheld(l, certificate);
  }
}
