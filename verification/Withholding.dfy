/** The withholding ledger of one bill over any number of corrected certificates. Rows are
    append-only and a row's id is its place; a carried row names the row it re-states. */
module Withholding {
  import opened Sums

  type Id = nat

  datatype Certificate = Certificate(amount: real, superseded: bool)

  datatype Deduction = Deduction(certificate: Id, amount: real, restates: Option<Id>)

  datatype Release = Release(deduction: Id, amount: real, restates: Option<Id>)

  datatype Ledger = Ledger(certificates: seq<Certificate>, deductions: seq<Deduction>, releases: seq<Release>)

  // ── the folds ────────────────────────────────────────────────────────────────────────────────

  function DeductedOn(certificate: Id): Deduction -> real {
    (d: Deduction) => if d.certificate == certificate then d.amount else 0.0
  }

  function CertificateOf(deductions: seq<Deduction>, r: Release): Option<Id> {
    if r.deduction < |deductions| then Some(deductions[r.deduction].certificate) else None
  }

  function ReleasedOn(deductions: seq<Deduction>, certificate: Id): Release -> real {
    (r: Release) => if CertificateOf(deductions, r) == Some(certificate) then r.amount else 0.0
  }

  /** WITHHELD(certificate): its deductions less their releases. */
  function Withheld(l: Ledger, certificate: Id): real {
    Sum(l.deductions, DeductedOn(certificate)) - Sum(l.releases, ReleasedOn(l.deductions, certificate))
  }

  function ReleasedFrom(deduction: Id): Release -> real {
    (r: Release) => if r.deduction == deduction then r.amount else 0.0
  }

  /** What one deduction still holds. */
  function Outstanding(l: Ledger, deduction: Id): real
    requires deduction < |l.deductions|
  {
    l.deductions[deduction].amount - Sum(l.releases, ReleasedFrom(deduction))
  }

  function FirstDeducted(): Deduction -> real {
    (d: Deduction) => if d.restates.None? then d.amount else 0.0
  }

  function FirstReleased(): Release -> real {
    (r: Release) => if r.restates.None? then r.amount else 0.0
  }

  /** Everything ever recorded on the bill, less everything ever released: carried rows are the same
      money again and count for nothing. */
  function Standing(l: Ledger): real { Sum(l.deductions, FirstDeducted()) - Sum(l.releases, FirstReleased()) }

  function Latest(l: Ledger): Id
    requires |l.certificates| > 0
  {
    |l.certificates| - 1
  }

  // ── the invariants ───────────────────────────────────────────────────────────────────────────

  predicate RowsOk(l: Ledger) {
    && (forall i :: 0 <= i < |l.deductions| ==>
        l.deductions[i].certificate < |l.certificates| && l.deductions[i].amount > 0.0)
    && (forall i :: 0 <= i < |l.releases| ==> l.releases[i].deduction < |l.deductions| && l.releases[i].amount > 0.0)
    && (forall i :: 0 <= i < |l.certificates| - 1 ==> l.certificates[i].superseded)
  }

  /** A carried deduction re-states one of the certificate before its own. */
  predicate CarriesDeduction(ds: seq<Deduction>, i: nat)
    requires i < |ds|
  {
    ds[i].restates.Some? ==> ds[i].restates.value < i && ds[ds[i].restates.value].certificate + 1 == ds[i].certificate
  }

  /** One certificate's carried deductions keep their sources' order. */
  predicate KeepsOrder(ds: seq<Deduction>, i: nat, j: nat)
    requires i < j < |ds|
  {
    ds[i].certificate == ds[j].certificate && ds[i].restates.Some? && ds[j].restates.Some? ==>
      ds[i].restates.value < ds[j].restates.value
  }

  /** A carried release re-states a release of the deduction its own deduction re-states. */
  predicate CarriesRelease(ds: seq<Deduction>, rs: seq<Release>, i: nat)
    requires i < |rs|
  {
    rs[i].restates.Some? ==>
      && rs[i].restates.value < i && rs[i].deduction < |ds|
      && ds[rs[i].deduction].restates == Some(rs[rs[i].restates.value].deduction)
  }

  predicate KeepsReleaseOrder(rs: seq<Release>, i: nat, j: nat)
    requires i < j < |rs|
  {
    rs[i].deduction == rs[j].deduction && rs[i].restates.Some? && rs[j].restates.Some? ==>
      rs[i].restates.value < rs[j].restates.value
  }

  predicate CarriedOk(l: Ledger) {
    && (forall i :: 0 <= i < |l.deductions| ==> CarriesDeduction(l.deductions, i))
    && (forall i, j :: 0 <= i < j < |l.deductions| ==> KeepsOrder(l.deductions, i, j))
    && (forall i :: 0 <= i < |l.releases| ==> CarriesRelease(l.deductions, l.releases, i))
    && (forall i, j :: 0 <= i < j < |l.releases| ==> KeepsReleaseOrder(l.releases, i, j))
  }

  lemma DeductionsRestatedOnce(l: Ledger, i: nat, j: nat)
    requires CarriedOk(l) && i < j < |l.deductions| && l.deductions[i].restates.Some?
    ensures l.deductions[i].restates != l.deductions[j].restates
  {
    assert CarriesDeduction(l.deductions, i) && CarriesDeduction(l.deductions, j) && KeepsOrder(l.deductions, i, j);
  }

  /** EACH SOURCE ROW IS RE-STATED AT MOST ONCE, over any number of corrections. */
  lemma RestatedAtMostOnce(l: Ledger)
    requires RowsOk(l) && CarriedOk(l)
    ensures forall i, j :: 0 <= i < j < |l.deductions| && l.deductions[i].restates.Some? ==>
              l.deductions[i].restates != l.deductions[j].restates
    ensures forall i, j :: 0 <= i < j < |l.releases| && l.releases[i].restates.Some? ==>
              l.releases[i].restates != l.releases[j].restates
  {
    forall i, j | 0 <= i < j < |l.deductions| && l.deductions[i].restates.Some?
      ensures l.deductions[i].restates != l.deductions[j].restates
    {
      DeductionsRestatedOnce(l, i, j);
    }
    forall i, j | 0 <= i < j < |l.releases| && l.releases[i].restates.Some?
      ensures l.releases[i].restates != l.releases[j].restates
    {
      var a, b := l.releases[i].deduction, l.releases[j].deduction;
      assert CarriesRelease(l.deductions, l.releases, i) && CarriesRelease(l.deductions, l.releases, j);
      assert KeepsReleaseOrder(l.releases, i, j);
      if a < b {
        DeductionsRestatedOnce(l, a, b);
      } else if b < a && l.releases[j].restates.Some? {
        DeductionsRestatedOnce(l, b, a);
      }
    }
  }

  /** What the latest certificate withholds: what a replacement will carry. */
  function Carried(l: Ledger): real { if |l.certificates| == 0 then 0.0 else Withheld(l, Latest(l)) }

  /** It never withholds more than it certified, and there is nothing to withhold from before it. */
  predicate WithinCertified(l: Ledger) {
    if |l.certificates| == 0 then l.deductions == [] && l.releases == []
    else Carried(l) <= l.certificates[Latest(l)].amount
  }

  /** What every act of the service keeps. */
  ghost predicate Sound(l: Ledger) { RowsOk(l) && CarriedOk(l) && WithinCertified(l) }

  /** What the latest certificate withholds beyond what stands. */
  function Excess(l: Ledger): real { Carried(l) - Standing(l) }

  /** A sound ledger whose latest certificate withholds exactly what stands. */
  ghost predicate Valid(l: Ledger) { Sound(l) && Excess(l) == 0.0 }

  // ── one new row ──────────────────────────────────────────────────────────────────────────────

  function WithDeduction(l: Ledger, d: Deduction): Ledger { l.(deductions := l.deductions + [d]) }

  function WithRelease(l: Ledger, r: Release): Ledger { l.(releases := l.releases + [r]) }

  lemma DeductionCounts(l: Ledger, d: Deduction, certificate: Id)
    requires RowsOk(l) && d.certificate < |l.certificates| && d.amount > 0.0
    ensures RowsOk(WithDeduction(l, d))
    ensures Withheld(WithDeduction(l, d), certificate) == Withheld(l, certificate) + if d.certificate == certificate
                                                                                     then d.amount
                                                                                     else 0.0
    ensures Standing(WithDeduction(l, d)) == Standing(l) + if d.restates.None? then d.amount else 0.0
  {
    SumAppend(l.deductions, [d], DeductedOn(certificate));
    SumOne(d, DeductedOn(certificate));
    SumAppend(l.deductions, [d], FirstDeducted());
    SumOne(d, FirstDeducted());
    SumSame(l.releases, ReleasedOn(l.deductions, certificate), ReleasedOn(l.deductions + [d], certificate));
  }

  lemma ReleaseCounts(l: Ledger, r: Release, certificate: Id)
    requires RowsOk(l) && r.deduction < |l.deductions| && r.amount > 0.0
    ensures RowsOk(WithRelease(l, r))
    ensures Withheld(WithRelease(l, r), certificate) ==
            Withheld(l, certificate) - if l.deductions[r.deduction].certificate == certificate then r.amount else 0.0
    ensures Standing(WithRelease(l, r)) == Standing(l) - if r.restates.None? then r.amount else 0.0
  {
    SumAppend(l.releases, [r], ReleasedOn(l.deductions, certificate));
    SumOne(r, ReleasedOn(l.deductions, certificate));
    SumAppend(l.releases, [r], FirstReleased());
    SumOne(r, FirstReleased());
  }

  lemma DeductionCarries(l: Ledger, d: Deduction)
    requires CarriedOk(l)
    requires d.restates.Some? ==>
               d.restates.value < |l.deductions| && l.deductions[d.restates.value].certificate + 1 == d.certificate
    requires d.restates.Some? ==> forall i ::
               0 <= i < |l.deductions| && l.deductions[i].certificate == d.certificate ==>
               l.deductions[i].restates.Some? ==> l.deductions[i].restates.value < d.restates.value
    ensures CarriedOk(WithDeduction(l, d))
  {
    var now := WithDeduction(l, d);
    forall i | 0 <= i < |now.deductions|
      ensures CarriesDeduction(now.deductions, i)
    {
      assert i < |l.deductions| ==> CarriesDeduction(l.deductions, i);
    }
    forall i, j | 0 <= i < j < |now.deductions|
      ensures KeepsOrder(now.deductions, i, j)
    {
      assert j < |l.deductions| ==> KeepsOrder(l.deductions, i, j);
    }
    forall i | 0 <= i < |now.releases|
      ensures CarriesRelease(now.deductions, now.releases, i)
    {
      assert CarriesRelease(l.deductions, l.releases, i);
    }
    forall i, j | 0 <= i < j < |now.releases|
      ensures KeepsReleaseOrder(now.releases, i, j)
    {
      assert KeepsReleaseOrder(l.releases, i, j);
    }
  }

  lemma ReleaseCarries(l: Ledger, r: Release)
    requires CarriedOk(l) && r.deduction < |l.deductions|
    requires r.restates.Some? ==>
               r.restates.value < |l.releases| &&
                   l.deductions[r.deduction].restates == Some(l.releases[r.restates.value].deduction)
    requires r.restates.Some? ==> forall i ::
               0 <= i < |l.releases| && l.releases[i].deduction == r.deduction && l.releases[i].restates.Some? ==>
               l.releases[i].restates.value < r.restates.value
    ensures CarriedOk(WithRelease(l, r))
  {
    var now := WithRelease(l, r);
    forall i | 0 <= i < |now.deductions|
      ensures CarriesDeduction(now.deductions, i)
    {
      assert CarriesDeduction(l.deductions, i);
    }
    forall i, j | 0 <= i < j < |now.deductions|
      ensures KeepsOrder(now.deductions, i, j)
    {
      assert KeepsOrder(l.deductions, i, j);
    }
    forall i | 0 <= i < |now.releases|
      ensures CarriesRelease(now.deductions, now.releases, i)
    {
      assert i < |l.releases| ==> CarriesRelease(l.deductions, l.releases, i);
    }
    forall i, j | 0 <= i < j < |now.releases|
      ensures KeepsReleaseOrder(now.releases, i, j)
    {
      assert j < |l.releases| ==> KeepsReleaseOrder(l.releases, i, j);
    }
  }

  /** A release keeps the ledger sound wherever it is taken, and its balance exactly when it is taken
      from a deduction of the latest certificate. The service asks only what that deduction has left,
      so a release against a row already carried forward is accepted and leaves the live certificate
      withholding that much money that was given back. */
  lemma ReleaseConservesExactly(l: Ledger, r: Release)
    requires Sound(l) && |l.certificates| > 0
    requires r.deduction < |l.deductions| && 0.0 < r.amount && r.restates.None?
    ensures Sound(WithRelease(l, r))
    ensures Excess(WithRelease(l, r)) == Excess(l) + if l.deductions[r.deduction].certificate == Latest(l) then 0.0
                                                     else r.amount
    ensures Valid(l) ==> (Valid(WithRelease(l, r)) <==> l.deductions[r.deduction].certificate == Latest(l))
  {
    ReleaseCounts(l, r, Latest(l));
    ReleaseCarries(l, r);
  }

  /** A withholding of 10 carried onto a second certificate, then released on the first. */
  const CARRIED_TEN :=
    Ledger([Certificate(100.0, true), Certificate(100.0, false)],
        [Deduction(0, 10.0, None), Deduction(1, 10.0, Some(0))], [])

  lemma SumOfTwo<T>(a: T, b: T, f: T -> real)
    ensures Sum([a, b], f) == f(a) + f(b)
  {
    SumAppend([a], [b], f);
    SumOne(a, f);
    SumOne(b, f);
    assert [a] + [b] == [a, b];
  }

  lemma ReleaseOfHistoryBreaksIt()
    ensures Valid(CARRIED_TEN) && Outstanding(CARRIED_TEN, 0) == 10.0
    ensures Standing(WithRelease(CARRIED_TEN, Release(0, 10.0, None))) == 0.0
    ensures Withheld(WithRelease(CARRIED_TEN, Release(0, 10.0, None)), 1) == 10.0
  {
    var a, b := CARRIED_TEN.deductions[0], CARRIED_TEN.deductions[1];
    assert CARRIED_TEN.deductions == [a, b];
    SumOfTwo(a, b, DeductedOn(1));
    SumOfTwo(a, b, FirstDeducted());
    ReleaseCounts(CARRIED_TEN, Release(0, 10.0, None), 1);
    assert CarriesDeduction(CARRIED_TEN.deductions, 0) && CarriesDeduction(CARRIED_TEN.deductions, 1);
  }

  // ── carrying a certificate's rows onto its replacement ───────────────────────────────────────

  /** The releases of deduction `d` among the first `m` given, copied onto deduction `id`. */
  function WithReleasesOf(l: Ledger, given: seq<Release>, d: Id, id: Id, m: nat): Ledger
    requires m <= |given|
  {
    if m == 0 then l else
    var before := WithReleasesOf(l, given, d, id, m - 1);
    if given[m - 1].deduction == d then WithRelease(before, Release(id, given[m - 1].amount, Some(m - 1))) else before
  }

  /** `d` and its releases, copied onto `next`. */
  function WithCopy(l: Ledger, rows: seq<Deduction>, given: seq<Release>, d: Id, next: Id): Ledger
    requires d < |rows|
  {
    WithReleasesOf(WithDeduction(l, Deduction(next, rows[d].amount, Some(d))), given, d, |l.deductions|, |given|)
  }

  /** The first `n` rows of `prior`, copied in order. */
  function Restated(l: Ledger, rows: seq<Deduction>, given: seq<Release>, prior: Id, next: Id, n: nat): Ledger
    requires n <= |rows|
  {
    if n == 0 then l else
    var before := Restated(l, rows, given, prior, next, n - 1);
    if rows[n - 1].certificate == prior then WithCopy(before, rows, given, n - 1, next) else before
  }

  /** Every release beyond the first `m` is a copy that sits on a deduction at or past `n`. */
  predicate CopiesAfter(l: Ledger, m: nat, n: nat) {
    forall i :: m <= i < |l.releases| ==> l.releases[i].deduction >= n && l.releases[i].restates.Some?
  }

  /** A copy of one deduction's releases leaves the deductions and certificates alone and adds rows
      that re-state, on the copied deduction, releases given before the `m`-th. */
  predicate CopiedReleases(l: Ledger, now: Ledger, id: Id, m: nat) {
    && now.certificates == l.certificates && now.deductions == l.deductions && l.releases <= now.releases
    && (forall i :: |l.releases| <= i < |now.releases| ==>
          now.releases[i].deduction == id && now.releases[i].restates.Some? && now.releases[i].restates.value < m)
  }

  lemma {:induction false} ReleasesCopied(l: Ledger, given: seq<Release>, d: Id, id: Id, m: nat)
    requires m <= |given|
    ensures CopiedReleases(l, WithReleasesOf(l, given, d, id, m), id, m)
  {
    if m > 0 {
      ReleasesCopied(l, given, d, id, m - 1);
    }
  }

  lemma {:induction false} CopiedReleasesCarry(l: Ledger, given: seq<Release>, d: Id, id: Id, m: nat)
    requires CarriedOk(l) && m <= |given| && given <= l.releases
    requires id < |l.deductions| && l.deductions[id].restates == Some(d)
    requires forall i :: 0 <= i < |l.releases| ==> l.releases[i].deduction != id
    ensures CarriedOk(WithReleasesOf(l, given, d, id, m))
  {
    if m > 0 {
      var before := WithReleasesOf(l, given, d, id, m - 1);
      CopiedReleasesCarry(l, given, d, id, m - 1);
      ReleasesCopied(l, given, d, id, m - 1);
      if given[m - 1].deduction == d {
        assert before.releases[m - 1] == l.releases[m - 1] == given[m - 1];
        ReleaseCarries(before, Release(id, given[m - 1].amount, Some(m - 1)));
      }
    }
  }

  lemma {:induction false} CopiedReleasesOk(l: Ledger, given: seq<Release>, d: Id, id: Id, m: nat)
    requires RowsOk(l) && m <= |given| && given <= l.releases && id < |l.deductions|
    ensures RowsOk(WithReleasesOf(l, given, d, id, m))
    ensures WithReleasesOf(l, given, d, id, m).deductions == l.deductions
  {
    if m > 0 {
      CopiedReleasesOk(l, given, d, id, m - 1);
      assert given[m - 1] == l.releases[m - 1];
    }
  }

  lemma {:induction false} CopiedReleasesCount(l: Ledger, given: seq<Release>, d: Id, id: Id, m: nat)
    requires RowsOk(l) && m <= |given| && given <= l.releases && id < |l.deductions|
    ensures Standing(WithReleasesOf(l, given, d, id, m)) == Standing(l)
    ensures Withheld(WithReleasesOf(l, given, d, id, m), l.deductions[id].certificate) ==
            Withheld(l, l.deductions[id].certificate) - Sum(given[..m], ReleasedFrom(d))
  {
    if m > 0 {
      CopiedReleasesCount(l, given, d, id, m - 1);
      CopiedReleasesOk(l, given, d, id, m - 1);
      SumStep(given, m - 1, ReleasedFrom(d));
      if given[m - 1].deduction == d {
        assert given[m - 1] == l.releases[m - 1];
        ReleaseCounts(WithReleasesOf(l, given, d, id, m - 1), Release(id, given[m - 1].amount, Some(m - 1)),
            l.deductions[id].certificate);
      }
    }
  }

  /** The part of a certificate's releases on deductions before the `n`-th. */
  function ReleasedBefore(rows: seq<Deduction>, certificate: Id, n: nat): Release -> real {
    (r: Release) => if r.deduction < n && CertificateOf(rows, r) == Some(certificate) then r.amount else 0.0
  }

  /** What the first `n` rows of a certificate withhold. */
  function WithheldBefore(rows: seq<Deduction>, given: seq<Release>, certificate: Id, n: nat): real
    requires n <= |rows|
  {
    Sum(rows[..n], DeductedOn(certificate)) - Sum(given, ReleasedBefore(rows, certificate, n))
  }

  lemma WithheldStep(rows: seq<Deduction>, given: seq<Release>, certificate: Id, n: nat)
    requires n < |rows|
    ensures WithheldBefore(rows, given, certificate, n + 1) == WithheldBefore(rows, given, certificate, n) +
            if rows[n].certificate == certificate then rows[n].amount - Sum(given, ReleasedFrom(n)) else 0.0
  {
    SumStep(rows, n, DeductedOn(certificate));
    if rows[n].certificate == certificate {
      SumSplit(given, ReleasedBefore(rows, certificate, n), ReleasedFrom(n), ReleasedBefore(rows, certificate, n + 1));
    } else {
      SumSame(given, ReleasedBefore(rows, certificate, n), ReleasedBefore(rows, certificate, n + 1));
    }
  }

  /** What a part-way copy keeps: the rows it started from, and the copies after them. */
  ghost predicate CopyingRows(l: Ledger, now: Ledger, next: Id, n: nat) {
    && now.certificates == l.certificates && l.deductions <= now.deductions && l.releases <= now.releases
    && RowsOk(now) && CarriedOk(now) && CopiesAfter(now, |l.releases|, |l.deductions|)
    && (forall i :: |l.deductions| <= i < |now.deductions| ==>
          now.deductions[i].certificate == next && now.deductions[i].restates.Some? &&
              now.deductions[i].restates.value < n)
  }

  /** And the money: nothing recorded or released, and the rows copied so far withheld anew. */
  ghost predicate Copying(l: Ledger, now: Ledger, prior: Id, next: Id, n: nat)
    requires n <= |l.deductions|
  {
    && CopyingRows(l, now, next, n)
    && Standing(now) == Standing(l)
    && Withheld(now, next) == WithheldBefore(l.deductions, l.releases, prior, n)
  }

  /** The copied deduction takes its place. */
  lemma CopiedDeduction(l: Ledger, now: Ledger, prior: Id, next: Id, n: nat)
    requires RowsOk(l) && n < |l.deductions| && CopyingRows(l, now, next, n)
    requires forall i :: 0 <= i < |l.deductions| ==> l.deductions[i].certificate < next
    requires prior + 1 == next < |l.certificates| && l.deductions[n].certificate == prior
    ensures CopyingRows(l, WithDeduction(now, Deduction(next, l.deductions[n].amount, Some(n))), next, n + 1)
    ensures forall i :: 0 <= i < |now.releases| ==> now.releases[i].deduction < |now.deductions|
  {
    var d := Deduction(next, l.deductions[n].amount, Some(n));
    assert now.deductions[n] == l.deductions[n];
    DeductionCounts(now, d, next);
    DeductionCarries(now, d);
  }

  /** Then its releases. */
  lemma CopiedWithReleases(l: Ledger, mid: Ledger, next: Id, n: nat, id: Id)
    requires n < |l.deductions| <= id < |mid.deductions| && CopyingRows(l, mid, next, n + 1)
    requires mid.deductions[id].restates == Some(n) && forall i :: 0 <= i < |mid.releases| ==>
             mid.releases[i].deduction != id
    ensures CopyingRows(l, WithReleasesOf(mid, l.releases, n, id, |l.releases|), next, n + 1)
  {
    ReleasesCopied(mid, l.releases, n, id, |l.releases|);
    CopiedReleasesCarry(mid, l.releases, n, id, |l.releases|);
    CopiedReleasesOk(mid, l.releases, n, id, |l.releases|);
  }

  lemma CopyStep(l: Ledger, now: Ledger, prior: Id, next: Id, n: nat)
    requires RowsOk(l) && n < |l.deductions| && Copying(l, now, prior, next, n)
    requires forall i :: 0 <= i < |l.deductions| ==> l.deductions[i].certificate < next
    requires prior + 1 == next < |l.certificates| && l.deductions[n].certificate == prior
    ensures Copying(l, WithCopy(now, l.deductions, l.releases, n, next), prior, next, n + 1)
  {
    var d := Deduction(next, l.deductions[n].amount, Some(n));
    var mid, id := WithDeduction(now, d), |now.deductions|;
    CopiedDeduction(l, now, prior, next, n);
    CopiedWithReleases(l, mid, next, n, id);
    DeductionCounts(now, d, next);
    assert l.releases[..|l.releases|] == l.releases;
    CopiedReleasesCount(mid, l.releases, n, id, |l.releases|);
    WithheldStep(l.deductions, l.releases, prior, n);
  }

  lemma {:induction false} RestatedOk(l: Ledger, prior: Id, next: Id, n: nat)
    requires RowsOk(l) && CarriedOk(l) && n <= |l.deductions|
    requires forall i :: 0 <= i < |l.deductions| ==> l.deductions[i].certificate < next
    requires prior + 1 == next < |l.certificates|
    ensures Copying(l, Restated(l, l.deductions, l.releases, prior, next, n), prior, next, n)
  {
    if n == 0 {
      SumZero(l.deductions, DeductedOn(next));
      SumZero(l.releases, ReleasedOn(l.deductions, next));
      SumZero(l.releases, ReleasedBefore(l.deductions, prior, 0));
    } else {
      RestatedOk(l, prior, next, n - 1);
      var before := Restated(l, l.deductions, l.releases, prior, next, n - 1);
      if l.deductions[n - 1].certificate == prior {
        CopyStep(l, before, prior, next, n - 1);
      } else {
        WithheldStep(l.deductions, l.releases, prior, n - 1);
      }
    }
  }

  /** CARRYING IS CONSERVATION. The replacement withholds exactly what the certificate it replaces
      still withheld, and nothing is counted as recorded or released a second time. */
  lemma RestatementConserves(l: Ledger, prior: Id, next: Id)
    requires RowsOk(l) && CarriedOk(l) && prior + 1 == next < |l.certificates|
    requires forall i :: 0 <= i < |l.deductions| ==> l.deductions[i].certificate < next
    ensures Copying(l, Restated(l, l.deductions, l.releases, prior, next, |l.deductions|), prior, next, |l.deductions|)
    ensures Withheld(Restated(l, l.deductions, l.releases, prior, next, |l.deductions|), next) == Withheld(l, prior)
  {
    RestatedOk(l, prior, next, |l.deductions|);
    assert l.deductions[..|l.deductions|] == l.deductions;
    SumSame(l.releases, ReleasedBefore(l.deductions, prior, |l.deductions|), ReleasedOn(l.deductions, prior));
  }

  predicate IsLive(l: Ledger) { |l.certificates| > 0 && !l.certificates[|l.certificates| - 1].superseded }

  /** A new certificate, with whatever the last one withheld carried onto it. */
  function Replaced(l: Ledger, amount: real): Ledger {
    var n := |l.certificates|;
    var begun := l.(certificates := l.certificates + [Certificate(amount, false)]);
    if n == 0 then begun else Restated(begun, l.deductions, l.releases, n - 1, n, |l.deductions|)
  }

  lemma OpenedOk(l: Ledger, amount: real)
    requires RowsOk(l) && CarriedOk(l) && !IsLive(l)
    ensures RowsOk(l.(certificates := l.certificates + [Certificate(amount, false)]))
    ensures CarriedOk(l.(certificates := l.certificates + [Certificate(amount, false)]))
  {
  }

  lemma ReplacedOk(l: Ledger, amount: real)
    requires Sound(l) && !IsLive(l) && amount >= 0.0 && Carried(l) <= amount
    ensures Sound(Replaced(l, amount)) && Standing(Replaced(l, amount)) == Standing(l)
    ensures Carried(Replaced(l, amount)) == Carried(l)
    ensures Replaced(l, amount).certificates == l.certificates + [Certificate(amount, false)]
    ensures l.deductions <= Replaced(l, amount).deductions && l.releases <= Replaced(l, amount).releases
  {
    OpenedOk(l, amount);
    if |l.certificates| > 0 {
      var begun := l.(certificates := l.certificates + [Certificate(amount, false)]);
      assert Withheld(begun, |l.certificates| - 1) == Withheld(l, |l.certificates| - 1) &&
          Standing(begun) == Standing(l);
      RestatementConserves(begun, |l.certificates| - 1, |l.certificates|);
    }
  }

  // ── every run ────────────────────────────────────────────────────────────────────────────────

  datatype Act =
    | Records(amount: real)
    | Releases(deduction: Id, amount: real)
    | Supersedes
    | Certifies(amount: real)

  /** What the service asks before each act, and nothing more. */
  predicate Admits(l: Ledger, act: Act) {
    match act
    case Records(amount) => IsLive(l) && 0.0 < amount <= l.certificates[Latest(l)].amount - Carried(l)
    case Releases(deduction, amount) => deduction < |l.deductions| && 0.0 < amount <= Outstanding(l, deduction)
    case Supersedes => IsLive(l)
    case Certifies(amount) => !IsLive(l) && amount >= 0.0 && Carried(l) <= amount
  }

  function Ended(l: Ledger): Ledger
    requires IsLive(l)
  {
    l.(certificates := l.certificates[Latest(l) := l.certificates[Latest(l)].(superseded := true)])
  }

  /** The ledger after an act; a refused one leaves it as it was. */
  function After(l: Ledger, act: Act): Ledger {
    if !Admits(l, act) then l else
    match act
    case Records(amount) => WithDeduction(l, Deduction(Latest(l), amount, None))
    case Releases(deduction, amount) => WithRelease(l, Release(deduction, amount, None))
    case Supersedes => Ended(l)
    case Certifies(amount) => Replaced(l, amount)
  }

  /** A release taken off the certificate that was then the latest. */
  predicate OffLatest(l: Ledger, act: Act) {
    act.Releases? && Admits(l, act) && l.deductions[act.deduction].certificate + 1 != |l.certificates|
  }

  lemma RecordsKeeps(l: Ledger, amount: real)
    requires Sound(l) && Admits(l, Records(amount))
    ensures Sound(After(l, Records(amount))) && Excess(After(l, Records(amount))) == Excess(l)
  {
    var row := Deduction(Latest(l), amount, None);
    DeductionCounts(l, row, Latest(l));
    DeductionCarries(l, row);
  }

  lemma EndedKeeps(l: Ledger)
    requires Sound(l) && IsLive(l)
    ensures Sound(Ended(l)) && Carried(Ended(l)) == Carried(l) && Standing(Ended(l)) == Standing(l)
  {
  }

  lemma ActKeeps(l: Ledger, act: Act)
    requires Sound(l)
    ensures Sound(After(l, act))
    ensures Excess(After(l, act)) == Excess(l) + if OffLatest(l, act) then act.amount else 0.0
  {
    if Admits(l, act) {
      match act
      case Records(amount) => RecordsKeeps(l, amount);
      case Releases(deduction, amount) => ReleaseConservesExactly(l, Release(deduction, amount, None));
      case Supersedes => EndedKeeps(l);
      case Certifies(amount) => ReplacedOk(l, amount);
    }
  }

  const NOTHING_CERTIFIED := Ledger([], [], [])

  /** The ledger of a bill after `acts`. */
  function Run(acts: seq<Act>): Ledger {
    if |acts| == 0 then NOTHING_CERTIFIED else After(Run(acts[..|acts| - 1]), acts[|acts| - 1])
  }

  /** What the run released off the certificate that was then the latest. */
  function ReleasedOff(acts: seq<Act>): real {
    if |acts| == 0 then 0.0 else
    var before, last := acts[..|acts| - 1], acts[|acts| - 1];
    ReleasedOff(before) + if OffLatest(Run(before), last) then last.amount else 0.0
  }

  predicate OffLatestAt(acts: seq<Act>, k: nat)
    requires k < |acts|
  {
    OffLatest(Run(acts[..k]), acts[k])
  }

  /** Some act of the run was such a release. */
  predicate ReleasesHistory(acts: seq<Act>) {
    exists k :: 0 <= k < |acts| && OffLatestAt(acts, k)
  }

  lemma HistoryStep(acts: seq<Act>, before: seq<Act>, n: nat)
    requires |acts| == n + 1 && before == acts[..n]
    ensures ReleasesHistory(acts) <==> ReleasesHistory(before) || OffLatest(Run(before), acts[n])
  {
    forall k | 0 <= k < n
      ensures OffLatestAt(acts, k) <==> OffLatestAt(before, k)
    {
      assert before[..k] == acts[..k];
    }
    assert OffLatestAt(acts, n) <==> OffLatest(Run(before), acts[n]);
    if ReleasesHistory(acts) {
      var k :| 0 <= k < |acts| && OffLatestAt(acts, k);
      assert k < n ==> OffLatestAt(before, k);
    }
    if ReleasesHistory(before) {
      var k :| 0 <= k < n && OffLatestAt(before, k);
      assert OffLatestAt(acts, k);
    }
  }

  lemma {:induction false} ReleasedOffExactly(acts: seq<Act>)
    ensures ReleasedOff(acts) >= 0.0
    ensures ReleasedOff(acts) > 0.0 <==> ReleasesHistory(acts)
  {
    if |acts| > 0 {
      ReleasedOffExactly(acts[..|acts| - 1]);
      HistoryStep(acts, acts[..|acts| - 1], |acts| - 1);
    }
  }

  lemma {:induction false} RunSound(acts: seq<Act>)
    ensures Sound(Run(acts)) && Excess(Run(acts)) == ReleasedOff(acts)
  {
    if |acts| > 0 {
      RunSound(acts[..|acts| - 1]);
      ActKeeps(Run(acts[..|acts| - 1]), acts[|acts| - 1]);
    }
  }

  predicate RestatedOnce(l: Ledger) {
    && (forall i, j :: 0 <= i < j < |l.deductions| && l.deductions[i].restates.Some? ==>
          l.deductions[i].restates != l.deductions[j].restates)
    && (forall i, j :: 0 <= i < j < |l.releases| && l.releases[i].restates.Some? ==>
          l.releases[i].restates != l.releases[j].restates)
  }

  /** THE WITHHOLDING LEDGER, IN EVERY RUN of records, releases, supersessions and certificates: each
      source row is re-stated at most once and the live certificate withholds no more than it
      certified. It withholds beyond what stands exactly what was released off the certificate then
      the latest, so the balance is conserved if and only if nothing was. */
  lemma LedgerInEveryRun(acts: seq<Act>)
    ensures RestatedOnce(Run(acts))
    ensures IsLive(Run(acts)) ==>
            Withheld(Run(acts), Latest(Run(acts))) <= Run(acts).certificates[Latest(Run(acts))].amount
    ensures Carried(Run(acts)) == Standing(Run(acts)) + ReleasedOff(acts) >= Standing(Run(acts))
    ensures Carried(Run(acts)) == Standing(Run(acts)) <==> !ReleasesHistory(acts)
  {
    RunSound(acts);
    RestatedAtMostOnce(Run(acts));
    ReleasedOffExactly(acts);
  }

  // ── the ledger as it runs ────────────────────────────────────────────────────────────────────

  class DeductionLedger {
    var certificates: seq<Certificate>
    var deductions: seq<Deduction>
    var releases: seq<Release>

    constructor ()
      ensures Now() == NOTHING_CERTIFIED && Valid(Now())
    {
      certificates, deductions, releases := [], [], [];
    }

    function Now(): Ledger
      reads this
    {
      Ledger(certificates, deductions, releases)
    }

    function Live(): bool
      reads this
    {
      |certificates| > 0 && !certificates[|certificates| - 1].superseded
    }

    /** Withhold from the live certificate, up to what it has left. */
    method RecordDeduction(amount: real) returns (ok: bool)
      requires Sound(Now())
      modifies this`deductions
      ensures Sound(Now()) && Now() == After(old(Now()), Records(amount)) && Excess(Now()) == old(Excess(Now()))
      ensures ok <==> old(Live()) && 0.0 < amount <=
                        old(certificates)[|old(certificates)| - 1].amount - old(Withheld(Now(), |certificates| - 1))
      ensures Standing(Now()) == old(Standing(Now())) + if ok then amount else 0.0
      ensures deductions ==
              if ok then old(deductions) + [Deduction(|certificates| - 1, amount, None)] else old(deductions)
    {
      if !Live() {
        return false;
      }
      var live := |certificates| - 1;
      if amount <= 0.0 || amount > certificates[live].amount - Withheld(Now(), live) {
        return false;
      }
      var row := Deduction(live, amount, None);
      DeductionCounts(Now(), row, live);
      DeductionCarries(Now(), row);
      deductions := deductions + [row];
      return true;
    }

    /** Give back part of a deduction, up to what it still holds; the row is located by id alone. */
    method ReleaseDeduction(deduction: Id, amount: real) returns (ok: bool)
      requires Sound(Now())
      modifies this`releases
      ensures Sound(Now()) && Now() == After(old(Now()), Releases(deduction, amount))
      ensures ok <==>
                deduction < |deductions| &&
                0.0 < amount <= old(if deduction < |deductions| then Outstanding(Now(), deduction) else 0.0)
      ensures ok ==> Now() == WithRelease(old(Now()), Release(deduction, amount, None))
      ensures ok ==> Excess(Now()) == old(Excess(Now())) + if deductions[deduction].certificate == |certificates| - 1
                                                           then 0.0
                                                           else amount
      ensures ok && old(Valid(Now())) ==> (Valid(Now()) <==> deductions[deduction].certificate == |certificates| - 1)
      ensures !ok ==> Now() == old(Now())
    {
      if deduction >= |deductions| || amount <= 0.0 || amount > Outstanding(Now(), deduction) {
        return false;
      }
      ReleaseConservesExactly(Now(), Release(deduction, amount, None));
      releases := releases + [Release(deduction, amount, None)];
      return true;
    }

    /** Correcting a certificate leaves its rows where they are, as history. */
    method Supersede() returns (ok: bool)
      requires Sound(Now())
      modifies this`certificates
      ensures Sound(Now()) && Now() == After(old(Now()), Supersedes) && ok == old(Live())
      ensures !Live() && Standing(Now()) == old(Standing(Now())) && Carried(Now()) == old(Carried(Now()))
      ensures certificates ==
              if !ok then old(certificates)
              else old(certificates)[|old(certificates)| - 1 :=
                     old(certificates)[|old(certificates)| - 1].(superseded := true)]
    {
      if !Live() {
        return false;
      }
      var last := |certificates| - 1;
      certificates := certificates[last := certificates[last].(superseded := true)];
      EndedKeeps(old(Now()));
      return true;
    }

    /** Copy every row of `prior` onto `next`, deductions in order and each with its releases. The
        rows are read first, under their locks. */
    method RestateDeductions(prior: Id, next: Id)
      modifies this`deductions, this`releases
      ensures Now() == Restated(old(Now()), old(deductions), old(releases), prior, next, |old(deductions)|)
    {
      ghost var was := Now();
      var rows, given := deductions, releases;
      for d := 0 to |rows|
        invariant Now() == Restated(was, rows, given, prior, next, d)
      {
        if rows[d].certificate == prior {
          ghost var before := Now();
          var id := |deductions|;
          deductions := deductions + [Deduction(next, rows[d].amount, Some(d))];
          for r := 0 to |given|
            invariant Now() == WithReleasesOf(WithDeduction(before, Deduction(next, rows[d].amount, Some(d))), given, d,
                      id, r)
          {
            if given[r].deduction == d {
              releases := releases + [Release(id, given[r].amount, Some(r))];
            }
          }
        }
      }
    }

    /** Certify, carrying forward whatever the last certificate still withholds; a certificate too
        small to hold it is refused before anything is written. */
    method Certify(amount: real) returns (ok: bool)
      requires Sound(Now())
      modifies this
      ensures Sound(Now()) && Now() == After(old(Now()), Certifies(amount))
      ensures ok <==> !old(Live()) && amount >= 0.0 && old(Carried(Now())) <= amount
      ensures Now() == if ok then Replaced(old(Now()), amount) else old(Now())
      ensures Standing(Now()) == old(Standing(Now())) && Carried(Now()) == old(Carried(Now()))
      ensures ok ==> Live() && Withheld(Now(), |certificates| - 1) == old(Carried(Now()))
    {
      if Live() || amount < 0.0 {
        return false;
      }
      var prior := |certificates|;
      if prior > 0 && Withheld(Now(), prior - 1) > amount {
        return false;
      }
      ReplacedOk(Now(), amount);
      certificates := certificates + [Certificate(amount, false)];
      if prior > 0 {
        RestateDeductions(prior - 1, prior);
      }
      return true;
    }
  }
}
