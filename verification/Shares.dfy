/** Pro-rata attribution: a bill-scoped amount taken down to the purchase-order lines its claim draws
    on, each by its share of the whole version. */
module Shares {
  import opened Sums

  /** One live claim line: the purchase-order line it draws on, its money, and its version. */
  datatype ShareLine = ShareLine(key: nat, amount: real, version: nat)

  /** What one claim line takes. A version without an amount, or whose lines total zero, gives none. */
  function Share(amounts: map<nat, real>, totals: map<nat, real>, l: ShareLine): real {
    if l.version !in amounts || l.version !in totals || totals[l.version] == 0.0 then 0.0
    else amounts[l.version] * l.amount / totals[l.version]
  }

  function ShareOf(amounts: map<nat, real>, totals: map<nat, real>): ShareLine -> real {
    (l: ShareLine) => Share(amounts, totals, l)
  }

  function ShareTo(key: nat, amounts: map<nat, real>, totals: map<nat, real>): ShareLine -> real {
    (l: ShareLine) => if l.key == key then Share(amounts, totals, l) else 0.0
  }

  /** What one purchase-order line is attributed. */
  function Attributed(lines: seq<ShareLine>, key: nat, amounts: map<nat, real>, totals: map<nat, real>): real {
    Sum(lines, ShareTo(key, amounts, totals))
  }

  function Held(into: map<nat, real>, key: nat): real { if key in into then into[key] else 0.0 }

  lemma AttributedStep(lines: seq<ShareLine>, i: nat, key: nat, amounts: map<nat, real>, totals: map<nat, real>)
    requires i < |lines|
    ensures Attributed(lines[..i + 1], key, amounts, totals) ==
            Attributed(lines[..i], key, amounts, totals) + if lines[i].key == key then Share(amounts, totals, lines[i])
                                                           else 0.0
  {
    SumStep(lines, i, ShareTo(key, amounts, totals));
  }

  /** A version of which nothing is certified, or whose claim is worth nothing. */
  predicate Unattributable(version: nat, amounts: map<nat, real>, totals: map<nat, real>) {
    version !in amounts || version !in totals || totals[version] == 0.0
  }

  lemma NothingToAttribute(lines: seq<ShareLine>, key: nat, amounts: map<nat, real>, totals: map<nat, real>)
    requires forall i :: 0 <= i < |lines| && lines[i].key == key ==> Unattributable(lines[i].version, amounts, totals)
    ensures Attributed(lines, key, amounts, totals) == 0.0
  {
    SumZero(lines, ShareTo(key, amounts, totals));
  }

  /** The one loop both certificate-scoped folds go through; it adds to what `into` holds. */
  method AttributeByLineShare(lines: seq<ShareLine>, amounts: map<nat, real>, totals: map<nat, real>,
      into: map<nat, real>)
    returns (out: map<nat, real>)
    ensures forall k :: Held(out, k) == Held(into, k) + Attributed(lines, k, amounts, totals)
    ensures into.Keys <= out.Keys
    ensures forall k ::
              (forall i :: 0 <= i < |lines| && lines[i].key == k ==>
                 Unattributable(lines[i].version, amounts, totals)) ==>
              Held(out, k) == Held(into, k)
  {
    out := into;
    for i := 0 to |lines|
      invariant forall k :: Held(out, k) == Held(into, k) + Attributed(lines[..i], k, amounts, totals)
      invariant into.Keys <= out.Keys
    {
      forall k
        ensures Attributed(lines[..i + 1], k, amounts, totals) ==
                Attributed(lines[..i], k, amounts, totals) + if lines[i].key == k then Share(amounts, totals, lines[i])
                                                             else 0.0
      {
        AttributedStep(lines, i, k, amounts, totals);
      }
      var line := lines[i];
      if line.version !in amounts {
        continue;
      }
      var total := if line.version in totals then totals[line.version] else 0.0;
      if total == 0.0 {
        continue;
      }
      out := out[line.key := Held(out, line.key) + amounts[line.version] * line.amount / total];
    }
    assert lines[..|lines|] == lines;
    forall k | forall i :: 0 <= i < |lines| && lines[i].key == k ==> Unattributable(lines[i].version, amounts, totals)
      ensures Held(out, k) == Held(into, k)
    {
      NothingToAttribute(lines, k, amounts, totals);
    }
  }

  // ── conservation ─────────────────────────────────────────────────────────────────────────────

  function MoneyOf(): ShareLine -> real { (l: ShareLine) => l.amount }

  /** Every line of one version, whose total is their sum. */
  predicate WholeVersion(lines: seq<ShareLine>, version: nat, totals: map<nat, real>) {
    && version in totals && totals[version] == Sum(lines, MoneyOf()) != 0.0
    && forall i :: 0 <= i < |lines| ==> lines[i].version == version
  }

  /** Over all the lines of a version the shares are the amount, no more and no less. */
  lemma SharesConserve(lines: seq<ShareLine>, version: nat, amounts: map<nat, real>, totals: map<nat, real>)
    requires WholeVersion(lines, version, totals) && version in amounts
    ensures Sum(lines, ShareOf(amounts, totals)) == amounts[version]
  {
    var total := totals[version];
    forall i | 0 <= i < |lines|
      ensures ShareOf(amounts, totals)(lines[i]) == (amounts[version] / total) * MoneyOf()(lines[i])
    {
      Proportion(amounts[version], lines[i].amount, total);
    }
    SumScale(lines, amounts[version] / total, MoneyOf(), ShareOf(amounts, totals));
    Proportion(amounts[version], 0.0, total);
  }

  function KeyOfLine(): ShareLine -> nat { (l: ShareLine) => l.key }

  function Itself(): nat -> nat { (k: nat) => k }

  function AttributedTo(lines: seq<ShareLine>, amounts: map<nat, real>, totals: map<nat, real>): nat -> real {
    (k: nat) => Attributed(lines, k, amounts, totals)
  }

  /** Folded by purchase-order line or not, the shares add up the same. */
  lemma KeysCoverLines(lines: seq<ShareLine>, keys: seq<nat>, amounts: map<nat, real>, totals: map<nat, real>)
    requires forall i, j :: 0 <= i < j < |keys| ==> keys[i] != keys[j]
    requires forall i :: 0 <= i < |lines| ==> lines[i].key in keys
    ensures Sum(keys, AttributedTo(lines, amounts, totals)) == Sum(lines, ShareOf(amounts, totals))
  {
    forall i | 0 <= i < |lines|
      ensures exists j :: 0 <= j < |keys| && Itself()(keys[j]) == KeyOfLine()(lines[i])
    {
      var j :| 0 <= j < |keys| && keys[j] == lines[i].key;
      assert Itself()(keys[j]) == KeyOfLine()(lines[i]);
    }
    SharesCover(lines, KeyOfLine(), ShareOf(amounts, totals), keys, Itself());
    forall j | 0 <= j < |keys|
      ensures OwnShare(lines, KeyOfLine(), ShareOf(amounts, totals), Itself())(keys[j]) ==
              AttributedTo(lines, amounts, totals)(keys[j])
    {
      SumSame(lines, KeyedTo(KeyOfLine(), ShareOf(amounts, totals), keys[j]), ShareTo(keys[j], amounts, totals));
    }
    SumSame(keys, OwnShare(lines, KeyOfLine(), ShareOf(amounts, totals), Itself()),
        AttributedTo(lines, amounts, totals));
  }

  function VersionOfLine(): ShareLine -> nat { (l: ShareLine) => l.version }

  function MoneyOfVersion(version: nat): ShareLine -> real {
    (l: ShareLine) => if l.version == version then l.amount else 0.0
  }

  /** Every version's total is the money of its lines here. */
  predicate WholeVersions(lines: seq<ShareLine>, totals: map<nat, real>) {
    forall v :: v in totals ==> totals[v] == Sum(lines, MoneyOfVersion(v))
  }

  /** What a version has to attribute. */
  function AmountOf(amounts: map<nat, real>, totals: map<nat, real>): nat -> real {
    (v: nat) => if v in amounts && v in totals && totals[v] != 0.0 then amounts[v] else 0.0
  }

  lemma VersionConserves(lines: seq<ShareLine>, version: nat, amounts: map<nat, real>, totals: map<nat, real>)
    requires WholeVersions(lines, totals)
    ensures Sum(lines, KeyedTo(VersionOfLine(), ShareOf(amounts, totals), version)) ==
            AmountOf(amounts, totals)(version)
  {
    var share := KeyedTo(VersionOfLine(), ShareOf(amounts, totals), version);
    if Unattributable(version, amounts, totals) {
      SumZero(lines, share);
    } else {
      var amount, total := amounts[version], totals[version];
      forall i | 0 <= i < |lines|
        ensures share(lines[i]) == (amount / total) * MoneyOfVersion(version)(lines[i])
      {
        Proportion(amount, lines[i].amount, total);
      }
      SumScale(lines, amount / total, MoneyOfVersion(version), share);
      Proportion(amount, 0.0, total);
    }
  }

  /** MANY VERSIONS TOGETHER. Added over every purchase-order line, what whole versions are attributed is
      the amounts of those that have one and are worth something, no more and no less. */
  lemma ManyVersionsConserve(
      lines: seq<ShareLine>, keys: seq<nat>, versions: seq<nat>, amounts: map<nat, real>, totals: map<nat, real>)
    requires WholeVersions(lines, totals)
    requires forall i, j :: 0 <= i < j < |keys| ==> keys[i] != keys[j]
    requires forall i :: 0 <= i < |lines| ==> lines[i].key in keys
    requires forall i, j :: 0 <= i < j < |versions| ==> versions[i] != versions[j]
    requires forall i :: 0 <= i < |lines| ==> lines[i].version in versions
    ensures Sum(keys, AttributedTo(lines, amounts, totals)) == Sum(versions, AmountOf(amounts, totals))
  {
    KeysCoverLines(lines, keys, amounts, totals);
    forall i | 0 <= i < |lines|
      ensures exists j :: 0 <= j < |versions| && Itself()(versions[j]) == VersionOfLine()(lines[i])
    {
      var j :| 0 <= j < |versions| && versions[j] == lines[i].version;
      assert Itself()(versions[j]) == VersionOfLine()(lines[i]);
    }
    SharesCover(lines, VersionOfLine(), ShareOf(amounts, totals), versions, Itself());
    forall j | 0 <= j < |versions|
      ensures OwnShare(lines, VersionOfLine(), ShareOf(amounts, totals), Itself())(versions[j]) ==
              AmountOf(amounts, totals)(versions[j])
    {
      VersionConserves(lines, versions[j], amounts, totals);
    }
    SumSame(versions, OwnShare(lines, VersionOfLine(), ShareOf(amounts, totals), Itself()), AmountOf(amounts, totals));
  }

  /** Folded by purchase-order line, the attribution of a whole version is still the whole amount. */
  lemma AttributionConserves(lines: seq<ShareLine>, keys: seq<nat>, version: nat, amounts: map<nat, real>,
      totals: map<nat, real>)
    requires WholeVersion(lines, version, totals) && version in amounts
    requires forall i, j :: 0 <= i < j < |keys| ==> keys[i] != keys[j]
    requires forall i :: 0 <= i < |lines| ==> lines[i].key in keys
    ensures Sum(keys, AttributedTo(lines, amounts, totals)) == amounts[version]
  {
    KeysCoverLines(lines, keys, amounts, totals);
    SharesConserve(lines, version, amounts, totals);
  }

  /** Certified in full, each line is attributed exactly its own money. */
  lemma FullCertificationIsExact(lines: seq<ShareLine>, version: nat, amounts: map<nat, real>, totals: map<nat, real>,
      i: nat)
    requires WholeVersion(lines, version, totals) && version in amounts && amounts[version] == totals[version]
    requires i < |lines|
    ensures Share(amounts, totals, lines[i]) == lines[i].amount
  {
    Scaled(lines[i].amount, 0.0, totals[version]);
  }

  /** The lines may be folded in any order, and in any split into kinds or cost heads. */
  lemma AnyOrderAnySplit(lines: seq<ShareLine>, a: seq<ShareLine>, b: seq<ShareLine>, key: nat, amounts: map<nat,
      real>, totals: map<nat, real>)
    requires multiset(lines) == multiset(a) + multiset(b)
    ensures Attributed(lines, key, amounts, totals) ==
            Attributed(a, key, amounts, totals) + Attributed(b, key, amounts, totals)
  {
    SumAppend(a, b, ShareTo(key, amounts, totals));
    SumAnyOrder(lines, a + b, ShareTo(key, amounts, totals));
  }

  lemma {:induction false} SumAnyOrder<T>(a: seq<T>, b: seq<T>, f: T -> real)
    requires multiset(a) == multiset(b)
    ensures Sum(a, f) == Sum(b, f)
  {
    if |a| > 0 {
      var last := a[|a| - 1];
      assert last in multiset(b);
      var k :| 0 <= k < |b| && b[k] == last;
      var rest := b[..k] + b[k + 1..];
      assert b == b[..k] + [last] + b[k + 1..];
      assert a == a[..|a| - 1] + [last];
      assert multiset(b) == multiset(rest) + multiset([last]);
      assert multiset(rest) == multiset(b) - multiset([last]);
      assert multiset(a[..|a| - 1]) == multiset(a) - multiset([last]);
      SumAnyOrder(a[..|a| - 1], rest, f);
      assert rest[..k] == b[..k] && rest[k..] == b[k + 1..];
      SumInsert(rest, k, last, f);
    } else {
      assert |multiset(b)| == 0;
      assert b == [];
    }
  }
}
