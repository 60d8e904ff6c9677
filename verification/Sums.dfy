/** Options, and finite sums of real-valued measures over sequences: the reduces every fold of the
    commercial module is written with. A measure is always named by a function, so that the same
    sum is the same term wherever it is written. */
module Sums {
  datatype Option<+T> = None | Some(value: T)

  function Max(x: real, y: real): real { if x >= y then x else y }

  function Min(x: real, y: real): real { if x <= y then x else y }

  function Sum<T>(s: seq<T>, f: T -> real): real {
    if |s| == 0 then 0.0 else Sum(s[..|s| - 1], f) + f(s[|s| - 1])
  }

  lemma {:induction false} SumStep<T>(s: seq<T>, i: nat, f: T -> real)
    requires i < |s|
    ensures Sum(s[..i + 1], f) == Sum(s[..i], f) + f(s[i])
  {
    assert s[..i + 1][..i] == s[..i];
  }

  lemma {:induction false} SumAppend<T>(a: seq<T>, b: seq<T>, f: T -> real)
    ensures Sum(a + b, f) == Sum(a, f) + Sum(b, f)
  {
    if |b| == 0 {
      assert a + b == a;
    } else {
      assert (a + b)[..|a + b| - 1] == a + b[..|b| - 1];
      SumAppend(a, b[..|b| - 1], f);
    }
  }

  lemma SumOne<T>(x: T, f: T -> real)
    ensures Sum([x], f) == f(x)
  {
    assert [x][..0] == [];
  }

  lemma {:induction false} SumInsert<T>(s: seq<T>, i: nat, x: T, f: T -> real)
    requires i <= |s|
    ensures Sum(s[..i] + [x] + s[i..], f) == Sum(s, f) + f(x)
  {
    SumAppend(s[..i] + [x], s[i..], f);
    SumAppend(s[..i], [x], f);
    SumOne(x, f);
    SumAppend(s[..i], s[i..], f);
    assert s[..i] + s[i..] == s;
  }

  lemma {:induction false} SumUpdate<T>(s: seq<T>, i: nat, x: T, f: T -> real)
    requires i < |s|
    ensures Sum(s[i := x], f) == Sum(s, f) - f(s[i]) + f(x)
  {
    assert s[i := x] == s[..i] + [x] + s[i + 1..];
    assert s == s[..i] + [s[i]] + s[i + 1..];
    SumAppend(s[..i] + [x], s[i + 1..], f);
    SumAppend(s[..i], [x], f);
    SumAppend(s[..i] + [s[i]], s[i + 1..], f);
    SumAppend(s[..i], [s[i]], f);
    SumOne(x, f);
    SumOne(s[i], f);
  }

  lemma {:induction false} SumLe<T>(s: seq<T>, f: T -> real, g: T -> real)
    requires forall i :: 0 <= i < |s| ==> f(s[i]) <= g(s[i])
    ensures Sum(s, f) <= Sum(s, g)
  {
    if |s| > 0 {
      SumLe(s[..|s| - 1], f, g);
    }
  }

  lemma {:induction false} SumSame<T>(s: seq<T>, f: T -> real, g: T -> real)
    requires forall i :: 0 <= i < |s| ==> f(s[i]) == g(s[i])
    ensures Sum(s, f) == Sum(s, g)
  {
    SumLe(s, f, g);
    SumLe(s, g, f);
  }

  lemma {:induction false} SumPointwise<T>(a: seq<T>, b: seq<T>, f: T -> real)
    requires |a| == |b|
    requires forall i :: 0 <= i < |a| ==> f(a[i]) == f(b[i])
    ensures Sum(a, f) == Sum(b, f)
  {
    if |a| > 0 {
      SumPointwise(a[..|a| - 1], b[..|b| - 1], f);
    }
  }

  /** The sum of a measure that vanishes everywhere. */
  lemma {:induction false} SumZero<T>(s: seq<T>, f: T -> real)
    requires forall i :: 0 <= i < |s| ==> f(s[i]) == 0.0
    ensures Sum(s, f) == 0.0
  {
    if |s| > 0 {
      SumZero(s[..|s| - 1], f);
    }
  }

  lemma {:induction false} SumNonneg<T>(s: seq<T>, f: T -> real)
    requires forall i :: 0 <= i < |s| ==> f(s[i]) >= 0.0
    ensures Sum(s, f) >= 0.0
  {
    if |s| > 0 {
      SumNonneg(s[..|s| - 1], f);
    }
  }

  /** One term of a non-negative sum is at most the sum. */
  lemma {:induction false} SumTerm<T>(s: seq<T>, k: nat, f: T -> real)
    requires k < |s|
    requires forall i :: 0 <= i < |s| ==> f(s[i]) >= 0.0
    ensures f(s[k]) <= Sum(s, f)
  {
    if k < |s| - 1 {
      SumTerm(s[..|s| - 1], k, f);
    } else {
      SumNonneg(s[..|s| - 1], f);
    }
  }

  /** When only one element has a non-zero measure, the sum is that measure. */
  lemma {:induction false} SumOnly<T>(s: seq<T>, k: nat, f: T -> real)
    requires k < |s|
    requires forall i :: 0 <= i < |s| && i != k ==> f(s[i]) == 0.0
    ensures Sum(s, f) == f(s[k])
  {
    if k < |s| - 1 {
      SumOnly(s[..|s| - 1], k, f);
    } else {
      SumZero(s[..|s| - 1], f);
    }
  }

  /** A measure that is pointwise the sum of two others. */
  lemma {:induction false} SumSplit<T>(s: seq<T>, f: T -> real, g: T -> real, h: T -> real)
    requires forall i :: 0 <= i < |s| ==> h(s[i]) == f(s[i]) + g(s[i])
    ensures Sum(s, h) == Sum(s, f) + Sum(s, g)
  {
    if |s| > 0 {
      SumSplit(s[..|s| - 1], f, g, h);
    }
  }

  /** A measure that is pointwise a fixed multiple of another. */
  lemma {:induction false} SumScale<T>(s: seq<T>, k: real, f: T -> real, g: T -> real)
    requires forall i :: 0 <= i < |s| ==> g(s[i]) == k * f(s[i])
    ensures Sum(s, g) == k * Sum(s, f)
  {
    if |s| > 0 {
      SumScale(s[..|s| - 1], k, f, g);
    }
  }

  function Filter<T>(s: seq<T>, p: T -> bool): (r: seq<T>)
    ensures forall i :: 0 <= i < |r| ==> r[i] in s && p(r[i])
    ensures forall i :: 0 <= i < |s| && p(s[i]) ==> s[i] in r
  {
    if |s| == 0 then [] else
    var rest := Filter(s[..|s| - 1], p);
    if p(s[|s| - 1]) then rest + [s[|s| - 1]] else rest
  }

  /** The share of a measure that falls to one key. */
  function KeyedTo<T, K(==)>(key: T -> K, w: T -> real, k: K): T -> real {
    x => if key(x) == k then w(x) else 0.0
  }

  /** What falls to one owner: the items keyed to its id. */
  function OwnShare<T, O, K(==)>(items: seq<T>, key: T -> K, w: T -> real, id: O -> K): O -> real {
    o => Sum(items, KeyedTo(key, w, id(o)))
  }

  /** Distributing items to owners by key loses nothing, when every item that weighs anything has
      exactly one owner. */
  lemma {:induction false} SharesCover<T, O, K>(
      items: seq<T>, key: T -> K, w: T -> real, owners: seq<O>, id: O -> K)
    requires forall i, j :: 0 <= i < j < |owners| ==> id(owners[i]) != id(owners[j])
    requires forall i :: 0 <= i < |items| && w(items[i]) != 0.0 ==>
               exists j :: 0 <= j < |owners| && id(owners[j]) == key(items[i])
    ensures Sum(owners, OwnShare(items, key, w, id)) == Sum(items, w)
  {
    if |items| == 0 {
      SumZero(owners, OwnShare(items, key, w, id));
    } else {
      var rest, x := items[..|items| - 1], items[|items| - 1];
      SharesCover(rest, key, w, owners, id);
      var last := (o: O) => KeyedTo(key, w, id(o))(x);
      SumSplit(owners, OwnShare(rest, key, w, id), last, OwnShare(items, key, w, id));
      if w(x) == 0.0 {
        SumZero(owners, last);
      } else {
        var j :| 0 <= j < |owners| && id(owners[j]) == key(x);
        SumOnly(owners, j, last);
      }
    }
  }

  // ── proportions ──────────────────────────────────────────────────────────────────────────────

  lemma ProductNonneg(x: real, y: real)
    requires x >= 0.0 && y >= 0.0
    ensures x * y >= 0.0
  {
  }

  lemma ProductGrows(k: real, x: real, y: real)
    requires k >= 0.0 && x <= y
    ensures k * x <= k * y
  {
  }

  lemma QuotientGrows(x: real, y: real, q: real)
    requires x <= y && q > 0.0
    ensures x / q <= y / q
  {
  }

  /** A quotient of a sum, and a whole times over its own divisor. */
  lemma Scaled(a: real, b: real, q: real)
    requires q != 0.0
    ensures (a + b) / q == a / q + b / q
    ensures a * q / q == a
  {
  }

  lemma Proportion(amount: real, part: real, total: real)
    requires total != 0.0
    ensures amount * part / total == (amount / total) * part
    ensures (amount / total) * total == amount
  {
  }

  lemma Quotient(a: real, q: real)
    requires q != 0.0
    ensures a / q * q == a
  {
  }
}
