/** Certification as an allocator: the greedy draw over a line's evidence rows. */
module Draws {
  import opened Sums
  import opened Claims
  import opened EvidenceRows

  /** A row offered to a draw, with what no live certificate has taken of it. */
  datatype Offer = Offer(row: Id, free: real)

  /** The draw of one line: each offer in turn gives what it has until the claim is covered. */
  function Greedy(t: Target, offers: seq<Offer>, remaining: real): seq<Draw> {
    if |offers| == 0 || remaining <= 0.0 then []
    else if offers[0].free <= 0.0 then Greedy(t, offers[1..], remaining)
    else
      var take := Min(remaining, offers[0].free);
      [Draw(t, offers[0].row, take)] + Greedy(t, offers[1..], remaining - take)
  }

  /** What the draw leaves uncovered. */
  function Shortfall(offers: seq<Offer>, remaining: real): real {
    if |offers| == 0 || remaining <= 0.0 then remaining
    else if offers[0].free <= 0.0 then Shortfall(offers[1..], remaining)
    else Shortfall(offers[1..], remaining - Min(remaining, offers[0].free))
  }

  function Spare(): Offer -> real { (o: Offer) => Max(o.free, 0.0) }

  predicate OffersAscend(offers: seq<Offer>) {
    forall i, j :: 0 <= i < j < |offers| ==> offers[i].row < offers[j].row
  }

  lemma SpareSplit(offers: seq<Offer>, k: nat)
    requires 0 < k <= |offers|
    ensures Sum(offers[..k], Spare()) == Spare()(offers[0]) + Sum(offers[1..][..k - 1], Spare()) >= 0.0
  {
    assert offers[..k] == [offers[0]] + offers[1..][..k - 1];
    SumAppend([offers[0]], offers[1..][..k - 1], Spare());
    SumOne(offers[0], Spare());
    SumNonneg(offers[1..][..k - 1], Spare());
  }

  /** The draw falls short by exactly what the rows cannot cover, so it is stuck if and only if
      the spare evidence is less than the claim. */
  lemma {:induction false} ShortfallExact(offers: seq<Offer>, claimed: real)
    requires claimed >= 0.0
    ensures Shortfall(offers, claimed) == Max(claimed - Sum(offers, Spare()), 0.0)
  {
    if |offers| > 0 {
      SpareSplit(offers, |offers|);
      assert offers[..|offers|] == offers && offers[1..][..|offers| - 1] == offers[1..];
      if claimed > 0.0 {
        ShortfallExact(offers[1..], if offers[0].free <= 0.0 then claimed else claimed - Min(claimed, offers[0].free));
        SumNonneg(offers[1..], Spare());
      }
    }
  }

  /** Rows the offers do not hold are not drawn on. */
  lemma {:induction false} GreedyOnlyOffers(t: Target, offers: seq<Offer>, claimed: real)
    ensures forall d :: d in Greedy(t, offers, claimed) ==>
              d.target == t && d.quantity > 0.0 &&
              exists k :: 0 <= k < |offers| && offers[k].row == d.row && d.quantity <= offers[k].free
  {
    if |offers| > 0 && claimed > 0.0 {
      var next := if offers[0].free <= 0.0 then claimed else claimed - Min(claimed, offers[0].free);
      GreedyOnlyOffers(t, offers[1..], next);
      forall d | d in Greedy(t, offers, claimed)
        ensures d.target == t && d.quantity > 0.0 &&
                exists k :: 0 <= k < |offers| && offers[k].row == d.row && d.quantity <= offers[k].free
      {
        if d in Greedy(t, offers[1..], next) {
          var k :| 0 <= k < |offers[1..]| && offers[1..][k].row == d.row && d.quantity <= offers[1..][k].free;
          assert offers[k + 1] == offers[1..][k];
        } else {
          assert offers[0].row == d.row;
        }
      }
    }
  }

  function Clamp(x: real, cap: real): real { Max(Min(x, cap), 0.0) }

  /** The first offer's part of a draw, and what the rest draw without it. */
  lemma GreedyHead(t: Target, offers: seq<Offer>, claimed: real, row: Id)
    requires |offers| > 0 && claimed > 0.0
    ensures Sum(Greedy(t, offers, claimed), DrawOnRow(t, row)) ==
            (if offers[0].row == row then Min(claimed, Spare()(offers[0])) else 0.0) +
            Sum(Greedy(t, offers[1..], claimed - Min(claimed, Spare()(offers[0]))), DrawOnRow(t, row))
  {
    var take := Min(claimed, offers[0].free);
    if offers[0].free > 0.0 {
      SumAppend([Draw(t, offers[0].row, take)], Greedy(t, offers[1..], claimed - take), DrawOnRow(t, row));
      SumOne(Draw(t, offers[0].row, take), DrawOnRow(t, row));
    }
  }

  lemma GreedyMisses(t: Target, offers: seq<Offer>, claimed: real, row: Id)
    requires forall k :: 0 <= k < |offers| ==> offers[k].row != row
    ensures Sum(Greedy(t, offers, claimed), DrawOnRow(t, row)) == 0.0
  {
    GreedyOnlyOffers(t, offers, claimed);
    SumZero(Greedy(t, offers, claimed), DrawOnRow(t, row));
  }

  /** The closed form of the draw: the k-th row gives what is left of the claim after every earlier
      row has given all it had, up to what it has itself. */
  lemma {:induction false} GreedyClosedForm(t: Target, offers: seq<Offer>, claimed: real, k: nat)
    requires OffersAscend(offers) && k < |offers|
    ensures Sum(Greedy(t, offers, claimed), DrawOnRow(t, offers[k].row)) ==
            Clamp(claimed - Sum(offers[..k], Spare()), Spare()(offers[k]))
  {
    if claimed <= 0.0 {
      SumNonneg(offers[..k], Spare());
    } else {
      var left := claimed - Min(claimed, Spare()(offers[0]));
      GreedyHead(t, offers, claimed, offers[k].row);
      if k > 0 {
        GreedyClosedForm(t, offers[1..], left, k - 1);
        SpareSplit(offers, k);
      } else {
        GreedyMisses(t, offers[1..], left, offers[0].row);
      }
    }
  }

  /** Without a shortfall the draw freezes exactly the claimed quantity. */
  lemma {:induction false} GreedyTotal(t: Target, offers: seq<Offer>, claimed: real)
    requires claimed >= 0.0
    ensures Sum(Greedy(t, offers, claimed), DrawOn(t)) == claimed - Shortfall(offers, claimed)
  {
    if |offers| > 0 && claimed > 0.0 {
      if offers[0].free <= 0.0 {
        GreedyTotal(t, offers[1..], claimed);
      } else {
        var take := Min(claimed, offers[0].free);
        GreedyTotal(t, offers[1..], claimed - take);
        SumAppend([Draw(t, offers[0].row, take)], Greedy(t, offers[1..], claimed - take), DrawOn(t));
        SumOne(Draw(t, offers[0].row, take), DrawOn(t));
      }
    }
  }

  // ── the rows a line offers ───────────────────────────────────────────────────────────────────

  function OffersOf(bills: seq<Bill>, t: Target, rows: seq<Row>): (offers: seq<Offer>)
    ensures |offers| == |rows|
    ensures forall i :: 0 <= i < |rows| ==>
            offers[i] == Offer(rows[i].id, rows[i].available - Consumed(bills, t, rows[i].id))
  {
    seq(|rows|, i requires 0 <= i < |rows| => Offer(rows[i].id, rows[i].available - Consumed(bills, t, rows[i].id)))
  }

  /** The offers of every line: its rows with positive residue, less what live certificates rest on. */
  function OffersOn(bills: seq<Bill>, orders: map<Target, Order>): Target -> seq<Offer> {
    (t: Target) => if t in orders then OffersOf(bills, t, AvailableRows(orders[t].entries)) else []
  }

  /** The loop that decides one line's draw, over the rows already locked. */
  method DrawLine(bills: seq<Bill>, t: Target, rows: seq<Row>, claimed: real)
    returns (draws: seq<Draw>, remaining: real)
    ensures draws == Greedy(t, OffersOf(bills, t, rows), claimed)
    ensures remaining == Shortfall(OffersOf(bills, t, rows), claimed)
  {
    ghost var offers := OffersOf(bills, t, rows);
    draws, remaining := [], claimed;
    var i := 0;
    assert offers[0..] == offers;
    while i < |rows|
      invariant 0 <= i <= |rows|
      invariant draws + Greedy(t, offers[i..], remaining) == Greedy(t, offers, claimed)
      invariant Shortfall(offers[i..], remaining) == Shortfall(offers, claimed)
    {
      if remaining <= 0.0 {
        break;
      }
      assert offers[i..][1..] == offers[i + 1..] && offers[i..][0] == offers[i];
      var already := Consumed(bills, t, rows[i].id);
      var free := rows[i].available - already;
      if free > 0.0 {
        var take := Min(remaining, free);
        draws := draws + [Draw(t, rows[i].id, take)];
        remaining := remaining - take;
      }
      i := i + 1;
    }
    assert draws + [] == draws;
  }

  // ── the whole claim ──────────────────────────────────────────────────────────────────────────

  predicate Before(a: Target, b: Target) {
    if a.kind == b.kind then a.poLineId < b.poLineId else a.kind == Labour
  }

  function Place(ts: seq<Target>, t: Target): seq<Target> {
    if |ts| == 0 then [t]
    else if ts[0] == t then ts
    else if Before(t, ts[0]) then [t] + ts
    else [ts[0]] + Place(ts[1..], t)
  }

  /** The distinct lines a claim touches, in the one ascending order every transaction locks by:
      labour before material, then by id. */
  function TargetsOf(lines: seq<ClaimLine>): seq<Target> {
    if |lines| == 0 then [] else Place(TargetsOf(lines[..|lines| - 1]), lines[|lines| - 1].target)
  }

  predicate TargetsAscend(ts: seq<Target>) {
    forall i, j :: 0 <= i < j < |ts| ==> Before(ts[i], ts[j])
  }

  lemma {:induction false} PlaceKeepsOrder(ts: seq<Target>, t: Target)
    requires TargetsAscend(ts)
    ensures TargetsAscend(Place(ts, t))
    ensures forall u :: u in Place(ts, t) <==> u in ts || u == t
  {
    if |ts| > 0 && ts[0] != t && !Before(t, ts[0]) {
      PlaceKeepsOrder(ts[1..], t);
      forall u | u in Place(ts[1..], t)
        ensures Before(ts[0], u)
      {
      }
      assert ts == [ts[0]] + ts[1..];
    }
  }

  lemma {:induction false} TargetsOfClaim(lines: seq<ClaimLine>)
    ensures TargetsAscend(TargetsOf(lines))
    ensures forall t :: t in TargetsOf(lines) <==> Touches(lines, t)
  {
    if |lines| > 0 {
      var rest, last := lines[..|lines| - 1], lines[|lines| - 1];
      TargetsOfClaim(rest);
      PlaceKeepsOrder(TargetsOf(rest), last.target);
      forall t
        ensures Touches(lines, t) <==> Touches(rest, t) || t == last.target
      {
        if Touches(rest, t) {
          var i :| 0 <= i < |rest| && rest[i].target == t;
          assert lines[i].target == t;
        }
        if t == last.target {
          assert lines[|lines| - 1].target == t;
        }
        if Touches(lines, t) && t != last.target {
          var i :| 0 <= i < |lines| && lines[i].target == t;
          assert rest[i].target == t;
        }
      }
    }
  }

  /** Labour before material, then by id, each line once. */
  lemma TargetsInOrder(lines: seq<ClaimLine>, i: nat, j: nat)
    requires i < j < |TargetsOf(lines)|
    ensures var a, b := TargetsOf(lines)[i], TargetsOf(lines)[j];
            (a.kind == Labour && b.kind == Material) || (a.kind == b.kind && a.poLineId < b.poLineId)
  {
    TargetsOfClaim(lines);
    assert Before(TargetsOf(lines)[i], TargetsOf(lines)[j]);
  }

  datatype DrawResult = Covered(draws: seq<Draw>) | Stuck(line: Target, shortfall: real)

  /** More draws after those already decided; a refusal stands. */
  function Following(done: seq<Draw>, r: DrawResult): DrawResult {
    match r case Stuck(t, s) => Stuck(t, s) case Covered(rest) => Covered(done + rest)
  }

  lemma FollowingBoth(a: seq<Draw>, b: seq<Draw>, r: DrawResult)
    ensures Following(a, Following(b, r)) == Following(a + b, r)
  {
    if r.Covered? {
      assert a + (b + r.draws) == (a + b) + r.draws;
    }
  }

  /** The draws of a whole claim, line by line; the first line that cannot be covered refuses it. */
  function DrawAll(offers: Target -> seq<Offer>, lines: seq<ClaimLine>, targets: seq<Target>): DrawResult {
    if |targets| == 0 then Covered([]) else
    var t := targets[0];
    var short := Shortfall(offers(t), LineQty(lines, t));
    if short > 0.0 then Stuck(t, short)
    else Following(Greedy(t, offers(t), LineQty(lines, t)), DrawAll(offers, lines, targets[1..]))
  }

  /** The spare evidence of a line: what its rows hold beyond what live certificates rest on. */
  function SpareOn(offers: Target -> seq<Offer>, t: Target): real { Sum(offers(t), Spare()) }

  /** A claim is covered exactly when the spare evidence of every line it touches covers it. */
  lemma {:induction false} CoveredExactly(offers: Target -> seq<Offer>, lines: seq<ClaimLine>, targets: seq<Target>)
    requires LinesPositive(lines)
    ensures DrawAll(offers, lines, targets).Covered? <==>
            forall t :: t in targets ==> LineQty(lines, t) <= SpareOn(offers, t)
  {
    if |targets| > 0 {
      var t := targets[0];
      SumNonneg(lines, QtyOf(t));
      ShortfallExact(offers(t), LineQty(lines, t));
      CoveredExactly(offers, lines, targets[1..]);
      assert targets == [t] + targets[1..];
    }
  }

  /** A refusal names the first line, in that order, whose spare evidence is short, and by how much. */
  lemma {:induction false} StuckExactly(offers: Target -> seq<Offer>, lines: seq<ClaimLine>, targets: seq<Target>,
      k: nat)
    requires LinesPositive(lines) && k < |targets| && LineQty(lines, targets[k]) > SpareOn(offers, targets[k])
    requires forall j :: 0 <= j < k ==> LineQty(lines, targets[j]) <= SpareOn(offers, targets[j])
    ensures DrawAll(offers, lines, targets) ==
            Stuck(targets[k], LineQty(lines, targets[k]) - SpareOn(offers, targets[k]))
  {
    var t := targets[0];
    SumNonneg(lines, QtyOf(t));
    ShortfallExact(offers(t), LineQty(lines, t));
    if k > 0 {
      var rest := targets[1..];
      assert LineQty(lines, t) <= SpareOn(offers, t) && rest[k - 1] == targets[k];
      forall j | 0 <= j < k - 1
        ensures LineQty(lines, rest[j]) <= SpareOn(offers, rest[j])
      {
        assert rest[j] == targets[j + 1];
      }
      StuckExactly(offers, lines, rest, k - 1);
    }
  }

  lemma HeadOnce(ts: seq<Target>)
    requires |ts| > 0 && TargetsAscend(ts)
    ensures TargetsAscend(ts[1..]) && ts[0] !in ts[1..]
    ensures forall t :: t in ts <==> t == ts[0] || t in ts[1..]
  {
    forall i | 0 <= i < |ts[1..]|
      ensures ts[1..][i] != ts[0]
    {
      assert Before(ts[0], ts[i + 1]);
    }
    assert ts == [ts[0]] + ts[1..];
  }

  /** A covered claim freezes exactly what it claims on every line it touches, and nothing else. */
  lemma {:induction false} DrawsExact(offers: Target -> seq<Offer>, lines: seq<ClaimLine>, targets: seq<Target>,
      t: Target)
    requires LinesPositive(lines) && TargetsAscend(targets)
    requires DrawAll(offers, lines, targets).Covered?
    ensures Sum(DrawAll(offers, lines, targets).draws, DrawOn(t)) == if t in targets then LineQty(lines, t) else 0.0
  {
    if |targets| > 0 {
      var u := targets[0];
      var here, rest := Greedy(u, offers(u), LineQty(lines, u)), DrawAll(offers, lines, targets[1..]).draws;
      HeadOnce(targets);
      DrawsExact(offers, lines, targets[1..], t);
      assert DrawAll(offers, lines, targets).draws == here + rest;
      SumAppend(here, rest, DrawOn(t));
      SumNonneg(lines, QtyOf(u));
      if t == u {
        GreedyTotal(u, offers(u), LineQty(lines, u));
        ShortfallExact(offers(u), LineQty(lines, u));
      } else {
        GreedyOnlyOffers(u, offers(u), LineQty(lines, u));
        SumZero(here, DrawOn(t));
      }
    }
  }

  /** The k-th row a line offers is drawn on for exactly its place in the greedy order, and a line
      the claim does not touch for nothing. */
  lemma {:induction false} DrawsOnRow(offers: Target -> seq<Offer>, lines: seq<ClaimLine>, targets: seq<Target>,
      t: Target, row: Id)
    requires LinesPositive(lines) && TargetsAscend(targets)
    requires DrawAll(offers, lines, targets).Covered?
    ensures Sum(DrawAll(offers, lines, targets).draws, DrawOnRow(t, row)) ==
            if t in targets then Sum(Greedy(t, offers(t), LineQty(lines, t)), DrawOnRow(t, row)) else 0.0
  {
    if |targets| > 0 {
      var u := targets[0];
      var here, rest := Greedy(u, offers(u), LineQty(lines, u)), DrawAll(offers, lines, targets[1..]).draws;
      HeadOnce(targets);
      DrawsOnRow(offers, lines, targets[1..], t, row);
      assert DrawAll(offers, lines, targets).draws == here + rest;
      SumAppend(here, rest, DrawOnRow(t, row));
      if t != u {
        GreedyOnlyOffers(u, offers(u), LineQty(lines, u));
        SumZero(here, DrawOnRow(t, row));
      }
    }
  }
}
