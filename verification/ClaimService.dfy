/** The bill service as it runs: the folds it reads, the bounds it evaluates and the commands it
    carries out step by step, each proved to be the state function of that command. */
module ClaimService {
  import opened Sums
  import opened Claims
  import opened EvidenceRows
  import opened Draws
  import opened Disposition
  import opened Interference
  import opened Commands

  datatype Breach = OrderNotLive | OverOrdered | OverEvidence

  datatype Verdict = Verdict(target: Target, breach: Option<Breach>)

  /** A command that was carried out moved the state as its function says; one that was refused
      left it alone. */
  ghost predicate Performed(o: Outcome, was: State, now: State, ok: bool) {
    match o case Refused => !ok && now == was case Done(next) => ok && now == next
  }

  function Prefixed(done: seq<nat>, e: Ending): Ending {
    match e case Aborted => Aborted case Ended(bills, disputed) => Ended(bills, done + disputed)
  }

  lemma PrefixedOnce(done: seq<nat>, i: nat, e: Ending)
    ensures Prefixed(done, Then(i, e)) == Prefixed(done + [i], e)
  {
    if e.Ended? {
      assert done + ([i] + e.disputed) == done + [i] + e.disputed;
    }
  }

  class Service {
    var bills: seq<Bill>
    var orders: map<Target, Order>

    constructor ()
      ensures bills == [] && orders == map[]
    {
      bills, orders := [], map[];
    }

    function Now(): State
      reads this
    {
      State(bills, orders)
    }

    // ── the folds ──────────────────────────────────────────────────────────────────────────────

    method AddLines(out: map<Id, real>, kind: Kind, lines: seq<ClaimLine>) returns (r: map<Id, real>)
      ensures r.Keys == out.Keys
      ensures forall id :: id in out ==> r[id] == out[id] + LineQty(lines, Target(kind, id))
    {
      r := out;
      for i := 0 to |lines|
        invariant r.Keys == out.Keys
        invariant forall id :: id in out ==> r[id] == out[id] + LineQty(lines[..i], Target(kind, id))
      {
        forall id | id in out
          ensures LineQty(lines[..i + 1], Target(kind, id)) ==
                  LineQty(lines[..i], Target(kind, id)) + QtyOf(Target(kind, id))(lines[i])
        {
          SumStep(lines, i, QtyOf(Target(kind, id)));
        }
        var l := lines[i];
        if l.target.kind == kind && l.target.poLineId in r {
          r := r[l.target.poLineId := r[l.target.poLineId] + l.quantity];
        }
      }
      assert lines[..|lines|] == lines;
    }

    method AddVersions(out: map<Id, real>, kind: Kind, versions: seq<Version>) returns (r: map<Id, real>)
      ensures r.Keys == out.Keys
      ensures forall id :: id in out ==> r[id] == out[id] + Sum(versions, VersionOn(Target(kind, id)))
    {
      r := out;
      for i := 0 to |versions|
        invariant r.Keys == out.Keys
        invariant forall id :: id in out ==> r[id] == out[id] + Sum(versions[..i], VersionOn(Target(kind, id)))
      {
        forall id | id in out
          ensures Sum(versions[..i + 1], VersionOn(Target(kind, id))) ==
                  Sum(versions[..i], VersionOn(Target(kind, id))) + VersionOn(Target(kind, id))(versions[i])
        {
          SumStep(versions, i, VersionOn(Target(kind, id)));
        }
        if !versions[i].superseded {
          r := AddLines(r, kind, versions[i].lines);
        }
      }
      assert versions[..|versions|] == versions;
    }

    /** BILLED_QTY for a set of lines of one kind: every live line of theirs, added up in one pass;
        a line nobody claims has claimed nothing. */
    method BilledQtyFor(kind: Kind, ids: seq<Id>) returns (out: map<Id, real>)
      ensures forall id :: id in out <==> id in ids
      ensures forall id :: id in ids ==> out[id] == Billed(bills, Target(kind, id))
    {
      out := map[];
      for i := 0 to |ids|
        invariant forall id :: id in out <==> id in ids[..i]
        invariant forall id :: id in out ==> out[id] == 0.0
      {
        out := out[ids[i] := 0.0];
      }
      assert ids[..|ids|] == ids;
      for i := 0 to |bills|
        invariant forall id :: id in out <==> id in ids
        invariant forall id :: id in ids ==> out[id] == Billed(bills[..i], Target(kind, id))
      {
        forall id | id in ids
          ensures Billed(bills[..i + 1], Target(kind, id)) ==
                  Billed(bills[..i], Target(kind, id)) + BillOn(Target(kind, id))(bills[i])
        {
          SumStep(bills, i, BillOn(Target(kind, id)));
        }
        if IsLive(bills[i].status) {
          out := AddVersions(out, kind, bills[i].versions);
        }
      }
      assert bills[..|bills|] == bills;
    }

    method BilledOn(t: Target) returns (billed: real)
      ensures billed == Billed(bills, t)
    {
      var folded := BilledQtyFor(t.kind, [t.poLineId]);
      assert t.poLineId in [t.poLineId];
      billed := folded[t.poLineId];
    }

    /** ACCEPTED or MEASURED: the signed fold over a line's rows. */
    method EvidenceOn(t: Target) returns (evidence: real)
      requires t in orders
      ensures evidence == Evidence(orders[t].entries)
    {
      var entries := orders[t].entries;
      evidence := 0.0;
      for i := 0 to |entries|
        invariant evidence == Evidence(entries[..i])
      {
        SumStep(entries, i, QuantityOf());
        evidence := evidence + entries[i].quantity;
      }
      assert entries[..|entries|] == entries;
    }

    method ClaimedOn(lines: seq<ClaimLine>, t: Target) returns (quantity: real)
      ensures quantity == LineQty(lines, t)
    {
      quantity := 0.0;
      for i := 0 to |lines|
        invariant quantity == LineQty(lines[..i], t)
      {
        SumStep(lines, i, QtyOf(t));
        if lines[i].target == t {
          quantity := quantity + lines[i].quantity;
        }
      }
      assert lines[..|lines|] == lines;
    }

    /** Bounds 1 and 2 of every line a claim touches, in lock order. The first failing test names
        the breach; an unknown line ends the transaction. */
    method EvaluateBounds(lines: seq<ClaimLine>, countLinesAsLive: bool) returns (verdicts: Option<seq<Verdict>>)
      ensures verdicts.None? <==> !Known(lines, orders)
      ensures verdicts.Some? ==> |verdicts.value| == |TargetsOf(lines)|
      ensures verdicts.Some? ==> forall k :: 0 <= k < |verdicts.value| ==>
                var t := TargetsOf(lines)[k];
                var extra := if countLinesAsLive then LineQty(lines, t) else 0.0;
                && t in orders && verdicts.value[k].target == t
                && (verdicts.value[k].breach.None? <==>
                      && orders[t].live && Billed(bills, t) + extra <= orders[t].qty + orders[t].overage
                      && Billed(bills, t) + extra <= Evidence(orders[t].entries))
                && (verdicts.value[k].breach == Some(OrderNotLive) <==> !orders[t].live)
                && (verdicts.value[k].breach == Some(OverOrdered) <==>
                      orders[t].live && Billed(bills, t) + extra > orders[t].qty + orders[t].overage)
      ensures verdicts.Some? ==>
                ((forall k :: 0 <= k < |verdicts.value| ==> verdicts.value[k].breach.None?) <==>
                 AllWithin(bills, orders, lines, countLinesAsLive))
    {
      var targets := TargetsOf(lines);
      TargetsOfClaim(lines);
      var out: seq<Verdict> := [];
      for i := 0 to |targets|
        invariant |out| == i
        invariant forall k :: 0 <= k < i ==> targets[k] in orders
        invariant forall k :: 0 <= k < i ==>
                    var t := targets[k];
                    var extra := if countLinesAsLive then LineQty(lines, t) else 0.0;
                    && out[k].target == t
                    && (out[k].breach.None? <==>
                        && orders[t].live && Billed(bills, t) + extra <= orders[t].qty + orders[t].overage
                        && Billed(bills, t) + extra <= Evidence(orders[t].entries))
                    && (out[k].breach == Some(OrderNotLive) <==> !orders[t].live)
                    && (out[k].breach == Some(OverOrdered) <==>
                        orders[t].live && Billed(bills, t) + extra > orders[t].qty + orders[t].overage)
      {
        var t := targets[i];
        if t !in orders {
          assert Touches(lines, t);
          return None;
        }
        var billed := BilledOn(t);
        if countLinesAsLive {
          var claimed := ClaimedOn(lines, t);
          billed := billed + claimed;
        }
        var evidence := EvidenceOn(t);
        var breach: Option<Breach> := None;
        if !orders[t].live {
          breach := Some(OrderNotLive);
        } else if billed > Ordered(orders[t]) {
          breach := Some(OverOrdered);
        } else if billed > evidence {
          breach := Some(OverEvidence);
        }
        out := out + [Verdict(t, breach)];
      }
      forall k | 0 <= k < |lines|
        ensures lines[k].target in orders
      {
        assert Touches(lines, lines[k].target);
      }
      assert (forall k :: 0 <= k < |out| ==> out[k].breach.None?) ==> AllWithin(bills, orders, lines, countLinesAsLive);
      return Some(out);
    }

    method FirstBreach(verdicts: seq<Verdict>) returns (found: bool)
      ensures found <==> exists k :: 0 <= k < |verdicts| && verdicts[k].breach.Some?
    {
      for i := 0 to |verdicts|
        invariant forall k :: 0 <= k < i ==> verdicts[k].breach.None?
      {
        if verdicts[i].breach.Some? {
          return true;
        }
      }
      return false;
    }

    /** The verdict on a whole claim: nothing when a line is unknown, else whether it is in breach. */
    method Breached(lines: seq<ClaimLine>, countLinesAsLive: bool) returns (breach: Option<bool>)
      ensures breach.None? <==> !Known(lines, orders)
      ensures breach.Some? ==> (breach.value <==> !AllWithin(bills, orders, lines, countLinesAsLive))
    {
      var verdicts := EvaluateBounds(lines, countLinesAsLive);
      if verdicts.None? {
        return None;
      }
      var found := FirstBreach(verdicts.value);
      return Some(found);
    }

    // ── the withdrawal disposition ─────────────────────────────────────────────────────────────

    /** The live claims on one line, newest first, one row per bill. */
    method LiveClaimsOn(t: Target) returns (claims: seq<Claim>)
      requires AllOk(bills)
      ensures claims == LiveClaims(bills, t)
      ensures NewestFirst(claims) && Sum(claims, Quantity()) == Billed(bills, t)
    {
      claims := [];
      for i := 0 to |bills|
        invariant claims == Gather(bills, t, i)
      {
        if ClaimsOf(bills[i], t) {
          var quantity := ClaimedOn(Current(bills[i]).lines, t);
          var v := Current(bills[i]);
          claims := Insert(claims, Claim(i, v.number, v.createdAt, quantity));
        }
      }
      LiveClaimsExact(bills, t);
    }

    /** What another transaction does meanwhile. */
    method Interfere(env: Schedule) returns (rest: Schedule)
      requires AllOk(bills)
      modifies this`bills
      ensures bills == Slot(old(bills), env) && rest == Rest(env)
      ensures AllOk(bills)
    {
      SlotKeeps(bills, env);
      if |env| == 0 {
        return [];
      }
      ghost var after := Slot(bills, env);
      for k := 0 to |env[0]|
        invariant DisturbAll(bills, env[0][k..]) == after
      {
        bills := Disturb(bills, env[0][k]);
        assert env[0][k..][1..] == env[0][k + 1..];
      }
      return env[1..];
    }

    /** One turn: the newest claim in hand is disputed if it still stands as it was read; if not,
        the fold and then the live claims are read again. */
    method TakeTurn(t: Target, evidence: real, claims: seq<Claim>, billed: real, env: Schedule)
      returns (ok: bool, won: Option<nat>, nextClaims: seq<Claim>, nextBilled: real, rest: Schedule)
      requires AllOk(bills) && billed > evidence && |claims| > 0
      modifies this`bills
      ensures AllOk(bills)
      ensures match TurnOf(Config(old(bills), claims, billed, env), t, evidence)
              case Stops => false
              case Refuses => !ok
              case Takes(i, next) => ok && won == Some(i) && next == Config(bills, nextClaims, nextBilled, rest)
              case Rereads(next) => ok && won == None && next == Config(bills, nextClaims, nextBilled, rest)
    {
      var claim := claims[0];
      ok, won, nextClaims, nextBilled := true, None, claims[1..], billed;
      rest := Interfere(env);
      if !Holds(bills, claim) {
        nextBilled := BilledOn(t);
        rest := Interfere(rest);
        nextClaims := LiveClaimsOn(t);
      } else if PastCertification(bills[claim.bill].status) {
        ok := false;
      } else {
        bills := Dispute(bills, claim.bill);
        won, nextBilled := Some(claim.bill), billed - claim.quantity;
      }
    }

    /** The claims in hand in turn, re-reading after a lost compare-and-set. */
    method DisputeInTurn(t: Target, evidence: real, inHand: seq<Claim>, total: real, env: Schedule)
      returns (ok: bool, disputed: seq<nat>)
      requires AllOk(bills)
      modifies this`bills
      ensures AllOk(bills)
      ensures Loop(Config(old(bills), inHand, total, env), t, evidence) ==
              if ok then Ended(bills, disputed) else Aborted
    {
      var claims, billed, rest := inHand, total, env;
      ok, disputed := true, [];
      ghost var all := Loop(Config(bills, claims, billed, rest), t, evidence);
      assert all == Prefixed([], all) by {
        assert all.Ended? ==> [] + all.disputed == all.disputed;
      }
      while billed > evidence
        invariant AllOk(bills) && ok
        invariant all == Prefixed(disputed, Loop(Config(bills, claims, billed, rest), t, evidence))
        decreases Left(rest), Behind(Config(bills, claims, billed, rest)), |claims|
      {
        ghost var c := Config(bills, claims, billed, rest);
        TurnDescends(c, t, evidence);
        if |claims| == 0 {
          break;
        }
        var won;
        ok, won, claims, billed, rest := TakeTurn(t, evidence, claims, billed, rest);
        if !ok {
          return false, [];
        }
        if won.Some? {
          PrefixedOnce(disputed, won.value, Loop(Config(bills, claims, billed, rest), t, evidence));
          disputed := disputed + [won.value];
        }
      }
      assert disputed + [] == disputed;
    }

    /** Dispute live claims newest first until the line is within `evidence`; `env` is the
        interference met on the way, from the first two reads on. A certified claim in the way aborts
        the transaction, which the caller undoes. */
    method DisputeClaimsBeyondEvidence(t: Target, evidence: real, env: Schedule) returns (ok: bool, disputed: seq<nat>)
      requires AllOk(bills)
      modifies this`bills
      ensures Disposes(old(bills), t, evidence, env) == if ok then Ended(bills, disputed) else Aborted
    {
      var billed := BilledOn(t);
      if billed <= evidence {
        return true, [];
      }
      var rest := Interfere(env);
      var claims := LiveClaimsOn(t);
      ok, disputed := DisputeInTurn(t, evidence, claims, billed, rest);
    }

    // ── the commands ───────────────────────────────────────────────────────────────────────────

    /** The compare-and-set every transition is. */
    method Cas(i: nat, from: Status, to: Status) returns (ok: bool)
      modifies this`bills
      ensures ok <==> i < |old(bills)| && old(bills)[i].status == from
      ensures bills == if ok then WithStatus(old(bills), i, to) else old(bills)
    {
      ok := i < |bills| && bills[i].status == from;
      if ok {
        bills := WithStatus(bills, i, to);
      }
    }

    method RecordBill(lines: seq<ClaimLine>, at: nat) returns (ok: bool)
      requires Wellformed(Now())
      modifies this`bills
      ensures Performed(Apply(old(Now()), DoRecord(lines, at)), old(Now()), Now(), ok)
    {
      ok := Acceptable(lines, orders);
      if ok {
        bills := bills + [Bill(Draft, [Version(1, at, false, lines)], [], 0.0)];
      }
    }

    /** The shared transition machine: the move, then the bounds of what it made live. A breach
        disputes the claim; an unknown line undoes the move. */
    method Transition(i: nat, from: set<Status>, to: Status, evaluateBounds: bool) returns (ok: bool)
      requires Wellformed(Now())
      modifies this`bills
      ensures ok <==> i < |old(bills)| && old(bills)[i].status in from && (evaluateBounds ==>
                Known(Current(old(bills)[i]).lines, orders))
      ensures !ok ==> bills == old(bills)
      ensures ok && !evaluateBounds ==> bills == WithStatus(old(bills), i, to)
      ensures ok && evaluateBounds ==> bills == Settle(WithStatus(old(bills), i, to), orders, i)
    {
      if i >= |bills| || bills[i].status !in from {
        return false;
      }
      var was := bills;
      assert VersionsOk(was[i]);
      var moved := Cas(i, bills[i].status, to);
      if evaluateBounds {
        var breach := Breached(Current(bills[i]).lines, false);
        if breach.None? {
          bills := was;
          return false;
        }
        if breach.value {
          moved := Cas(i, to, Disputed);
        }
      }
      return true;
    }

    method SubmitBill(i: nat) returns (ok: bool)
      requires Wellformed(Now())
      modifies this`bills
      ensures Performed(Apply(old(Now()), DoSubmit(i)), old(Now()), Now(), ok)
    {
      ok := Transition(i, {Draft}, Submitted, true);
    }

    method BeginBillVerification(i: nat) returns (ok: bool)
      requires Wellformed(Now())
      modifies this`bills
      ensures Performed(Apply(old(Now()), DoBeginVerification(i)), old(Now()), Now(), ok)
    {
      ok := Transition(i, {Submitted}, UnderVerification, false);
    }

    method RejectBill(i: nat) returns (ok: bool)
      requires Wellformed(Now())
      modifies this`bills
      ensures Performed(Apply(old(Now()), DoReject(i)), old(Now()), Now(), ok)
    {
      ok := Transition(i, {Draft, Submitted, UnderVerification, Disputed, Verified}, Rejected, false);
    }

    /** The retained version is superseded before its replacement is written. */
    method Replace(i: nat, lines: seq<ClaimLine>, at: nat)
      requires i < |bills| && |bills[i].versions| > 0
      modifies this`bills
      ensures bills == old(bills)[i := Rewritten(old(bills)[i], lines, at)]
    {
      var b := bills[i];
      var n := |b.versions|;
      var current := b.versions[n - 1];
      b := b.(versions := b.versions[n - 1 := current.(superseded := true)]);
      b := b.(versions := b.versions + [Version(current.number + 1, at, false, lines)]);
      bills := bills[i := b];
    }

    method AmendBill(i: nat, lines: seq<ClaimLine>, at: nat) returns (ok: bool)
      requires Wellformed(Now())
      modifies this`bills
      ensures Performed(Apply(old(Now()), DoAmend(i, lines, at)), old(Now()), Now(), ok)
    {
      if i >= |bills| || bills[i].status !in {Submitted, Verified, Disputed} {
        return false;
      }
      if !Acceptable(lines, orders) {
        return false;
      }
      var was := bills;
      assert VersionsOk(was[i]);
      var status := bills[i].status;
      Replace(i, lines, at);
      if status == Disputed {
        var breach := Breached(lines, true);
        if breach == Some(true) {
          bills := was;
          return false;
        }
        var resolved := Cas(i, Disputed, Resolved);
      } else {
        var next := if status == Verified then Submitted else status;
        if next != status {
          var moved := Cas(i, status, next);
        }
        assert bills == WithStatus(was[i := Rewritten(was[i], lines, at)], i, Submitted);
        var breach := Breached(lines, false);
        if breach == Some(true) {
          var disputed := Cas(i, next, Disputed);
        }
      }
      return true;
    }

    /** A reducing correction: file the row, ask the floors, then dispose of what it withdrew. */
    method CorrectEvidence(t: Target, e: Entry) returns (ok: bool)
      requires Wellformed(Now())
      modifies this
      ensures Performed(Apply(old(Now()), DoCorrect(t, e)), old(Now()), Now(), ok)
    {
      if t !in orders || e.corrects.None? || e.quantity == 0.0 || !Fresh(orders[t].entries, e.id) {
        return false;
      }
      if !HasOriginal(orders[t].entries, e.corrects.value) {
        return false;
      }
      var wasBills, wasOrders := bills, orders;
      var row := e.corrects.value;
      orders := orders[t := orders[t].(entries := Filed(orders[t].entries, e))];
      if e.quantity > 0.0 {
        return true;
      }
      var evidence := EvidenceOn(t);
      var net := NetOf(orders[t].entries, row);
      if evidence < 0.0 || net < 0.0
      || (t.kind == Labour && evidence < CertifiedBilled(bills, t))
      || net < Consumed(bills, t, row) {
        orders := wasOrders;
        return false;
      }
      var disputed;
      ok, disputed := DisputeClaimsBeyondEvidence(t, evidence, []);
      QuietIsExact(wasBills, t, evidence);
      if !ok {
        bills, orders := wasBills, wasOrders;
      }
    }

    /** A cancelled or amended-away order: every live claim on the line goes. */
    method WithdrawOrderedAuthority(t: Target) returns (ok: bool)
      requires Wellformed(Now())
      modifies this
      ensures Performed(Apply(old(Now()), DoKillOrder(t)), old(Now()), Now(), ok)
    {
      if t !in orders || !orders[t].live {
        return false;
      }
      var wasBills, wasOrders := bills, orders;
      orders := orders[t := orders[t].(live := false)];
      var disputed;
      ok, disputed := DisputeClaimsBeyondEvidence(t, 0.0, []);
      QuietIsExact(wasBills, t, 0.0);
      if !ok {
        bills, orders := wasBills, wasOrders;
      }
    }
  }
}
