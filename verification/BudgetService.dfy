/** The budget service as it runs: evaluating heads row by row, and revising a budget. */
module BudgetService {
  import opened Sums
  import opened Claims
  import opened Positions
  import opened Register

  lemma {:induction false} OneRowChanged(register: seq<Exception>, i: nat, row: Exception, head: Id)
    requires i < |register|
    ensures OpenOn(register[i := row], head) ==
            OpenOn(register, head) - (if register[i].head == head && !register[i].cleared then 1 else 0) +
            if row.head == head && !row.cleared then 1 else 0
  {
    var n := |register|;
    if i < n - 1 {
      OneRowChanged(register[..n - 1], i, row, head);
      assert register[i := row][..n - 1] == register[..n - 1][i := row];
    } else {
      assert register[i := row][..n - 1] == register[..n - 1];
    }
  }

  lemma {:induction false} OpenRowCounts(register: seq<Exception>, i: nat)
    requires i < |register| && !register[i].cleared
    ensures OpenOn(register, register[i].head) >= 1
  {
    if i < |register| - 1 {
      OpenRowCounts(register[..|register| - 1], i);
    }
  }

  lemma {:induction false} NoOpenRow(register: seq<Exception>, head: Id)
    requires forall i :: 0 <= i < |register| && register[i].head == head ==> register[i].cleared
    ensures OpenOn(register, head) == 0
  {
    if |register| > 0 {
      NoOpenRow(register[..|register| - 1], head);
    }
  }

  lemma RowAdded(register: seq<Exception>, row: Exception, head: Id)
    ensures OpenOn(register + [row], head) == OpenOn(register, head) + if row.head == head && !row.cleared then 1 else 0
  {
    assert (register + [row])[..|register|] == register;
  }

  /** Rows are only added, and an old row only ever gains its clearance. */
  predicate AppendOnly(was: seq<Exception>, now: seq<Exception>) {
    |was| <= |now| && forall i :: 0 <= i < |was| ==>
        now[i] == was[i] || (!was[i].cleared && now[i] == was[i].(cleared := true))
  }

  /** A row raised by an evaluation states the breach it found: the live budget and the exposure. */
  predicate Raised(l: Ledger, row: Exception) {
    Breached(l, row.head) && row == Exception(row.head, BudgetOf(l.budgets, row.head), ExposureOf(l, row.head), false)
  }

  /** An evaluation of some heads touches their rows alone: it adds rows stating the breaches it found, and
      clears what is no longer one. */
  lemma {:induction false} EvaluatedWrites(l: Ledger, heads: seq<Id>)
    ensures AppendOnly(l.register, Evaluated(l, heads).register)
    ensures Evaluated(l, heads) == l.(register := Evaluated(l, heads).register)
    ensures forall i :: 0 <= i < |l.register| && (l.register[i].head !in heads || Breached(l, l.register[i].head)) ==>
              Evaluated(l, heads).register[i] == l.register[i]
    ensures forall i :: |l.register| <= i < |Evaluated(l, heads).register| ==>
              Evaluated(l, heads).register[i].head in heads && Raised(l, Evaluated(l, heads).register[i])
  {
    if |heads| > 0 {
      var rest, last := heads[..|heads| - 1], heads[|heads| - 1];
      EvaluatedWrites(l, rest);
      assert heads == rest + [last];
      var before, now := Evaluated(l, rest), Evaluated(l, heads).register;
      SettledWrites(l, before, last, now);
      AppendOnlyTwice(l.register, before.register, now);
    }
  }

  lemma SettledWrites(l: Ledger, before: Ledger, head: Id, now: seq<Exception>)
    requires before == l.(register := before.register) && now == Settled(before, head)
    ensures AppendOnly(before.register, now)
    ensures forall i :: 0 <= i < |before.register| && (before.register[i].head != head || Breached(l, head)) ==>
              now[i] == before.register[i]
    ensures forall i :: |before.register| <= i < |now| ==> now[i].head == head && Raised(l, now[i])
  {
    assert Breached(before, head) == Breached(l, head);
    assert Breached(l, head) ==> ExposureOf(before, head) == ExposureOf(l, head);
  }

  /** A revision appends its amount to the head's chain unless the last is the same; nothing else is
      written but the register. */
  lemma RevisesExactly(l: Ledger, head: Id, amount: nat)
    ensures var chain := if head in l.budgets then l.budgets[head] else [];
            var now := WithBudget(l, head, amount);
            && now.state == l.state && now.carried == l.carried
            && (if |chain| > 0 && chain[|chain| - 1] == amount then now == l
                else now.budgets == l.budgets[head := chain + [amount]])
  {
    var chain := if head in l.budgets then l.budgets[head] else [];
    EvaluatedWrites(l.(budgets := l.budgets[head := chain + [amount]]), [head]);
  }

  /** An attribution takes a line over to its head, in the line's first row, or in a row of its own. */
  lemma AttributesExactly(l: Ledger, t: Target, head: Id, k: nat)
    ensures WithAttribution(l, t, head).state == l.state && WithAttribution(l, t, head).budgets == l.budgets
    ensures (forall i :: 0 <= i < |l.carried| ==> l.carried[i].target != t) ==>
              WithAttribution(l, t, head).carried == l.carried + [Carried(t, head)]
    ensures k < |l.carried| && l.carried[k].target == t && (forall i :: 0 <= i < k ==> l.carried[i].target != t) ==>
              WithAttribution(l, t, head).carried == l.carried[k := Carried(t, head)]
  {
    var r := RowFor(l.carried, t);
    FirstRow(l.carried, t);
    EvaluatedWrites(l.(carried := l.carried + [Carried(t, head)]), [head]);
    if r < |l.carried| {
      EvaluatedWrites(l.(carried := l.carried[r := Carried(t, head)]), [l.carried[r].head, head]);
    }
  }

  lemma {:induction false} FirstRow(carried: seq<Carried>, t: Target)
    ensures forall i :: 0 <= i < RowFor(carried, t) ==> carried[i].target != t
  {
    if |carried| > 0 && carried[0].target != t {
      FirstRow(carried[1..], t);
      forall i | 0 <= i < RowFor(carried, t)
        ensures carried[i].target != t
      {
        assert i > 0 ==> carried[i] == carried[1..][i - 1];
      }
    }
  }

  /** What an evaluation has done once it has settled `done`. */
  ghost predicate Settling(was: Ledger, now: seq<Exception>, done: seq<Id>) {
    && AppendOnly(was.register, now)
    && (forall h ::
          OpenOn(now, h) == if h in done then (if Breached(was, h) then 1 else 0) else OpenOn(was.register, h))
    && (forall i :: 0 <= i < |was.register| && was.register[i].head !in done ==> now[i] == was.register[i])
    && (forall i :: |was.register| <= i < |now| ==> now[i].head in done && Raised(was, now[i]))
  }

  lemma AppendOnlyTwice(a: seq<Exception>, b: seq<Exception>, c: seq<Exception>)
    requires AppendOnly(a, b) && AppendOnly(b, c)
    ensures AppendOnly(a, c)
  {
  }

  /** An old row of no head settled so far, or now, is as it was. */
  lemma OthersStay(was: seq<Exception>, before: seq<Exception>, after: seq<Exception>, done: seq<Id>, code: Id)
    requires |was| <= |before| <= |after|
    requires forall i :: 0 <= i < |was| && was[i].head !in done ==> before[i] == was[i]
    requires forall i :: 0 <= i < |before| && before[i].head != code ==> after[i] == before[i]
    ensures forall i :: 0 <= i < |was| && was[i].head !in done + [code] ==> after[i] == was[i]
  {
    forall i | 0 <= i < |was| && was[i].head !in done + [code]
      ensures after[i] == was[i]
    {
      assert before[i] == was[i];
    }
  }

  lemma NewRowsRaised(was: Ledger, before: seq<Exception>, after: seq<Exception>, done: seq<Id>, code: Id)
    requires |was.register| <= |before| <= |after| && code !in done
    requires forall i :: |was.register| <= i < |before| ==> before[i].head in done && Raised(was, before[i])
    requires forall i :: 0 <= i < |before| && before[i].head != code ==> after[i] == before[i]
    requires forall i :: |before| <= i < |after| ==> after[i].head == code && Raised(was, after[i])
    ensures forall i :: |was.register| <= i < |after| ==> after[i].head in done + [code] && Raised(was, after[i])
  {
    forall i | |was.register| <= i < |after|
      ensures after[i].head in done + [code] && Raised(was, after[i])
    {
      if i < |before| {
        assert before[i].head in done && before[i].head != code;
      }
    }
  }

  /** One more head settled, its rows alone touched. */
  lemma SettlesOneMore(was: Ledger, before: seq<Exception>, after: seq<Exception>, done: seq<Id>, code: Id)
    requires Settling(was, before, done) && code !in done && AppendOnly(before, after)
    requires OpenOn(after, code) == if Breached(was, code) then 1 else 0
    requires forall h :: h != code ==> OpenOn(after, h) == OpenOn(before, h)
    requires forall i :: 0 <= i < |before| && before[i].head != code ==> after[i] == before[i]
    requires forall i :: |before| <= i < |after| ==> after[i].head == code && Raised(was, after[i])
    ensures Settling(was, after, done + [code])
  {
    AppendOnlyTwice(was.register, before, after);
    OthersStay(was.register, before, after, done, code);
    NewRowsRaised(was, before, after, done, code);
    forall h
      ensures OpenOn(after, h) ==
              if h in done + [code] then (if Breached(was, h) then 1 else 0) else OpenOn(was.register, h)
    {
    }
  }

  /** A position's headroom is negative exactly on a breached head. */
  lemma BreachIsNegativeHeadroom(l: Ledger, head: Id, p: Position)
    requires p.exposure == ExposureOf(l, head)
    requires p.budget == if Budgeted(l.budgets, head) then Some(BudgetOf(l.budgets, head)) else None
    requires p.headroom == if p.budget.Some? then Some(p.budget.value - p.exposure) else None
    ensures (p.headroom.Some? && p.headroom.value < 0) <==> Breached(l, head)
    ensures Breached(l, head) ==> Raised(l, Exception(head, p.budget.value, p.exposure, false))
  {
  }

  class Budgets {
    var state: State
    var carried: seq<Carried>
    var budgets: map<Id, seq<nat>>
    var register: seq<Exception>

    constructor (state: State, carried: seq<Carried>)
      ensures Now() == Ledger(state, carried, map[], [])
    {
      this.state, this.carried, budgets, register := state, carried, map[], [];
    }

    function Now(): Ledger
      reads this
    {
      Ledger(state, carried, budgets, register)
    }

    /** The open row of each head, as read once before anything is raised or cleared. */
    method OpenRows() returns (openOf: map<Id, nat>)
      ensures forall h :: h in openOf ==>
              openOf[h] < |register| && register[openOf[h]].head == h && !register[openOf[h]].cleared
      ensures forall h :: h !in openOf ==> OpenOn(register, h) == 0
    {
      openOf := map[];
      for i := 0 to |register|
        invariant forall h :: h in openOf ==>
                  openOf[h] < i && register[openOf[h]].head == h && !register[openOf[h]].cleared
        invariant forall j :: 0 <= j < i && register[j].head !in openOf ==> register[j].cleared
      {
        if !register[i].cleared {
          openOf := openOf[register[i].head := i];
        }
      }
      forall h | h !in openOf
        ensures OpenOn(register, h) == 0
      {
        NoOpenRow(register, h);
      }
    }

    /** Raise, clear, or leave one head. */
    method RaiseOrClear(code: Id, p: Position, open: Option<nat>)
      requires OpenOn(register, code) <= 1
      requires open.Some? ==>
                 open.value < |register| && register[open.value].head == code && !register[open.value].cleared
      requires open.None? ==> OpenOn(register, code) == 0
      requires p.headroom.Some? ==> p.budget.Some?
      modifies this`register
      ensures OpenOn(register, code) == if p.headroom.Some? && p.headroom.value < 0 then 1 else 0
      ensures forall h :: h != code ==> OpenOn(register, h) == OpenOn(old(register), h)
      ensures AppendOnly(old(register), register)
      ensures forall i :: 0 <= i < |old(register)| && old(register)[i].head != code ==> register[i] == old(register)[i]
      ensures forall i :: |old(register)| <= i < |register| ==>
                p.headroom.Some? && p.headroom.value < 0 &&
                    register[i] == Exception(code, p.budget.value, p.exposure, false)
    {
      var breached := p.headroom.Some? && p.headroom.value < 0;
      if breached && open.None? {
        var row := Exception(code, p.budget.value, p.exposure, false);
        forall h
          ensures OpenOn(register + [row], h) == OpenOn(register, h) + if h == code then 1 else 0
        {
          RowAdded(register, row, h);
        }
        register := register + [row];
      } else if !breached && open.Some? {
        OpenRowCounts(register, open.value);
        var row := register[open.value].(cleared := true);
        forall h
          ensures OpenOn(register[open.value := row], h) == OpenOn(register, h) - if h == code then 1 else 0
        {
          OneRowChanged(register, open.value, row, h);
        }
        register := register[open.value := row];
      } else if breached {
        OpenRowCounts(register, open.value);
      }
    }

    /** Raise or clear, once per named head. */
    method Evaluate(heads: seq<Id>)
      requires forall h :: OpenOn(register, h) <= 1
      modifies this`register
      ensures forall h :: OpenOn(register, h) ==
                if h in heads then (if Breached(old(Now()), h) then 1 else 0) else OpenOn(old(register), h)
      ensures AppendOnly(old(register), register)
      ensures forall i :: |old(register)| <= i < |register| ==> Raised(old(Now()), register[i])
    {
      ghost var was := Now();
      var live := map h | h in budgets && |budgets[h]| > 0 :: BudgetOf(budgets, h);
      var positions := PositionsFor(state, carried, live, heads);
      var openOf := OpenRows();
      for k := 0 to |heads|
        invariant Settling(was, register, heads[..k])
      {
        var code := heads[k];
        assert heads[..k + 1] == heads[..k] + [code];
        if code in heads[..k] {
          continue;
        }
        var p := positions[code];
        assert code in heads;
        BreachIsNegativeHeadroom(was, code, p);
        ghost var before := register;
        RaiseOrClear(code, p, if code in openOf then Some(openOf[code]) else None);
        SettlesOneMore(was, before, register, heads[..k], code);
      }
      assert heads[..|heads|] == heads;
    }

    /** A revision supersedes the live version and appends the next; the same amount is no revision.
        The register is right about the head before the transaction ends. */
    method SetBudget(head: Id, amount: nat)
      requires Agrees(Now())
      modifies this`budgets, this`register
      ensures Agrees(Now()) && AppendOnly(old(register), register)
      ensures Budgeted(budgets, head) && BudgetOf(budgets, head) == amount
      ensures var chain := old(if head in budgets then budgets[head] else []);
              budgets[head] == if |chain| > 0 && chain[|chain| - 1] == amount then chain else chain + [amount]
      ensures forall h :: h != head ==>
              (h in budgets <==> h in old(budgets)) && (h in budgets ==> budgets[h] == old(budgets)[h])
    {
      if head in budgets && |budgets[head]| > 0 && BudgetOf(budgets, head) == amount {
        return;
      }
      ghost var was := Now();
      var chain := if head in budgets then budgets[head] else [];
      budgets := budgets[head := chain + [amount]];
      Evaluate([head]);
      forall h | h != head
        ensures Breached(Now(), h) == Breached(was, h)
      {
        assert ExposureOf(Now(), h) == ExposureOf(was, h);
      }
      assert forall h :: h in [head] <==> h == head;
    }
  }
}
