/** The cash-forecast projection: writers, the ordered relay, online rebuilds, and the read that
    serves a generation or falls back to the live compute. `M` is the canonical money state, `D` the
    stored forecast, and `f` the one compute both share. */
module Forecast {
  import opened Sums

  datatype Status = Building | Active | Retired

  /** How far a rebuild's seed has come: the stream head is read before the compute. */
  datatype Seed = Unseeded | HeadRead(through: nat) | Computed(through: nat) | Seeded

  /** `applied` counts the events the generation reflects: its applied position, plus one. */
  datatype Generation<D> = Generation(
    status: Status, seed: Seed, applied: nat, row: Option<D>, live: bool, fenced: bool, version: nat)

  /** `events` says of each event whether its type is one the projection handles; `past` is the money
      after each number of events, ending with the money now. */
  datatype System<M, D> = System(past: seq<M>, events: seq<bool>, generations: seq<Generation<D>>)

  const CATALOG_VERSION := 1

  function Head<M, D>(s: System<M, D>): nat { |s.events| }

  predicate Wellformed<M, D>(s: System<M, D>) { |s.past| == |s.events| + 1 }

  function Money<M, D>(s: System<M, D>): M
    requires Wellformed(s)
  {
    s.past[|s.past| - 1]
  }

  datatype Step<M, D> =
    | Writes(money: M, handled: bool)   // the state and its event commit together
    | Allocates                         // a rebuild opens a building generation
    | ReadsHead(generation: nat)
    | Computes(generation: nat)
    | Checkpoints(generation: nat)
    | Replays(generation: nat)          // one event, in its own transaction
    | Activates(generation: nat)        // the barrier: the residual tail, then the swap
    | Bootstraps                        // a first delivery opens an empty active generation
    | Relays(position: nat)             // one ordered delivery
    | Blocks                            // an earlier position is dead
    | TouchedByLegacy(generation: nat, row: D)
    | BuiltByLegacy(row: D, applied: nat)

  function With<M, D>(s: System<M, D>, g: nat, generation: Generation<D>): System<M, D>
    requires g < |s.generations|
  {
    s.(generations := s.generations[g := generation])
  }

  /** Apply one event: a handled type recomputes from the money now, any other only advances. */
  function Applied<M, D>(s: System<M, D>, f: M -> D, g: Generation<D>): Generation<D>
    requires Wellformed(s)
  {
    if g.applied >= Head(s) then g
    else if s.events[g.applied] then g.(applied := g.applied + 1, row := Some(f(Money(s))))
    else g.(applied := g.applied + 1)
  }

  function CaughtUp<M, D>(s: System<M, D>, f: M -> D, g: Generation<D>): Generation<D>
    requires Wellformed(s)
    decreases if g.applied < Head(s) then Head(s) - g.applied else 0
  {
    if g.applied >= Head(s) then g else CaughtUp(s, f, Applied(s, f, g))
  }

  function Retire<D>(g: Generation<D>): Generation<D> { if g.status == Active then g.(status := Retired) else g }

  function RetireAll<D>(generations: seq<Generation<D>>): (r: seq<Generation<D>>)
    ensures |r| == |generations|
    ensures forall i :: 0 <= i < |r| ==> r[i] == Retire(generations[i])
  {
    seq(|generations|, i requires 0 <= i < |generations| => Retire(generations[i]))
  }

  predicate AnyActive<D>(generations: seq<Generation<D>>) {
    exists i :: 0 <= i < |generations| && generations[i].status == Active
  }

  function ActiveOf<D>(generations: seq<Generation<D>>): (g: Option<nat>)
    ensures g.Some? ==> g.value < |generations| && generations[g.value].status == Active
    ensures g.None? ==> !AnyActive(generations)
  {
    if |generations| == 0 then None
    else if generations[|generations| - 1].status == Active then Some(|generations| - 1)
    else ActiveOf(generations[..|generations| - 1])
  }

  /** A step that is not enabled does nothing. */
  function Next<M, D>(s: System<M, D>, f: M -> D, step: Step<M, D>): System<M, D>
    requires Wellformed(s)
  {
    match step
    case Writes(money, handled) => s.(past := s.past + [money], events := s.events + [handled])
    case Allocates => s.(generations :=
        s.generations + [Generation(Building, Unseeded, 0, None, true, false, CATALOG_VERSION)])
    case ReadsHead(g) =>
      if g < |s.generations| && s.generations[g].status == Building && s.generations[g].seed == Unseeded
      then With(s, g, s.generations[g].(seed := HeadRead(Head(s)))) else s
    case Computes(g) =>
      if g < |s.generations| && s.generations[g].status == Building && s.generations[g].seed.HeadRead?
      then With(s, g, s.generations[g].(seed := Computed(s.generations[g].seed.through), row := Some(f(Money(s)))))
      else s
    case Checkpoints(g) =>
      if g < |s.generations| && s.generations[g].status == Building && s.generations[g].seed.Computed?
      then With(s, g, s.generations[g].(seed := Seeded, applied := s.generations[g].seed.through)) else s
    case Replays(g) =>
      if g < |s.generations| && s.generations[g].status == Building && s.generations[g].seed == Seeded
      then With(s, g, Applied(s, f, s.generations[g])) else s
    case Activates(g) =>
      if g < |s.generations| && s.generations[g].status == Building && s.generations[g].seed == Seeded
      then s.(generations :=
          RetireAll(s.generations)[g := CaughtUp(s, f, s.generations[g]).(status := Active, live := true)])
      else s
    case Bootstraps =>
      if AnyActive(s.generations) then s
      else s.(generations := s.generations + [Generation(Active, Seeded, 0, None, true, false, CATALOG_VERSION)])
    case Relays(position) => (
      match ActiveOf(s.generations)
      case None => s
      case Some(g) =>
        if position != s.generations[g].applied then s
        else With(s, g, Applied(s, f, s.generations[g]).(live := s.generations[g].live || position < Head(s)))
    )
    case Blocks => (
      match ActiveOf(s.generations)
      case None => s
      case Some(g) => With(s, g, s.generations[g].(live := false))
    )
    case TouchedByLegacy(g, row) =>
      if g < |s.generations| then With(s, g, s.generations[g].(row := Some(row), fenced := true)) else s
    case BuiltByLegacy(row, applied) =>
      s.(generations := RetireAll(s.generations) + [Generation(Active, Seeded, applied, Some(row), true, false, 0)])
  }

  /** The one assumption about writers: an event of a type the projection ignores comes with a write
      that leaves the forecast as it was. */
  ghost predicate Announced<M, D>(s: System<M, D>, f: M -> D, step: Step<M, D>)
    requires Wellformed(s)
  {
    step.Writes? && !step.handled ==> f(step.money) == f(Money(s))
  }

  // ── the read ─────────────────────────────────────────────────────────────────────────────────

  /** The active generation, if it is safe to serve. */
  predicate Servable<M, D>(s: System<M, D>, g: Generation<D>) {
    g.status == Active && !g.fenced && g.live && g.applied > 0 && g.version >= CATALOG_VERSION && g.applied >= Head(s)
  }

  function Served<M, D>(s: System<M, D>, f: M -> D): D
    requires Wellformed(s)
  {
    match ActiveOf(s.generations)
    case None => f(Money(s))
    case Some(g) =>
      if Servable(s, s.generations[g]) && s.generations[g].row.Some? then s.generations[g].row.value else f(Money(s))
  }

  // ── the invariant ────────────────────────────────────────────────────────────────────────────

  ghost predicate HistoryOk<M, D>(s: System<M, D>, f: M -> D) {
    Wellformed(s) && forall i :: 0 <= i < |s.events| && !s.events[i] ==> f(s.past[i + 1]) == f(s.past[i])
  }

  /** A row reflects at least `applied` events: it is the forecast of the money at some later count. */
  ghost predicate Reflects<M, D>(past: seq<M>, f: M -> D, row: D, applied: nat, p: nat) {
    applied <= p < |past| && row == f(past[p])
  }

  /** The events a generation will claim to reflect once seeded. */
  function Claims<D>(g: Generation<D>): nat {
    match g.seed case Unseeded => 0 case HeadRead(h) => h case Computed(h) => h case Seeded => g.applied
  }

  ghost predicate GenerationOk<M, D>(s: System<M, D>, f: M -> D, g: Generation<D>)
    requires Wellformed(s)
  {
    g.fenced || g.version < CATALOG_VERSION ||
    (Claims(g) <= Head(s) && (g.seed.Unseeded? || g.seed.HeadRead? ==> g.row.None?) && (g.row.Some? ==>
        exists p :: Reflects(s.past, f, g.row.value, Claims(g), p)))
  }

  ghost predicate Sound<M, D>(s: System<M, D>, f: M -> D) {
    HistoryOk(s, f) && forall i :: 0 <= i < |s.generations| ==> GenerationOk(s, f, s.generations[i])
  }

  lemma WriteKeeps<M, D>(s: System<M, D>, f: M -> D, money: M, handled: bool, g: Generation<D>)
    requires HistoryOk(s, f) && GenerationOk(s, f, g) && (!handled ==> f(money) == f(Money(s)))
    ensures HistoryOk(Next(s, f, Writes(money, handled)), f)
    ensures GenerationOk(Next(s, f, Writes(money, handled)), f, g)
  {
    var next := Next(s, f, Writes(money, handled));
    if !g.fenced && g.version >= CATALOG_VERSION && g.row.Some? {
      var p: nat :| Reflects(s.past, f, g.row.value, Claims(g), p);
      assert Reflects(next.past, f, g.row.value, Claims(g), p);
    }
  }

  lemma AppliedKeeps<M, D>(s: System<M, D>, f: M -> D, g: Generation<D>)
    requires HistoryOk(s, f) && GenerationOk(s, f, g) && g.seed == Seeded
    ensures GenerationOk(s, f, Applied(s, f, g)) && Applied(s, f, g).seed == Seeded
  {
    if !g.fenced && g.version >= CATALOG_VERSION && g.applied < Head(s) {
      if s.events[g.applied] {
        assert Reflects(s.past, f, f(Money(s)), g.applied + 1, Head(s));
      } else if g.row.Some? {
        var p: nat :| Reflects(s.past, f, g.row.value, g.applied, p);
        assert Reflects(s.past, f, g.row.value, g.applied + 1, if p == g.applied then p + 1 else p);
      }
    }
  }

  lemma {:induction false} CaughtUpKeeps<M, D>(s: System<M, D>, f: M -> D, g: Generation<D>)
    requires HistoryOk(s, f) && GenerationOk(s, f, g) && g.seed == Seeded
    ensures GenerationOk(s, f, CaughtUp(s, f, g)) && CaughtUp(s, f, g).seed == Seeded
    ensures CaughtUp(s, f, g).applied >= Head(s)
    decreases if g.applied < Head(s) then Head(s) - g.applied else 0
  {
    if g.applied < Head(s) {
      AppliedKeeps(s, f, g);
      CaughtUpKeeps(s, f, Applied(s, f, g));
    }
  }

  /** Only a seeded generation is ever active. */
  predicate ActiveSeeded<D>(generations: seq<Generation<D>>) {
    forall i :: 0 <= i < |generations| && generations[i].status == Active ==> generations[i].seed == Seeded
  }

  lemma GenerationKeeps<M, D>(s: System<M, D>, f: M -> D, step: Step<M, D>, i: nat)
    requires Sound(s, f) && ActiveSeeded(s.generations) && Announced(s, f, step) && Wellformed(Next(s, f, step))
    requires i < |Next(s, f, step).generations|
    ensures GenerationOk(Next(s, f, step), f, Next(s, f, step).generations[i])
  {
    if i < |s.generations| {
      var g := s.generations[i];
      assert GenerationOk(s, f, g);
      match step
      case Writes(money, handled) => WriteKeeps(s, f, money, handled, g);
      case Computes(_) => assert g.seed.HeadRead? && g.seed.through <= Head(s) ==>
          Reflects(s.past, f, f(Money(s)), g.seed.through, Head(s));
      case Replays(_) => if g.seed == Seeded { AppliedKeeps(s, f, g); }
      case Activates(_) => if g.seed == Seeded { CaughtUpKeeps(s, f, g); }
      case Relays(_) => if g.seed == Seeded { AppliedKeeps(s, f, g); }
      case _ =>
    }
  }

  lemma StepKeeps<M, D>(s: System<M, D>, f: M -> D, step: Step<M, D>)
    requires Sound(s, f) && ActiveSeeded(s.generations) && Announced(s, f, step)
    ensures Wellformed(Next(s, f, step)) && Sound(Next(s, f, step), f) && ActiveSeeded(Next(s, f, step).generations)
  {
    var next := Next(s, f, step);
    if step.Writes? {
      assert GenerationOk(s, f, Generation(Building, Unseeded, 0, None, true, false, CATALOG_VERSION));
      WriteKeeps(s, f, step.money, step.handled, Generation(Building, Unseeded, 0, None, true, false, CATALOG_VERSION));
    }
    forall i | 0 <= i < |next.generations|
      ensures GenerationOk(next, f, next.generations[i])
    {
      GenerationKeeps(s, f, step, i);
    }
    if step.Activates? && step.generation < |s.generations| && s.generations[step.generation].seed == Seeded {
      CaughtUpKeeps(s, f, s.generations[step.generation]);
    }
  }

  /** The states a run of steps reaches, as long as its writers announce what they move. */
  ghost predicate Runs<M(!new), D(!new)>(s: System<M, D>, f: M -> D, run: seq<Step<M, D>>, last: System<M, D>)
    decreases |run|
  {
    Wellformed(s) &&
    if |run| == 0 then last == s
    else Announced(s, f, run[0]) && Runs(Next(s, f, run[0]), f, run[1..], last)
  }

  function Started<M, D>(money: M): System<M, D> { System([money], [], []) }

  lemma {:induction false} RunKeeps<M(!new), D(!new)>(
      s: System<M, D>, f: M -> D, run: seq<Step<M, D>>, last: System<M, D>)
    requires Sound(s, f) && ActiveSeeded(s.generations) && Runs(s, f, run, last)
    ensures Sound(last, f) && ActiveSeeded(last.generations)
    decreases |run|
  {
    if |run| > 0 {
      StepKeeps(s, f, run[0]);
      RunKeeps(Next(s, f, run[0]), f, run[1..], last);
    }
  }

  /** THE SERVED FORECAST IS THE LIVE COMPUTE, in every interleaving of writers, relay deliveries,
      rebuilds, bootstraps, blocked cursors and writers of an older release. */
  lemma ServedIsLive<M(!new), D(!new)>(money: M, f: M -> D, run: seq<Step<M, D>>, last: System<M, D>)
    requires Runs(Started(money), f, run, last)
    ensures Wellformed(last) && Served(last, f) == f(Money(last))
  {
    RunKeeps(Started(money), f, run, last);
    match ActiveOf(last.generations)
    case None =>
    case Some(g) =>
      assert GenerationOk(last, f, last.generations[g]);
  }

  // ── when the projection is what answers ──────────────────────────────────────────────────────

  predicate OneActive<D>(generations: seq<Generation<D>>) {
    forall i, j :: 0 <= i < j < |generations| ==> generations[i].status != Active || generations[j].status != Active
  }

  lemma StepKeepsOneActive<M, D>(s: System<M, D>, f: M -> D, step: Step<M, D>)
    requires Wellformed(s) && OneActive(s.generations)
    ensures OneActive(Next(s, f, step).generations)
  {
    if step.Activates? && step.generation < |s.generations| && s.generations[step.generation].seed == Seeded {
      CaughtUpIs(s, f, s.generations[step.generation]);
    }
  }

  /** At most one generation is active, in every run. */
  lemma {:induction false} OneActiveInEveryRun<M(!new), D(!new)>(
      s: System<M, D>, f: M -> D, run: seq<Step<M, D>>, last: System<M, D>)
    requires OneActive(s.generations) && Runs(s, f, run, last)
    ensures OneActive(last.generations)
    decreases |run|
  {
    if |run| > 0 {
      StepKeepsOneActive(s, f, run[0]);
      OneActiveInEveryRun(Next(s, f, run[0]), f, run[1..], last);
    }
  }

  /** THE READ. The one active generation's row answers, whatever it holds, when nothing of an older
      release wrote it, its cursor is not blocked, it has come to the head and past nothing, and it is of
      this version; otherwise, and when none is active, the forecast is computed from the money now. */
  lemma ServedExactly<M, D>(s: System<M, D>, f: M -> D, g: nat)
    requires Wellformed(s) && OneActive(s.generations) && g < |s.generations| && s.generations[g].status == Active
    ensures var it := s.generations[g];
            Served(s, f) ==
            if !it.fenced && it.live && it.applied > 0 && it.applied >= |s.events| && it.version >= 1 && it.row.Some?
            then it.row.value else f(s.past[|s.events|])
  {
    assert ActiveOf(s.generations) == Some(g);
  }

  lemma ComputedExactly<M, D>(s: System<M, D>, f: M -> D)
    requires Wellformed(s) && forall g :: 0 <= g < |s.generations| ==> s.generations[g].status != Active
    ensures Served(s, f) == f(s.past[|s.events|])
  {
  }

  /** Catching up comes to the head, recomputing the row from the money now if any event that was behind
      is of a handled type, and leaving it otherwise. */
  lemma {:induction false} CaughtUpIs<M, D>(s: System<M, D>, f: M -> D, g: Generation<D>)
    requires Wellformed(s)
    ensures CaughtUp(s, f, g) == g.(
              applied := if g.applied < |s.events| then |s.events| else g.applied,
              row := if exists k :: g.applied <= k < |s.events| && s.events[k]
                     then Some(f(s.past[|s.events|])) else g.row)
    decreases if g.applied < Head(s) then Head(s) - g.applied else 0
  {
    if g.applied < Head(s) {
      CaughtUpIs(s, f, Applied(s, f, g));
      if s.events[g.applied] {
        assert exists k :: g.applied <= k < |s.events| && s.events[k];
      }
      if exists k :: g.applied <= k < |s.events| && s.events[k] {
        var k :| g.applied <= k < |s.events| && s.events[k];
        assert k == g.applied || g.applied + 1 <= k;
      }
    }
  }

  /** The tail of a rebuild: writes that commit before the barrier. */
  ghost predicate AllWrites<M(!new), D(!new)>(run: seq<Step<M, D>>) { forall i :: 0 <= i < |run| ==> run[i].Writes? }

  lemma {:induction false} WritesLeaveGenerations<M(!new), D(!new)>(
      s: System<M, D>, f: M -> D, run: seq<Step<M, D>>, last: System<M, D>)
    requires Wellformed(s) && AllWrites(run) && Runs(s, f, run, last)
    ensures Wellformed(last) && last.generations == s.generations && |last.events| == |s.events| + |run|
    decreases |run|
  {
    if |run| > 0 {
      WritesLeaveGenerations(Next(s, f, run[0]), f, run[1..], last);
    }
  }

  /** The generation a rebuild opens, seeded from the state `s`. */
  function SeededFrom<M, D>(s: System<M, D>, f: M -> D): System<M, D>
    requires Wellformed(s)
  {
    var g := |s.generations|;
    Next(Next(Next(Next(s, f, Allocates), f, ReadsHead(g)), f, Computes(g)), f, Checkpoints(g))
  }

  /** A REBUILD ENDS IN SERVING. Whatever the generations were and whatever is written before its barrier,
      the generation a rebuild activates is alone active, at the head, and its row is what answers. */
  lemma RebuildServes<M(!new), D(!new)>(s: System<M, D>, f: M -> D, run: seq<Step<M, D>>, last: System<M, D>)
    requires Wellformed(s) && |s.events| + |run| > 0 && OneActive(s.generations)
    requires AllWrites(run) && Wellformed(SeededFrom(s, f)) && Runs(SeededFrom(s, f), f, run, last)
    ensures Wellformed(last)
    ensures var after := Next(last, f, Activates(|s.generations|)); var g := |s.generations|;
            && |after.generations| == g + 1 && after.generations[g].status == Active && OneActive(after.generations)
            && after.generations[g].applied == |after.events| && after.generations[g].row.Some?
            && Wellformed(after) && Served(after, f) == after.generations[g].row.value
  {
    var g, seeded := |s.generations|, SeededFrom(s, f);
    assert seeded.generations[g] ==
           Generation(Building, Seeded, |s.events|, Some(f(Money(s))), true, false, CATALOG_VERSION);
    WritesLeaveGenerations(seeded, f, run, last);
    CaughtUpIs(last, f, last.generations[g]);
    assert OneActive(seeded.generations);
    StepKeepsOneActive(last, f, Activates(g));
    ServedExactly(Next(last, f, Activates(g)), f, g);
  }

  /** Deliveries are applied in order and once: any other position changes nothing, and delivering one
      again changes nothing. */
  lemma DeliveredOnce<M, D>(s: System<M, D>, f: M -> D, position: nat, g: nat)
    requires Wellformed(s) && OneActive(s.generations) && g < |s.generations| && s.generations[g].status == Active
    ensures position != s.generations[g].applied ==> Next(s, f, Relays(position)) == s
    ensures position == s.generations[g].applied < |s.events| ==>
              && Next(s, f, Relays(position)).generations[g].applied == position + 1
              && Next(s, f, Relays(position)).generations[g].live
              && Next(s, f, Relays(position)).generations[g].row ==
                 (if s.events[position] then Some(f(s.past[|s.events|])) else s.generations[g].row)
              && Next(Next(s, f, Relays(position)), f, Relays(position)) == Next(s, f, Relays(position))
  {
    assert ActiveOf(s.generations) == Some(g);
    if position == s.generations[g].applied < |s.events| {
      var after := Next(s, f, Relays(position));
      assert OneActive(after.generations) && after.generations[g].status == Active;
      assert ActiveOf(after.generations) == Some(g);
    }
  }

  /** A row an older release wrote, and a cursor an earlier position blocks, are not served. */
  lemma NotServed<M, D>(s: System<M, D>, f: M -> D, g: nat, row: D, applied: nat)
    requires Wellformed(s) && OneActive(s.generations) && g < |s.generations| && s.generations[g].status == Active
    ensures Served(Next(s, f, TouchedByLegacy(g, row)), f) == f(s.past[|s.events|])
    ensures Served(Next(s, f, Blocks), f) == f(s.past[|s.events|])
    ensures Served(Next(s, f, BuiltByLegacy(row, applied)), f) == f(s.past[|s.events|])
  {
    assert ActiveOf(s.generations) == Some(g);
    ServedExactly(Next(s, f, TouchedByLegacy(g, row)), f, g);
    ServedExactly(Next(s, f, Blocks), f, g);
    StepKeepsOneActive(s, f, BuiltByLegacy(row, applied));
    ServedExactly(Next(s, f, BuiltByLegacy(row, applied)), f, |s.generations|);
  }

  // ── the seed the other way round ─────────────────────────────────────────────────────────────

  function ComputesFirst<M, D>(s: System<M, D>, f: M -> D, g: nat): System<M, D>
    requires Wellformed(s) && g < |s.generations|
  {
    With(s, g, s.generations[g].(row := Some(f(Money(s)))))
  }

  function ReadsHeadLast<M, D>(s: System<M, D>, g: nat): System<M, D>
    requires g < |s.generations|
  {
    With(s, g, s.generations[g].(seed := Seeded, applied := Head(s)))
  }

  /** A rebuild that computes, lets a write commit, reads the head, and is activated. */
  function SeededBackwards<M, D>(money: M, later: M, f: M -> D): System<M, D> {
    var begun := Next(Started(money), f, Allocates);
    var written := Next(ComputesFirst(begun, f, 0), f, Writes(later, true));
    Next(ReadsHeadLast(written, 0), f, Activates(0))
  }

  /** The write that falls between is counted as reflected, so the generation serves the forecast from
      before it: it is live if and only if the write moved nothing. */
  lemma HeadMustBeReadFirst<M, D>(money: M, later: M, f: M -> D)
    ensures Wellformed(SeededBackwards(money, later, f)) && Money(SeededBackwards(money, later, f)) == later
    ensures Served(SeededBackwards(money, later, f), f) == f(money)
  {
    var s := SeededBackwards(money, later, f);
    assert s.generations == [Generation(Active, Seeded, 1, Some(f(money)), true, false, CATALOG_VERSION)];
  }
}
