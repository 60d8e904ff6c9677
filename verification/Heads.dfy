/** Requirement lineages and the two loaders that read their head revisions: labour picks the head
    and then scopes, material scopes and then picks the head. */
module Heads {
  import opened Sums

  type Id = nat

  datatype Kind = Material | Labour

  /** One revision row; a cancellation is a revision of its own. */
  datatype Revision = Revision(requirement: Id, revision: nat, activity: Id, kind: Kind, cancelled: bool)

  // ── lineages ─────────────────────────────────────────────────────────────────────────────────

  datatype Op =
    | Creates(requirement: Id, activity: Id, kind: Kind)
    | Revises(requirement: Id, expected: nat, activity: Id)
    | Cancels(requirement: Id, expected: nat)

  /** The row the lineage lock reads: the highest revision. */
  function HeadOf(rows: seq<Revision>, requirement: Id): (h: Option<Revision>)
    ensures h.Some? ==> h.value in rows && h.value.requirement == requirement
    ensures h.Some? ==> forall r :: r in rows && r.requirement == requirement ==> r.revision <= h.value.revision
    ensures h.None? ==> forall r :: r in rows ==> r.requirement != requirement
  {
    if |rows| == 0 then None else
    var last, before := rows[|rows| - 1], HeadOf(rows[..|rows| - 1], requirement);
    assert rows == rows[..|rows| - 1] + [last];
    if last.requirement == requirement && (before.None? || last.revision > before.value.revision) then Some(last)
    else before
  }

  function Next(rows: seq<Revision>, op: Op): seq<Revision> {
    match op
    case Creates(requirement, activity, kind) =>
      if HeadOf(rows, requirement).Some? then rows else rows + [Revision(requirement, 1, activity, kind, false)]
    case Revises(requirement, expected, activity) => (
      match HeadOf(rows, requirement)
      case None => rows
      case Some(h) =>
        if h.revision != expected || h.cancelled then rows
        else rows + [Revision(requirement, h.revision + 1, activity, h.kind, false)]
    )
    case Cancels(requirement, expected) => (
      match HeadOf(rows, requirement)
      case None => rows
      case Some(h) =>
        if h.revision != expected || h.cancelled then rows
        else rows + [Revision(requirement, h.revision + 1, h.activity, h.kind, true)]
    )
  }

  /** A requirement is created once. It is revised or cancelled from the head the caller expected, while
      that is no cancellation: the new row is the next number, of the head's kind, and a cancellation
      stays on the head's activity. */
  lemma OpsExactly(rows: seq<Revision>, h: Revision, requirement: Id, expected: nat, activity: Id, kind: Kind)
    requires Lineage(rows)
    ensures Next(rows, Creates(requirement, activity, kind)) ==
            if exists r :: r in rows && r.requirement == requirement then rows
            else rows + [Revision(requirement, 1, activity, kind, false)]
    ensures IsHead(rows, h) ==>
              Next(rows, Revises(h.requirement, expected, activity)) ==
              if expected == h.revision && !h.cancelled
              then rows + [Revision(h.requirement, expected + 1, activity, h.kind, false)] else rows
    ensures IsHead(rows, h) ==>
              Next(rows, Cancels(h.requirement, expected)) ==
              if expected == h.revision && !h.cancelled
              then rows + [Revision(h.requirement, expected + 1, h.activity, h.kind, true)] else rows
  {
    if IsHead(rows, h) {
      var head := HeadOf(rows, h.requirement);
      assert head.Some?;
      LineageOrders(rows, head.value, h);
    }
  }

  /** A later revision of a requirement has a higher number and the same kind, and follows no
      cancellation. */
  predicate Lineage(rows: seq<Revision>) {
    forall i, j :: 0 <= i < j < |rows| && rows[i].requirement == rows[j].requirement ==>
      rows[i].revision < rows[j].revision && rows[i].kind == rows[j].kind && !rows[i].cancelled
  }

  lemma OpKeepsLineage(rows: seq<Revision>, op: Op)
    requires Lineage(rows)
    ensures Lineage(Next(rows, op))
  {
    var h := HeadOf(rows, op.requirement);
    forall i | 0 <= i < |rows| && rows[i].requirement == op.requirement
      ensures h.Some? && rows[i].revision <= h.value.revision && rows[i].kind == h.value.kind && (rows[i].cancelled ==>
                h.value.cancelled)
    {
      assert rows[i] in rows;
      var k :| 0 <= k < |rows| && rows[k] == h.value;
    }
  }

  function Recorded(ops: seq<Op>): seq<Revision> {
    if |ops| == 0 then [] else Next(Recorded(ops[..|ops| - 1]), ops[|ops| - 1])
  }

  lemma {:induction false} RecordedLineage(ops: seq<Op>)
    ensures Lineage(Recorded(ops))
  {
    if |ops| > 0 {
      RecordedLineage(ops[..|ops| - 1]);
      OpKeepsLineage(Recorded(ops[..|ops| - 1]), ops[|ops| - 1]);
    }
  }

  /** Rows of one lineage are told apart by revision, and the last is the only one that may be a
      cancellation. */
  lemma LineageOrders(rows: seq<Revision>, a: Revision, b: Revision)
    requires Lineage(rows) && a in rows && b in rows && a.requirement == b.requirement
    ensures a.kind == b.kind
    ensures a.revision == b.revision ==> a == b
    ensures a.revision < b.revision ==> !a.cancelled
  {
    var i :| 0 <= i < |rows| && rows[i] == a;
    var j :| 0 <= j < |rows| && rows[j] == b;
  }

  // ── what the loaders return ──────────────────────────────────────────────────────────────────

  predicate IsHead(rows: seq<Revision>, r: Revision) {
    r in rows && forall q :: q in rows && q.requirement == r.requirement ==> q.revision <= r.revision
  }

  function OfKind(kind: Kind): Revision -> bool { (r: Revision) => r.kind == kind }

  function OfKindIn(kind: Kind, scope: set<Id>): Revision -> bool {
    (r: Revision) => r.kind == kind && r.activity in scope
  }

  /** The open heads among some rows. */
  function OpenHeads(rows: seq<Revision>): set<Revision> {
    set r | r in rows && IsHead(rows, r) && !r.cancelled
  }

  /** Every open requirement of a kind in the project. */
  function FullLoad(rows: seq<Revision>, kind: Kind): set<Revision> { OpenHeads(Filter(rows, OfKind(kind))) }

  function Restricted(loaded: set<Revision>, scope: set<Id>): set<Revision> {
    set r | r in loaded && r.activity in scope
  }

  /** Scope first, head after. */
  function ScopedFirst(rows: seq<Revision>, kind: Kind, scope: set<Id>): set<Revision> {
    OpenHeads(Filter(rows, OfKindIn(kind, scope)))
  }

  lemma InFilter(rows: seq<Revision>, p: Revision -> bool, r: Revision)
    ensures r in Filter(rows, p) <==> r in rows && p(r)
  {
  }

  /** In a lineage the head of the rows of its kind is the head of all its rows. */
  lemma FullLoadIs(rows: seq<Revision>, kind: Kind, r: Revision)
    requires Lineage(rows)
    ensures r in FullLoad(rows, kind) <==> r.kind == kind && IsHead(rows, r) && !r.cancelled
  {
    var of := Filter(rows, OfKind(kind));
    InFilter(rows, OfKind(kind), r);
    if r in of && r in rows {
      forall q | q in rows && q.requirement == r.requirement
        ensures q in of
      {
        LineageOrders(rows, q, r);
        InFilter(rows, OfKind(kind), q);
      }
    }
  }

  /** No requirement with a revision in scope has its head outside it. */
  ghost predicate NoneMovedOut(rows: seq<Revision>, kind: Kind, scope: set<Id>) {
    forall r, h ::
      r in rows && r.kind == kind && r.activity in scope && IsHead(rows, h) && h.requirement == r.requirement ==>
      h.activity in scope
  }

  lemma ScopedHeadIs(rows: seq<Revision>, kind: Kind, scope: set<Id>, r: Revision)
    requires Lineage(rows)
    ensures r in ScopedFirst(rows, kind, scope) <==>
            r in rows && r.kind == kind && r.activity in scope && !r.cancelled &&
            forall q :: q in rows && q.requirement == r.requirement && q.activity in scope ==> q.revision <= r.revision
  {
    var of := Filter(rows, OfKindIn(kind, scope));
    InFilter(rows, OfKindIn(kind, scope), r);
    if r in of {
      forall q
        ensures q in of && q.requirement == r.requirement <==>
                q in rows && q.requirement == r.requirement && q.activity in scope
      {
        InFilter(rows, OfKindIn(kind, scope), q);
        if q in rows && q.requirement == r.requirement {
          LineageOrders(rows, q, r);
        }
      }
    }
  }

  /** Some revision in scope with the highest number among those in scope. */
  lemma {:induction false} BestInScope(rows: seq<Revision>, scope: set<Id>, r: Revision) returns (best: Revision)
    requires r in rows && r.activity in scope
    ensures best in rows && best.requirement == r.requirement && best.activity in scope
    ensures forall q :: q in rows && q.requirement == r.requirement && q.activity in scope ==>
            q.revision <= best.revision
  {
    var last, rest := rows[|rows| - 1], rows[..|rows| - 1];
    assert rows == rest + [last];
    if r in rest {
      best := BestInScope(rest, scope, r);
      if last.requirement == r.requirement && last.activity in scope && last.revision > best.revision {
        best := last;
      }
    } else {
      best := r;
      if q :| q in rest && q.requirement == r.requirement && q.activity in scope {
        best := BestInScope(rest, scope, q);
        if r.revision > best.revision {
          best := r;
        }
      }
    }
  }

  /** SCOPING FIRST IS RIGHT EXACTLY WHEN NOTHING MOVED OUT. The material loader, scoped to some
      activities, agrees with its full load restricted to them if and only if no requirement that ever
      had a revision on one of them now belongs elsewhere; a moved requirement's stale revision is
      otherwise taken for an open head. */
  lemma ScopedFirstExactly(rows: seq<Revision>, kind: Kind, scope: set<Id>)
    requires Lineage(rows)
    ensures ScopedFirst(rows, kind, scope) == Restricted(FullLoad(rows, kind), scope) <==>
            NoneMovedOut(rows, kind, scope)
  {
    if NoneMovedOut(rows, kind, scope) {
      forall r
        ensures r in ScopedFirst(rows, kind, scope) <==> r in Restricted(FullLoad(rows, kind), scope)
      {
        NothingMovedAgrees(rows, kind, scope, r);
      }
    } else {
      var r, h :| r in rows && r.kind == kind && r.activity in scope && IsHead(rows, h) &&
          h.requirement == r.requirement && h.activity !in scope;
      var best := BestInScope(rows, scope, r);
      LineageOrders(rows, best, h);
      LineageOrders(rows, best, r);
      ScopedHeadIs(rows, kind, scope, best);
      FullLoadIs(rows, kind, best);
      assert best in ScopedFirst(rows, kind, scope) && best !in Restricted(FullLoad(rows, kind), scope);
    }
  }

  lemma NothingMovedAgrees(rows: seq<Revision>, kind: Kind, scope: set<Id>, r: Revision)
    requires Lineage(rows) && NoneMovedOut(rows, kind, scope)
    ensures r in ScopedFirst(rows, kind, scope) <==> r in Restricted(FullLoad(rows, kind), scope)
  {
    ScopedHeadIs(rows, kind, scope, r);
    FullLoadIs(rows, kind, r);
    if r in ScopedFirst(rows, kind, scope) {
      var h := HeadOf(rows, r.requirement);
      assert h.Some? && IsHead(rows, h.value);
      assert h.value.activity in scope;
      LineageOrders(rows, h.value, r);
    }
  }

  const FIRST := Revision(0, 1, 1, Material, false)
  const SECOND := Revision(0, 2, 2, Material, false)

  lemma MovedRows()
    ensures Recorded([Creates(0, 1, Material), Revises(0, 1, 2)]) == [FIRST, SECOND]
  {
    var ops := [Creates(0, 1, Material), Revises(0, 1, 2)];
    assert [Creates(0, 1, Material)][..0] == [];
    assert Recorded([Creates(0, 1, Material)]) == [FIRST];
    assert ops[..1] == [Creates(0, 1, Material)];
    assert [FIRST][..0] == [];
    assert HeadOf([FIRST], 0) == Some(FIRST);
  }

  lemma SecondIsElsewhere()
    ensures Lineage([FIRST, SECOND]) && !NoneMovedOut([FIRST, SECOND], Material, {1})
  {
    assert IsHead([FIRST, SECOND], SECOND) && FIRST in [FIRST, SECOND];
  }

  /** A requirement revised from activity 1 to activity 2: scoped to activity 1, the stale revision is
      loaded as open demand there. */
  lemma MovedRequirementIsResurrected()
    ensures ScopedFirst(Recorded([Creates(0, 1, Material), Revises(0, 1, 2)]), Material, {1}) !=
            Restricted(FullLoad(Recorded([Creates(0, 1, Material), Revises(0, 1, 2)]), Material), {1})
  {
    MovedRows();
    SecondIsElsewhere();
    ScopedFirstExactly([FIRST, SECOND], Material, {1});
  }

  // ── the loaders as they run ──────────────────────────────────────────────────────────────────

  /** One pass that keeps each requirement's highest revision. */
  method HeadMap(rows: seq<Revision>) returns (head: map<Id, Revision>)
    ensures forall k :: k in head ==> head[k] in rows && head[k].requirement == k && IsHead(rows, head[k])
    ensures forall r :: r in rows ==> r.requirement in head
  {
    head := map[];
    for i := 0 to |rows|
      invariant forall k :: k in head ==> head[k] in rows[..i] && head[k].requirement == k && IsHead(rows[..i], head[k])
      invariant forall r :: r in rows[..i] ==> r.requirement in head
    {
      var r := rows[i];
      assert rows[..i + 1] == rows[..i] + [r];
      if r.requirement !in head || r.revision > head[r.requirement].revision {
        head := head[r.requirement := r];
      }
    }
    assert rows[..|rows|] == rows;
  }

  lemma FilterLineage(rows: seq<Revision>, p: Revision -> bool, a: Revision, b: Revision)
    requires Lineage(rows) && a in Filter(rows, p) && b in Filter(rows, p)
    requires a.requirement == b.requirement && a.revision == b.revision
    ensures a == b
  {
    InFilter(rows, p, a);
    InFilter(rows, p, b);
    LineageOrders(rows, a, b);
  }

  /** Head first, across every revision in the project; then the scope, by the activity that owns the
      head now. */
  method LoadLabourRequirements(rows: seq<Revision>, activities: Option<set<Id>>) returns (out: set<Revision>)
    requires Lineage(rows)
    ensures out ==
            if activities.None? then FullLoad(rows, Labour) else Restricted(FullLoad(rows, Labour), activities.value)
  {
    if activities == Some({}) {
      return {};
    }
    var labour := Filter(rows, OfKind(Labour));
    var head := HeadMap(labour);
    out := set k | k in head && !head[k].cancelled &&
        (activities.None? || head[k].activity in activities.value) :: head[k];
    forall r | r in FullLoad(rows, Labour)
      ensures r.requirement in head && head[r.requirement] == r
    {
      FilterLineage(rows, OfKind(Labour), r, head[r.requirement]);
    }
    assert forall k :: k in head && !head[k].cancelled ==> head[k] in FullLoad(rows, Labour);
  }

  /** Scope first, in the query; then the head of what is left. */
  method LoadMaterialRequirements(rows: seq<Revision>, activities: Option<set<Id>>) returns (out: set<Revision>)
    requires Lineage(rows)
    ensures out == if activities.None? then FullLoad(rows, Material) else ScopedFirst(rows, Material, activities.value)
  {
    if activities == Some({}) {
      forall r
        ensures r !in ScopedFirst(rows, Material, {})
      {
        InFilter(rows, OfKindIn(Material, {}), r);
      }
      return {};
    }
    var wanted := if activities.None? then OfKind(Material) else OfKindIn(Material, activities.value);
    var scoped := Filter(rows, wanted);
    var head := HeadMap(scoped);
    out := set k | k in head && !head[k].cancelled :: head[k];
    forall r | r in OpenHeads(scoped)
      ensures r.requirement in head && head[r.requirement] == r
    {
      FilterLineage(rows, wanted, r, head[r.requirement]);
    }
    assert forall k :: k in head && !head[k].cancelled ==> head[k] in OpenHeads(scoped);
  }

  /** LABOUR: SCOPED IS FILTERED. Loading for some activities gives exactly the open heads they own. */
  lemma ScopedLabourIsFiltered(ops: seq<Op>, scope: set<Id>, r: Revision)
    ensures r in Restricted(FullLoad(Recorded(ops), Labour), scope) <==>
            r.kind == Labour && r.activity in scope && !r.cancelled && HeadOf(Recorded(ops), r.requirement) == Some(r)
  {
    var rows := Recorded(ops);
    RecordedLineage(ops);
    FullLoadIs(rows, Labour, r);
    var h := HeadOf(rows, r.requirement);
    if IsHead(rows, r) && h.Some? {
      LineageOrders(rows, r, h.value);
    }
  }
}
