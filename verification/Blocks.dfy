/** The two disputes that block an activity: a material one by its decision, a labour one by itself. */
module Blocks {
  import opened Sums

  type Id = nat

  datatype Status = NotStarted | InProgress | Blocked | AwaitingSignoff | Finished

  datatype Banner = NoBanner | MaterialBanner | LabourBanner

  /** `gateFail` is the stored material gate; `started` that a start was ever recorded. */
  datatype Activity = Activity(decision: Option<Id>, status: Status, banner: Banner, gateFail: bool, started: bool)

  /** Unresolved mismatches are counted by decision for material and by activity for labour. The held
      sets remember which disputes found their activity open to be blocked. */
  datatype Site = Site(
    activities: map<Id, Activity>, material: map<Id, nat>, labour: map<Id, nat>,
    heldMaterial: set<Id>, heldLabour: set<Id>)

  function Open(disputes: map<Id, nat>, key: Id): nat { if key in disputes then disputes[key] else 0 }

  // ── one activity ─────────────────────────────────────────────────────────────────────────────

  function BlockedForMaterial(a: Activity): Activity {
    a.(gateFail := true, status := if a.status == Finished then Finished else Blocked, banner := MaterialBanner)
  }

  function Restored(a: Activity): Activity {
    a.(status := if a.started then InProgress else NotStarted, banner := NoBanner)
  }

  /** A material clear hands a still-disputed activity over to its labour dispute. */
  function ClearedOfMaterial(a: Activity, labour: nat): Activity {
    if !(a.gateFail && a.status == Blocked) then a
    else if labour > 0 then a.(gateFail := false, banner := LabourBanner)
    else Restored(a.(gateFail := false))
  }

  function BlockedForLabour(a: Activity): Activity {
    if a.status == NotStarted || a.status == InProgress then a.(status := Blocked, banner := LabourBanner) else a
  }

  function ClearedOfLabour(a: Activity): Activity {
    if a.status == Blocked && a.banner == LabourBanner then Restored(a) else a
  }

  // ── the site ─────────────────────────────────────────────────────────────────────────────────

  datatype Step =
    | Creates(id: Id, link: Option<Id>)
    | RecordsMaterial(decision: Id)
    | ResolvesMaterial(decision: Id)
    | RecordsLabour(id: Id)
    | ResolvesLabour(id: Id)
    | Starts(id: Id)
    | Completes(id: Id)
    | SignsOff(id: Id)
    | RevertsSignOff(id: Id)

  function Linked(s: Site, decision: Id): set<Id> {
    set k | k in s.activities && s.activities[k].decision == Some(decision)
  }

  function MaterialBlocked(s: Site, decision: Id): map<Id, Activity> {
    map k | k in s.activities ::
      if s.activities[k].decision == Some(decision) then BlockedForMaterial(s.activities[k]) else s.activities[k]
  }

  function MaterialCleared(s: Site, decision: Id): map<Id, Activity> {
    map k | k in s.activities ::
      if s.activities[k].decision == Some(decision) then ClearedOfMaterial(s.activities[k], Open(s.labour, k))
      else s.activities[k]
  }

  function Moved(s: Site, id: Id, a: Activity): Site { s.(activities := s.activities[id := a]) }

  function Next(s: Site, step: Step): Site {
    match step
    case Creates(id, link) =>
      if id in s.activities || Open(s.labour, id) > 0 then s
      else Moved(s, id, Activity(link, NotStarted, NoBanner, false, false))
    case RecordsMaterial(d) =>
      s.(material := s.material[d := Open(s.material, d) + 1], activities := MaterialBlocked(s, d),
         heldMaterial := s.heldMaterial + set k | k in Linked(s, d) && s.activities[k].status != Finished)
    case ResolvesMaterial(d) =>
      if Open(s.material, d) == 0 then s
      else if Open(s.material, d) > 1 then s.(material := s.material[d := s.material[d] - 1])
      else s.(material := s.material[d := 0], activities := MaterialCleared(s, d),
              heldMaterial := s.heldMaterial - Linked(s, d))
    case RecordsLabour(id) =>
      if id !in s.activities then s else
      var a := s.activities[id];
      Moved(s, id, BlockedForLabour(a)).(
        labour := s.labour[id := Open(s.labour, id) + 1],
        heldLabour := if a.status in {NotStarted, InProgress, Blocked} then s.heldLabour + {id} else s.heldLabour)
    case ResolvesLabour(id) =>
      if id !in s.activities || Open(s.labour, id) == 0 then s
      else if Open(s.labour, id) > 1 then s.(labour := s.labour[id := s.labour[id] - 1])
      else Moved(s, id, ClearedOfLabour(s.activities[id])).(
             labour := s.labour[id := 0], heldLabour := s.heldLabour - {id})
    case Starts(id) =>
      if id in s.activities && s.activities[id].status == NotStarted
      then Moved(s, id, s.activities[id].(status := InProgress, started := true)) else s
    case Completes(id) =>
      if id in s.activities && s.activities[id].status == InProgress
      then Moved(s, id, s.activities[id].(status := AwaitingSignoff)) else s
    case SignsOff(id) =>
      if id in s.activities && s.activities[id].status == AwaitingSignoff
      then Moved(s, id, s.activities[id].(status := Finished)) else s
    case RevertsSignOff(id) =>
      if id in s.activities && s.activities[id].status in {AwaitingSignoff, Finished}
      then Moved(s, id, s.activities[id].(status := InProgress)) else s
  }

  // ── the invariant ────────────────────────────────────────────────────────────────────────────

  /** A block is explained by an unresolved dispute of the kind its banner names. */
  predicate Explained(s: Site, id: Id)
    requires id in s.activities
  {
    var a := s.activities[id];
    a.status == Blocked ==>
      && (a.banner == MaterialBanner ==> a.gateFail && a.decision.Some? && Open(s.material, a.decision.value) > 0)
      && (a.banner == LabourBanner ==> Open(s.labour, id) > 0)
      && a.banner != NoBanner
  }

  /** A held dispute is unresolved, and its activity is blocked. */
  predicate Holds(s: Site, id: Id)
    requires id in s.activities
  {
    var a := s.activities[id];
    && (id in s.heldMaterial ==>
        a.status == Blocked && a.gateFail && a.decision.Some? && Open(s.material, a.decision.value) > 0
                                 && a.banner == MaterialBanner)
    && (id in s.heldLabour ==> a.status == Blocked && Open(s.labour, id) > 0)
  }

  ghost predicate Sound(s: Site) {
    && (forall id :: id in s.activities ==> Explained(s, id) && Holds(s, id))
    && (forall id :: id in s.heldMaterial || id in s.heldLabour ==> id in s.activities)
    && (forall id :: id !in s.activities ==> Open(s.labour, id) == 0)
  }

  lemma MaterialKeeps(s: Site, step: Step, id: Id)
    requires Sound(s) && (step.RecordsMaterial? || step.ResolvesMaterial?) && id in Next(s, step).activities
    ensures Explained(Next(s, step), id) && Holds(Next(s, step), id)
  {
    assert Explained(s, id) && Holds(s, id);
  }

  lemma OtherKeeps(s: Site, step: Step, id: Id)
    requires Sound(s) && !step.RecordsMaterial? && !step.ResolvesMaterial? && id in Next(s, step).activities
    ensures Explained(Next(s, step), id) && Holds(Next(s, step), id)
  {
    if id in s.activities {
      assert Explained(s, id) && Holds(s, id);
    }
  }

  lemma StepKeeps(s: Site, step: Step)
    requires Sound(s)
    ensures Sound(Next(s, step))
  {
    forall id | id in Next(s, step).activities
      ensures Explained(Next(s, step), id) && Holds(Next(s, step), id)
    {
      if step.RecordsMaterial? || step.ResolvesMaterial? {
        MaterialKeeps(s, step, id);
      } else {
        OtherKeeps(s, step, id);
      }
    }
  }

  function Run(steps: seq<Step>): Site {
    if |steps| == 0 then Site(map[], map[], map[], {}, {}) else Next(Run(steps[..|steps| - 1]), steps[|steps| - 1])
  }

  lemma {:induction false} RunSound(steps: seq<Step>)
    ensures Sound(Run(steps))
  {
    if |steps| > 0 {
      RunSound(steps[..|steps| - 1]);
      StepKeeps(Run(steps[..|steps| - 1]), steps[|steps| - 1]);
    }
  }

  /** NO DISPUTE IS DROPPED. A labour mismatch recorded on an activity pending, running or already
      blocked, or a material one on any activity not finished, keeps it blocked until that kind has
      none unresolved, through every banner overwrite and handover. */
  lemma DisputesAreNeverDropped(steps: seq<Step>, id: Id)
    requires id in Run(steps).heldMaterial || id in Run(steps).heldLabour
    ensures id in Run(steps).activities && Run(steps).activities[id].status == Blocked
  {
    RunSound(steps);
    assert Holds(Run(steps), id);
  }

  /** A dispute is let go only when its own kind is resolved to nothing. */
  lemma HeldUntilResolved(s: Site, step: Step, id: Id)
    requires Sound(s)
    ensures id in s.heldMaterial && id !in Next(s, step).heldMaterial ==>
              step.ResolvesMaterial? && s.activities[id].decision == Some(step.decision) &&
                  Open(Next(s, step).material, step.decision) == 0
    ensures id in s.heldLabour && id !in Next(s, step).heldLabour ==>
              step == ResolvesLabour(id) && Open(Next(s, step).labour, id) == 0
  {
    if id in s.heldMaterial {
      assert Holds(s, id);
    }
  }

  /** Steps change an activity's status, banner and gate, never what it is linked to. */
  lemma StepKeepsLink(s: Site, step: Step, id: Id)
    requires id in s.activities
    ensures id in Next(s, step).activities && Next(s, step).activities[id].decision == s.activities[id].decision
  {
  }

  predicate LabourOpenSince(steps: seq<Step>, k: nat, id: Id) {
    forall j :: k < j <= |steps| ==> Open(Run(steps[..j]).labour, id) > 0
  }

  predicate MaterialOpenSince(steps: seq<Step>, k: nat, decision: Id) {
    forall j :: k < j <= |steps| ==> Open(Run(steps[..j]).material, decision) > 0
  }

  /** At step `k` a labour mismatch found its activity pending, running or blocked. */
  predicate LabourTook(steps: seq<Step>, k: nat, id: Id) {
    && k < |steps| && steps[k] == RecordsLabour(id) && id in Run(steps[..k]).activities
    && Run(steps[..k]).activities[id].status in {NotStarted, InProgress, Blocked}
  }

  /** At step `k` a material mismatch found a linked activity not finished. */
  predicate MaterialTook(steps: seq<Step>, k: nat, decision: Id, id: Id) {
    && k < |steps| && steps[k] == RecordsMaterial(decision) && id in Run(steps[..k]).activities
    && Run(steps[..k]).activities[id].decision == Some(decision) && Run(steps[..k]).activities[id].status != Finished
  }

  lemma LabourTakes(s: Site, id: Id)
    requires id in s.activities && s.activities[id].status in {NotStarted, InProgress, Blocked}
    ensures id in Next(s, RecordsLabour(id)).heldLabour
  {
  }

  lemma MaterialTakes(s: Site, decision: Id, id: Id)
    requires id in s.activities && s.activities[id].decision == Some(decision) && s.activities[id].status != Finished
    ensures id in Next(s, RecordsMaterial(decision)).heldMaterial
  {
  }

  lemma LastStep(steps: seq<Step>, n: nat)
    requires |steps| == n + 1
    ensures Run(steps) == Next(Run(steps[..n]), steps[n]) && steps[..|steps|] == steps
    ensures forall j :: 0 <= j <= n ==> steps[..n][..j] == steps[..j]
  {
  }

  lemma {:induction false} LabourStaysHeld(steps: seq<Step>, k: nat, id: Id)
    requires LabourTook(steps, k, id) && LabourOpenSince(steps, k, id)
    ensures id in Run(steps).heldLabour
  {
    var n := |steps| - 1;
    LastStep(steps, n);
    if k < n {
      LabourStaysHeld(steps[..n], k, id);
      RunSound(steps[..n]);
      HeldUntilResolved(Run(steps[..n]), steps[n], id);
    } else {
      LabourTakes(Run(steps[..n]), id);
    }
  }

  lemma {:induction false} MaterialStaysHeld(steps: seq<Step>, k: nat, decision: Id, id: Id)
    requires MaterialTook(steps, k, decision, id) && MaterialOpenSince(steps, k, decision)
    ensures id in Run(steps).activities && Run(steps).activities[id].decision == Some(decision)
    ensures id in Run(steps).heldMaterial
  {
    var n := |steps| - 1;
    LastStep(steps, n);
    if k < n {
      MaterialStaysHeld(steps[..n], k, decision, id);
      RunSound(steps[..n]);
      HeldUntilResolved(Run(steps[..n]), steps[n], id);
    } else {
      MaterialTakes(Run(steps[..n]), decision, id);
    }
    StepKeepsLink(Run(steps[..n]), steps[n], id);
  }

  /** THE SAME, FROM THE TRACE ALONE. A mismatch that found its activity open to be blocked, and has
      never since been without an unresolved one of its kind, keeps the activity blocked. */
  lemma RecordedStaysBlocked(steps: seq<Step>, k: nat, decision: Id, id: Id)
    requires || (LabourTook(steps, k, id) && LabourOpenSince(steps, k, id))
             || (MaterialTook(steps, k, decision, id) && MaterialOpenSince(steps, k, decision))
    ensures id in Run(steps).activities && Run(steps).activities[id].status == Blocked
  {
    if LabourTook(steps, k, id) && LabourOpenSince(steps, k, id) {
      LabourStaysHeld(steps, k, id);
    } else {
      MaterialStaysHeld(steps, k, decision, id);
    }
    DisputesAreNeverDropped(steps, id);
  }

  /** And a blocked activity always has an unresolved dispute, so nothing stays blocked for nothing. */
  lemma BlockedHasDispute(steps: seq<Step>, id: Id)
    requires id in Run(steps).activities && Run(steps).activities[id].status == Blocked
    ensures Open(Run(steps).labour, id) > 0 ||
            (Run(steps).activities[id].decision.Some? &&
                Open(Run(steps).material, Run(steps).activities[id].decision.value) > 0)
  {
    RunSound(steps);
    assert Explained(Run(steps), id);
  }

  // ── what a block leaves behind ───────────────────────────────────────────────────────────────

  /** An activity that is not blocked has been started exactly when it is past `NotStarted`. */
  ghost predicate Standing(s: Site) {
    forall id :: id in s.activities && s.activities[id].status != Blocked ==>
      (s.activities[id].started <==> s.activities[id].status != NotStarted)
  }

  lemma StepKeepsStanding(s: Site, step: Step)
    requires Standing(s)
    ensures Standing(Next(s, step))
  {
    forall id | id in Next(s, step).activities && Next(s, step).activities[id].status != Blocked
      ensures Next(s, step).activities[id].started <==> Next(s, step).activities[id].status != NotStarted
    {
    }
  }

  lemma {:induction false} RunStanding(steps: seq<Step>)
    ensures Standing(Run(steps))
  {
    if |steps| > 0 {
      RunStanding(steps[..|steps| - 1]);
      StepKeepsStanding(Run(steps[..|steps| - 1]), steps[|steps| - 1]);
    }
  }

  /** A BLOCK IS UNDONE. In every run, a mismatch recorded on an activity pending or running blocks it, and
      once resolved, when it was the only one, leaves it exactly where it was. */
  lemma LabourBlockIsUndone(steps: seq<Step>, id: Id)
    requires var s := Run(steps); id in s.activities && s.activities[id].status in {NotStarted, InProgress}
    requires Open(Run(steps).labour, id) == 0
    ensures var s := Run(steps); var blocked := Next(s, RecordsLabour(id));
            var after := Next(blocked, ResolvesLabour(id));
            && blocked.activities == s.activities[id := s.activities[id].(status := Blocked, banner := LabourBanner)]
            && after.activities == s.activities[id := s.activities[id].(banner := NoBanner)]
            && Open(blocked.labour, id) == 1 && Open(after.labour, id) == 0
  {
    RunStanding(steps);
  }

  lemma MaterialBlockIsUndone(steps: seq<Step>, decision: Id, id: Id)
    requires var s := Run(steps); id in s.activities && s.activities[id].decision == Some(decision)
    requires Run(steps).activities[id].status in {NotStarted, InProgress}
    requires Open(Run(steps).material, decision) == 0 && Open(Run(steps).labour, id) == 0
    ensures var s := Run(steps); var blocked := Next(s, RecordsMaterial(decision));
            var after := Next(blocked, ResolvesMaterial(decision));
            && id in blocked.activities && id in after.activities
            && blocked.activities[id] ==
                s.activities[id].(status := Blocked, banner := MaterialBanner, gateFail := true)
            && after.activities[id] == s.activities[id].(banner := NoBanner, gateFail := false)
  {
    RunStanding(steps);
  }

  /** Any other activity, and one finished, keeps its status through another decision's or its own
      mismatch. */
  lemma MismatchBlocksOnlyLinked(s: Site, decision: Id, id: Id)
    requires id in s.activities
    ensures s.activities[id].decision != Some(decision) ==>
              && Next(s, RecordsMaterial(decision)).activities[id] == s.activities[id]
              && Next(s, ResolvesMaterial(decision)).activities[id] == s.activities[id]
    ensures s.activities[id].status == Finished ==>
              && Next(s, RecordsMaterial(decision)).activities[id].status == Finished
              && Next(s, RecordsLabour(id)).activities[id] == s.activities[id]
  {
  }

  /** THE HANDOVER. When the last material mismatch of a decision is resolved while a labour one stands, a
      blocked activity stays blocked under the labour banner, and the labour one's resolution then
      restores it to running or pending, as it was started or not. */
  lemma HandedOver(s: Site, decision: Id, id: Id)
    requires id in s.activities && s.activities[id].decision == Some(decision)
    requires s.activities[id].status == Blocked && s.activities[id].gateFail
    requires Open(s.material, decision) == 1 && Open(s.labour, id) == 1
    ensures var handed := Next(s, ResolvesMaterial(decision)); var after := Next(handed, ResolvesLabour(id));
            && id in handed.activities && id in after.activities
            && handed.activities[id] == s.activities[id].(gateFail := false, banner := LabourBanner)
            && after.activities[id] == s.activities[id].(gateFail := false, banner := NoBanner,
                 status := if s.activities[id].started then InProgress else NotStarted)
  {
  }

  /** While more than one of a kind is unresolved, resolving one changes no activity; each mismatch
      counts one. */
  lemma EachCountsOne(s: Site, decision: Id, id: Id)
    ensures Open(Next(s, RecordsMaterial(decision)).material, decision) == Open(s.material, decision) + 1
    ensures id in s.activities ==> Open(Next(s, RecordsLabour(id)).labour, id) == Open(s.labour, id) + 1
    ensures Open(s.material, decision) > 1 ==>
              && Next(s, ResolvesMaterial(decision)).activities == s.activities
              && Open(Next(s, ResolvesMaterial(decision)).material, decision) == Open(s.material, decision) - 1
    ensures id in s.activities && Open(s.labour, id) > 1 ==>
              && Next(s, ResolvesLabour(id)).activities == s.activities
              && Open(Next(s, ResolvesLabour(id)).labour, id) == Open(s.labour, id) - 1
  {
  }

  // ── the writes, row by row ───────────────────────────────────────────────────────────────────

  class Participant {
    var activities: map<Id, Activity>

    constructor (activities: map<Id, Activity>)
      ensures this.activities == activities
    {
      this.activities := activities;
    }

    /** Every activity linked to the decision, one row at a time. */
    method BlockForMaterialMismatch(decision: Id) returns (blocked: nat)
      modifies this
      ensures activities == map k | k in old(activities) ::
                if old(activities)[k].decision == Some(decision) then BlockedForMaterial(old(activities)[k])
                else old(activities)[k]
    {
      var was := activities;
      var todo := activities.Keys;
      blocked := 0;
      while todo != {}
        invariant todo <= was.Keys && activities.Keys == was.Keys
        invariant forall k :: k in was ==>
                    activities[k] ==
                        if k !in todo && was[k].decision == Some(decision) then BlockedForMaterial(was[k]) else was[k]
        decreases todo
      {
        var k :| k in todo;
        if activities[k].decision == Some(decision) {
          var a := activities[k];
          var status := if a.status == Finished then a.status else Blocked;
          activities := activities[k := a.(gateFail := true, status := status, banner := MaterialBanner)];
          blocked := blocked + 1;
        }
        todo := todo - {k};
      }
    }

    /** Release what the decision blocked, or hand it over to the labour dispute still standing. */
    method ClearMaterialMismatchBlock(decision: Id, disputed: set<Id>) returns (released: nat)
      modifies this
      ensures activities == map k | k in old(activities) ::
                if old(activities)[k].decision == Some(decision)
                then ClearedOfMaterial(old(activities)[k], if k in disputed then 1 else 0)
                else old(activities)[k]
    {
      var was := activities;
      var todo := activities.Keys;
      released := 0;
      while todo != {}
        invariant todo <= was.Keys && activities.Keys == was.Keys
        invariant forall k :: k in was ==>
                    activities[k] == if k !in todo && was[k].decision == Some(decision)
                                     then ClearedOfMaterial(was[k], if k in disputed then 1 else 0) else was[k]
        decreases todo
      {
        var k :| k in todo;
        var a := activities[k];
        if a.decision == Some(decision) && a.gateFail && a.status == Blocked {
          if k in disputed {
            activities := activities[k := a.(gateFail := false, banner := LabourBanner)];
          } else {
            activities := activities[k :=
                a.(gateFail := false, status := if a.started then InProgress else NotStarted, banner := NoBanner)];
          }
          released := released + 1;
        }
        todo := todo - {k};
      }
    }

    /** A compare-and-set on the two statuses a labour dispute may block. */
    method BlockForLabourMismatch(id: Id) returns (count: nat)
      modifies this
      ensures activities ==
              if id in old(activities) then old(activities)[id := BlockedForLabour(old(activities)[id])]
              else old(activities)
    {
      count := 0;
      if id in activities && activities[id].status in {NotStarted, InProgress} {
        activities := activities[id := activities[id].(status := Blocked, banner := LabourBanner)];
        count := 1;
      } else if id in activities {
        assert activities[id := activities[id]] == activities;
      }
    }

    /** Only a row still carrying the labour banner is restored. */
    method ClearLabourMismatchBlock(id: Id) returns (count: nat)
      modifies this
      ensures activities ==
              if id in old(activities) then old(activities)[id := ClearedOfLabour(old(activities)[id])]
              else old(activities)
    {
      count := 0;
      if id in activities {
        var a := activities[id];
        if a.status == Blocked && a.banner == LabourBanner {
          activities := activities[id :=
              a.(status := if a.started then InProgress else NotStarted, banner := NoBanner)];
          count := 1;
        } else {
          assert activities[id := a] == activities;
        }
      }
    }
  }
}
