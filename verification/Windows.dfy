/** The service worker's window registry: which open windows have announced that they know the write
    token, kept while announcements, asks, closings and returns interleave. */
module Windows {
  import opened Sums

  type Window = nat

  /** An announcement kept for a window; each has a nonce of its own. */
  datatype Record = Record(level: int, nonce: nat)

  type Store = map<Window, Record>

  /** An announce or an ask under way: the records it read, then the windows it listed after. */
  datatype Pending =
    | Read(seen: Store)
    | Listed(seen: Store, windows: set<Window>)
    | Finished

  /** `kept` remembers every announcement ever kept, and `steady` the windows listed ever since their
      present record was; neither is read by any step. */
  datatype Registry = Registry(store: Store, listed: set<Window>, nonces: nat, pending: seq<Pending>,
                               kept: set<(Window, Record)>, steady: set<Window>)

  datatype Step =
    | Opens(window: Window)   // a window opens, or comes back from the bfcache
    | Hides(window: Window)   // it closes, or goes into the bfcache
    | Reads                   // an announce or an ask begins: the records, in one transaction
    | Lists(request: nat)        // then the windows
    | Keeps(request: nat, window: Window, level: int)  // an announce commits: put, and forget
    | Answers(request: nat)      // an ask commits what it forgets

  /** The windows read and missing from the listing taken after: closed, or in the bfcache. */
  function Unlisted(seen: Store, windows: set<Window>, except: Option<Window>): Store {
    map w | w in seen && Some(w) != except && w !in windows :: seen[w]
  }

  /** Forget each window whose record is still the one read. */
  function Forgotten(store: Store, gone: Store): Store {
    map w | w in store && !(w in gone && gone[w].nonce == store[w].nonce) :: store[w]
  }

  /** The loop inside the transaction. */
  method ForgetIn(store: Store, gone: Store) returns (left: Store)
    ensures left == Forgotten(store, gone)
  {
    left := store;
    var todo := gone.Keys;
    while todo != {}
      invariant todo <= gone.Keys
      invariant left == map w | w in store && !(w in gone && w !in todo && gone[w].nonce == store[w].nonce) :: store[w]
      decreases todo
    {
      var w :| w in todo;
      if w in left && left[w].nonce == gone[w].nonce {
        left := left - {w};
      }
      todo := todo - {w};
    }
  }

  function Next(r: Registry, step: Step): Registry {
    match step
    case Opens(w) => r.(listed := r.listed + {w})
    case Hides(w) => r.(listed := r.listed - {w}, steady := r.steady - {w})
    case Reads => r.(pending := r.pending + [Read(r.store)])
    case Lists(t) =>
      if t < |r.pending| && r.pending[t].Read? then r.(pending := r.pending[t := Listed(r.pending[t].seen, r.listed)])
      else r
    case Keeps(t, w, level) =>
      if t < |r.pending| && r.pending[t].Listed? then
        var record := Record(level, r.nonces);
        var gone := Unlisted(r.pending[t].seen, r.pending[t].windows, Some(w));
        r.(store := Forgotten(r.store[w := record], gone), nonces := r.nonces + 1, pending := r.pending[t := Finished],
           kept := r.kept + {(w, record)}, steady := if w in r.listed then r.steady + {w} else r.steady - {w})
      else r
    case Answers(t) =>
      if t < |r.pending| && r.pending[t].Listed? then
        r.(store := Forgotten(r.store, Unlisted(r.pending[t].seen, r.pending[t].windows, None)),
            pending := r.pending[t := Finished])
      else r
  }

  /** What an ask answers from what it read and listed. */
  predicate MayWrite(seen: Store, windows: set<Window>, level: int) {
    level >= 1 && windows != {} && forall w :: w in windows ==> w in seen && seen[w].level >= level
  }

  // ── the invariant ────────────────────────────────────────────────────────────────────────────

  /** Every record read or held is an announcement that was kept, with a nonce already given out. */
  ghost predicate Genuine(r: Registry, s: Store) {
    forall w :: w in s ==> (w, s[w]) in r.kept && s[w].nonce < r.nonces
  }

  /** A listing taken after `w`'s present record was read has `w` in it. */
  predicate Knows(request: Pending, w: Window, record: Record)
    requires request.Listed?
  {
    w in request.seen && request.seen[w].nonce == record.nonce ==> w in request.windows
  }

  /** `steady` windows have been listed ever since their present record was kept. No request that read
      that record listed the windows without them. */
  ghost predicate Sound(r: Registry) {
    && Genuine(r, r.store)
    && (forall t :: 0 <= t < |r.pending| && !r.pending[t].Finished? ==> Genuine(r, r.pending[t].seen))
    && (forall w :: w in r.steady ==> w in r.listed && w in r.store)
    && (forall t, w :: 0 <= t < |r.pending| && r.pending[t].Listed? && w in r.steady ==>
        Knows(r.pending[t], w, r.store[w]))
  }

  lemma StepKeeps(r: Registry, step: Step)
    requires Sound(r)
    ensures Sound(Next(r, step))
  {
  }

  function Started(): Registry { Registry(map[], {}, 0, [], {}, {}) }

  function Run(steps: seq<Step>): Registry {
    if |steps| == 0 then Started() else Next(Run(steps[..|steps| - 1]), steps[|steps| - 1])
  }

  lemma {:induction false} RunSound(steps: seq<Step>)
    ensures Sound(Run(steps))
  {
    if |steps| > 0 {
      RunSound(steps[..|steps| - 1]);
      StepKeeps(Run(steps[..|steps| - 1]), steps[|steps| - 1]);
    }
  }

  /** A LISTED WINDOW IS NEVER FORGOTTEN: while a window stays listed from the moment its announcement
      is kept, no interleaving of announcements, asks, closings and returns removes its record. */
  lemma NeverForgotten(steps: seq<Step>, w: Window)
    requires w in Run(steps).steady
    ensures w in Run(steps).store && w in Run(steps).listed
  {
    RunSound(steps);
  }

  /** Once kept for a listed window, a record lasts until the window hides or announces again. */
  lemma KeptUntilHidden(r: Registry, step: Step, w: Window)
    requires Sound(r) && w in r.steady && step != Hides(w)
    ensures w in Next(r, step).steady
    ensures w in Next(r, step).store
    ensures !(step.Keeps? && step.window == w) ==> Next(r, step).store[w] == r.store[w]
  {
    StepKeeps(r, step);
  }

  /** An announcement kept for a listed window makes it one. */
  lemma AnnouncingIsKept(r: Registry, t: nat, w: Window, level: int)
    requires Sound(r) && t < |r.pending| && r.pending[t].Listed? && w in r.listed
    ensures w in Next(r, Keeps(t, w, level)).steady
    ensures w in Next(r, Keeps(t, w, level)).store && Next(r, Keeps(t, w, level)).store[w].level == level
  {
  }

  /** A YES IS EARNED: every window listed for the answer had announced that level or above. */
  lemma YesMeansAnnounced(steps: seq<Step>, t: nat, level: int, w: Window)
    requires t < |Run(steps).pending| && Run(steps).pending[t].Listed?
    requires MayWrite(Run(steps).pending[t].seen, Run(steps).pending[t].windows, level)
    requires w in Run(steps).pending[t].windows
    ensures exists record :: (w, record) in Run(steps).kept && record.level >= level
  {
    var r := Run(steps);
    RunSound(steps);
    assert Genuine(r, r.pending[t].seen);
    assert (w, r.pending[t].seen[w]) in r.kept;
  }

  // ── what an ask answers, and what is forgotten ───────────────────────────────────────────────

  /** Opened, or returned, and not hidden since. */
  predicate ListedNow(steps: seq<Step>, w: Window) {
    exists k :: 0 <= k < |steps| && steps[k] == Opens(w) && forall j :: k < j < |steps| ==> steps[j] != Hides(w)
  }

  lemma {:induction false} ListedExactly(steps: seq<Step>, w: Window)
    ensures w in Run(steps).listed <==> ListedNow(steps, w)
  {
    if |steps| > 0 {
      var n := |steps| - 1;
      ListedExactly(steps[..n], w);
      if ListedNow(steps[..n], w) && steps[n] != Hides(w) {
        var k :| 0 <= k < n && steps[..n][k] == Opens(w) && forall j :: k < j < n ==> steps[..n][j] != Hides(w);
        assert steps[k] == Opens(w) && forall j :: k < j < n ==> steps[j] == steps[..n][j];
      }
      if steps[n] == Opens(w) {
        assert ListedNow(steps, w);
      }
      if ListedNow(steps, w) {
        var k :| 0 <= k < |steps| && steps[k] == Opens(w) && forall j :: k < j < |steps| ==> steps[j] != Hides(w);
        if k < n {
          assert steps[..n][k] == Opens(w) && forall j :: k < j < n ==> steps[..n][j] == steps[j];
        }
      }
    }
  }

  /** THE ANSWER. An ask that nothing interrupts says yes exactly when a window is open, the level is one
      or more, and every open window's announcement is kept at that level or above. */
  lemma AnswersExactly(steps: seq<Step>, level: int)
    ensures var r := Run(steps); var asked := Run(steps + [Reads, Lists(|Run(steps).pending|)]);
            && |asked.pending| == |r.pending| + 1 && asked.pending[|r.pending|].Listed?
            && asked.store == r.store && asked.listed == r.listed
            && (MayWrite(asked.pending[|r.pending|].seen, asked.pending[|r.pending|].windows, level) <==>
                && level >= 1 && (exists w :: w in r.listed)
                && forall w :: w in r.listed ==> w in r.store && r.store[w].level >= level)
  {
    var r, n := Run(steps), |Run(steps).pending|;
    var one, two := steps + [Reads], steps + [Reads, Lists(n)];
    assert one[..|steps|] == steps && two[..|steps| + 1] == one;
    assert Run(one) == Next(r, Reads) && Run(two) == Next(Run(one), Lists(n));
    assert Run(two).pending[n] == Listed(r.store, r.listed);
  }

  /** A record read, then found unlisted, and still as it was read. */
  predicate FoundGone(p: Pending, store: Store, w: Window)
    requires p.Listed? && w in store
  {
    w in p.seen && w !in p.windows && p.seen[w].nonce == store[w].nonce
  }

  /** A commit forgets the record of each window that it read, found unlisted and finds as it was, and
      leaves every other. An announcement also keeps a record with a nonce never given before. */
  lemma CommitsExactly(r: Registry, t: nat, u: Window, level: int, w: Window)
    requires Sound(r) && t < |r.pending| && r.pending[t].Listed?
    ensures var p := r.pending[t]; var after := Next(r, Answers(t));
            && (w in after.store <==> w in r.store && !FoundGone(p, r.store, w))
            && (w in after.store ==> after.store[w] == r.store[w]) && after.pending[t].Finished?
    ensures var p := r.pending[t]; var after := Next(r, Keeps(t, u, level));
            && u in after.store && after.store[u].level == level
            && (forall v :: v in r.store ==> r.store[v].nonce != after.store[u].nonce)
            && (w != u ==>
                (w in after.store <==> w in r.store && !FoundGone(p, r.store, w)))
            && (w != u && w in after.store ==> after.store[w] == r.store[w]) && after.pending[t].Finished?
  {
  }
}
