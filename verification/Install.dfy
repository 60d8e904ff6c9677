/** The service worker's install: this build's files go into its cache, following what the shell and
    each script and style sheet names. */
module Install {
  type Path = string

  /** A build: the emitted files each file's text names, in order and with repeats, and the files the
      server gives. */
  datatype Build = Build(names: map<Path, seq<Path>>, served: set<Path>)

  predicate EndsWith(p: Path, suffix: string) { |p| >= |suffix| && p[|p| - |suffix|..] == suffix }

  /** What a file is, is told by its name. */
  predicate IsScript(p: Path) { EndsWith(p, ".js") || EndsWith(p, ".mjs") }

  predicate IsStyle(p: Path) { EndsWith(p, ".css") }

  /** Only a script's or a style sheet's text is read for names. */
  function NamedBy(b: Build, p: Path): seq<Path> {
    if (IsScript(p) || IsStyle(p)) && p in b.names then b.names[p] else []
  }

  /** A name ends in a suffix when something comes before it. */
  lemma EndsExactly(p: Path, before: Path, suffix: string)
    ensures EndsWith(before + suffix, suffix)
    ensures EndsWith(p, suffix) ==> p == p[..|p| - |suffix|] + suffix
  {
    assert (before + suffix)[|before|..] == suffix;
  }

  /** A script or style sheet is followed to all its text names; nothing else is followed. */
  lemma FollowsExactly(b: Build, base: Path, p: Path, q: Path)
    ensures base + ".js" in b.names ==> NamedBy(b, base + ".js") == b.names[base + ".js"]
    ensures base + ".mjs" in b.names ==> NamedBy(b, base + ".mjs") == b.names[base + ".mjs"]
    ensures base + ".css" in b.names ==> NamedBy(b, base + ".css") == b.names[base + ".css"]
    ensures q in NamedBy(b, p) ==>
              && p in b.names && q in b.names[p]
              && (exists stem :: p == stem + ".js" || p == stem + ".mjs" || p == stem + ".css")
  {
    EndsExactly(p, base, ".js");
    EndsExactly(p, base, ".mjs");
    EndsExactly(p, base, ".css");
    if q in NamedBy(b, p) {
      var n := if EndsWith(p, ".js") then 3 else 4;
      assert p == p[..|p| - n] + ".js" || p == p[..|p| - n] + ".mjs" || p == p[..|p| - n] + ".css";
    }
  }

  predicate Available(b: Build, cached: set<Path>, p: Path) { p in cached || p in b.served }

  // ── the reference closure ────────────────────────────────────────────────────────────────────

  /** A chain of references that starts in the shell. */
  predicate Chain(b: Build, shell: seq<Path>, chain: seq<Path>) {
    |chain| > 0 && chain[0] in shell && forall i :: 0 <= i < |chain| - 1 ==> chain[i + 1] in NamedBy(b, chain[i])
  }

  ghost predicate Reachable(b: Build, shell: seq<Path>, p: Path) {
    exists chain :: Chain(b, shell, chain) && chain[|chain| - 1] == p
  }

  lemma RootsReach(b: Build, shell: seq<Path>, p: Path)
    requires p in shell
    ensures Reachable(b, shell, p)
  {
    assert Chain(b, shell, [p]) && [p][0] == p;
  }

  lemma NamesReach(b: Build, shell: seq<Path>, p: Path, q: Path)
    requires Reachable(b, shell, p) && q in NamedBy(b, p)
    ensures Reachable(b, shell, q)
  {
    var chain :| Chain(b, shell, chain) && chain[|chain| - 1] == p;
    assert Chain(b, shell, chain + [q]);
    assert (chain + [q])[|chain + [q]| - 1] == q;
  }

  /** A set that holds the shell's names and whatever its members name holds everything reachable. */
  lemma {:induction false} ClosedHoldsChain(b: Build, shell: seq<Path>, closed: set<Path>, chain: seq<Path>)
    requires forall p :: p in shell ==> p in closed
    requires forall p, q :: p in closed && q in NamedBy(b, p) ==> q in closed
    requires Chain(b, shell, chain)
    ensures chain[|chain| - 1] in closed
  {
    if |chain| > 1 {
      ClosedHoldsChain(b, shell, closed, chain[..|chain| - 1]);
      assert chain[|chain| - 1] in NamedBy(b, chain[|chain| - 2]);
    }
  }

  lemma ClosedHoldsReachable(b: Build, shell: seq<Path>, closed: set<Path>, p: Path)
    requires forall q :: q in shell ==> q in closed
    requires forall r, q :: r in closed && q in NamedBy(b, r) ==> q in closed
    requires Reachable(b, shell, p)
    ensures p in closed
  {
    var chain :| Chain(b, shell, chain) && chain[|chain| - 1] == p;
    ClosedHoldsChain(b, shell, closed, chain);
  }

  // ── the walk ─────────────────────────────────────────────────────────────────────────────────

  /** Every path the build's texts name: the finite set `seen` grows within. */
  function AllNamed(b: Build, shell: seq<Path>): set<Path> {
    (set p, q | p in b.names && q in b.names[p] :: q) + set q | q in shell
  }

  /** The paths of a list not seen when the list is taken up; a repeat within it is taken up too. */
  function Unseen(paths: seq<Path>, seen: set<Path>): (r: seq<Path>)
    ensures forall p :: p in r <==> p in paths && p !in seen
  {
    if |paths| == 0 then []
    else Unseen(paths[..|paths| - 1], seen) + if paths[|paths| - 1] in seen then [] else [paths[|paths| - 1]]
  }

  function AsSet(paths: seq<Path>): set<Path> { set p | p in paths }

  function Dropped(paths: seq<Path>, k: nat): (r: seq<Path>)
    requires k < |paths|
    ensures forall p :: p in r ==> p in paths
    ensures forall p :: p in paths ==> p in r || p == paths[k]
    ensures |r| == |paths| - 1
  {
    assert paths == paths[..k] + [paths[k]] + paths[k + 1..];
    paths[..k] + paths[k + 1..]
  }

  /** A file seen is still to come, or is kept with everything it names seen in turn. */
  predicate Settled(b: Build, cached: set<Path>, seen: set<Path>, todo: seq<Path>) {
    forall p :: p in seen ==> p in todo || (p in cached && forall q :: q in NamedBy(b, p) ==> q in seen)
  }

  lemma UnseenShrinks(all: set<Path>, seen: set<Path>, more: seq<Path>)
    requires AsSet(more) <= all && |more| > 0 && forall p :: p in more ==> p !in seen
    ensures |all - (seen + AsSet(more))| < |all - seen|
  {
    assert more[0] in all - seen && more[0] !in all - (seen + AsSet(more));
    assert all - (seen + AsSet(more)) <= (all - seen) - {more[0]};
    SubsetSize(all - (seen + AsSet(more)), (all - seen) - {more[0]});
  }

  lemma {:induction false} SubsetSize(a: set<Path>, b: set<Path>)
    requires a <= b
    ensures |a| <= |b|
    decreases |a|
  {
    if a != {} {
      var p :| p in a;
      SubsetSize(a - {p}, b - {p});
    }
  }

  /** What every turn of the walk keeps. */
  ghost predicate Walking(b: Build, shell: seq<Path>, cached: set<Path>, kept: set<Path>, seen: set<Path>,
      todo: seq<Path>) {
    && AsSet(todo) <= seen <= AllNamed(b, shell) && AsSet(shell) <= seen
    && (forall p :: p in seen ==> Reachable(b, shell, p))
    && cached <= kept && (forall p :: p in kept ==> p in cached || (p in seen && p in b.served))
    && Settled(b, kept, seen, todo)
  }

  function More(b: Build, seen: set<Path>, path: Path): seq<Path> { Unseen(NamedBy(b, path), seen) }

  lemma MoreReach(b: Build, shell: seq<Path>, seen: set<Path>, path: Path)
    requires Reachable(b, shell, path)
    ensures forall q :: q in More(b, seen, path) ==> Reachable(b, shell, q) && q in AllNamed(b, shell)
  {
    forall q | q in More(b, seen, path)
      ensures Reachable(b, shell, q)
    {
      NamesReach(b, shell, path, q);
    }
  }

  lemma TurnSettles(b: Build, kept: set<Path>, seen: set<Path>, todo: seq<Path>, k: nat)
    requires Settled(b, kept, seen, todo) && k < |todo| && todo[k] in seen
    ensures Settled(b, kept + {todo[k]}, seen + AsSet(More(b, seen, todo[k])),
            Dropped(todo, k) + More(b, seen, todo[k]))
  {
    var more := More(b, seen, todo[k]);
    forall p | p in seen + AsSet(more)
      ensures p in Dropped(todo, k) + more || (p in kept + {todo[k]} && forall q :: q in NamedBy(b, p) ==>
                q in seen + AsSet(more))
    {
      if p in more {
        assert p in Dropped(todo, k) + more;
      } else if p in Dropped(todo, k) {
        assert p in Dropped(todo, k) + more;
      }
    }
  }

  lemma TurnWalks(b: Build, shell: seq<Path>, cached: set<Path>, kept: set<Path>, seen: set<Path>, todo: seq<Path>,
      k: nat)
    requires Walking(b, shell, cached, kept, seen, todo) && k < |todo| && Available(b, kept, todo[k])
    ensures Walking(b, shell, cached, kept + {todo[k]}, seen + AsSet(More(b, seen, todo[k])),
            Dropped(todo, k) + More(b, seen, todo[k]))
  {
    var path := todo[k];
    var more := More(b, seen, path);
    assert path in AsSet(todo);
    MoreReach(b, shell, seen, path);
    TurnSettles(b, kept, seen, todo, k);
    forall p | p in Dropped(todo, k) + more
      ensures p in seen + AsSet(more)
    {
      assert p in todo ==> p in AsSet(todo);
    }
  }

  /** A turn sees a new file of the finite set, or finishes one. */
  lemma TurnDescends(b: Build, shell: seq<Path>, seen: set<Path>, todo: seq<Path>, k: nat)
    requires k < |todo| && Reachable(b, shell, todo[k])
    ensures var more := More(b, seen, todo[k]); var all := AllNamed(b, shell);
            |all - (seen + AsSet(more))| < |all - seen| ||
            (all - (seen + AsSet(more)) == all - seen && |Dropped(todo, k) + more| < |todo|)
  {
    var more := More(b, seen, todo[k]);
    MoreReach(b, shell, seen, todo[k]);
    if |more| > 0 {
      UnseenShrinks(AllNamed(b, shell), seen, more);
    } else {
      assert AsSet(more) == {};
    }
  }

  lemma WalkedAll(b: Build, shell: seq<Path>, cached: set<Path>, kept: set<Path>, seen: set<Path>)
    requires Walking(b, shell, cached, kept, seen, [])
    ensures forall p :: p in kept <==> p in cached || Reachable(b, shell, p)
    ensures forall p :: Reachable(b, shell, p) ==> Available(b, cached, p)
  {
    forall p | Reachable(b, shell, p)
      ensures p in kept
    {
      forall q | q in shell
        ensures q in seen
      {
        assert q in AsSet(shell);
      }
      ClosedHoldsReachable(b, shell, seen, p);
    }
  }

  predicate NamesScript(shell: seq<Path>) { exists p :: p in shell && IsScript(p) }

  /** Fetch, keep and follow, the fetches answering in any order. The install succeeds exactly when
      the shell names a script and everything reachable can be had, and then exactly that is kept:
      the cache is closed under references. */
  method KeepBuild(b: Build, shell: seq<Path>, cached: set<Path>) returns (ok: bool, kept: set<Path>)
    ensures ok <==> NamesScript(shell) && forall p :: Reachable(b, shell, p) ==> Available(b, cached, p)
    ensures ok ==> forall p :: p in kept <==> p in cached || Reachable(b, shell, p)
  {
    kept := cached;
    if !NamesScript(shell) {
      return false, kept;
    }
    var seen := AsSet(shell);
    var todo := shell;
    forall p | p in shell
      ensures Reachable(b, shell, p)
    {
      RootsReach(b, shell, p);
    }
    while todo != []
      invariant Walking(b, shell, cached, kept, seen, todo)
      decreases |AllNamed(b, shell) - seen|, |todo|
    {
      var k :| 0 <= k < |todo|;  // whichever answers next
      assert todo[k] in AsSet(todo);
      if todo[k] !in kept && todo[k] !in b.served {
        return false, kept;
      }
      TurnWalks(b, shell, cached, kept, seen, todo, k);
      TurnDescends(b, shell, seen, todo, k);
      kept := kept + {todo[k]};
      var more := Unseen(NamedBy(b, todo[k]), seen);
      todo, seen := Dropped(todo, k) + more, seen + AsSet(more);
    }
    WalkedAll(b, shell, cached, kept, seen);
    return true, kept;
  }
}
