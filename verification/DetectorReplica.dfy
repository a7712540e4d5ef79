// One server as the runner drives it (run.py, Replica): installing the detectors,
// resuming a saved world, and ticking a segment.

module DetectorReplica {
  import opened Options
  import opened Mcfunction
  import opened Patterns
  import opened DetectorPack
  import opened DetectorWatch
  import opened DetectorSteps

  datatype Loaded = Saved | Repaired

  datatype ResumeError = WrongGametime | NotLoaded

  datatype Resumed = PickedUp(how: Loaded) | Failed(error: ResumeError)

  /** The worlds a run of ticks sees: the first as it stands, then one a tick. */
  function WorldAt(first: Grid, later: seq<Grid>): nat -> Grid {
    i => if 0 < i <= |later| then later[i - 1] else first
  }

  /** The state of the scores once the detectors are installed. */
  ghost predicate Installed(v: Watch, dets: seq<Detector>) {
    Fresh(v, dets) && StartCount(v) >= 0
  }

  class Replica {
    const dets: seq<Detector>
    const every: int
    /** How deeply functions may call each other. */
    const depth: nat

    var machine: Machine
    var gametime: int
    var grid: Grid
    /** The datapack in force, and the one in the world's files. */
    var pack: Pack
    var files: Pack
    /** The load function runs, and the files come into force, on the next tick. */
    var pending: bool

    /** The scores `server.score(...)` reads. */
    function Scores(): Watch
      reads this
    {
      View(machine, Names(dets))
    }

    ghost predicate Valid()
      reads this
    {
      && Sound(dets) && depth > 6
      && PackFor(if pending then files else pack, dets, every)
    }

    /** A world freshly booted from its save. */
    constructor Boot(dets: seq<Detector>, every: int, depth: nat, saved: map<string, int>, grid: Grid, gametime: int, files: Pack)
      requires Sound(dets) && depth > 6 && PackFor(files, dets, every)
      ensures Valid() && pending && this.dets == dets && this.every == every
      ensures machine.scores == saved && this.grid == grid && this.gametime == gametime && pack == this.files == files
    {
      this.dets, this.every, this.depth := dets, every, depth;
      this.machine, this.grid, this.gametime := Machine(saved, []), grid, gametime;
      this.pack, this.files, this.pending := files, files, true;
    }

    /** Run a function once, at once. */
    method RunFunction(fn: string)
      modifies this`machine
      ensures machine == Exec(World(grid, gametime, pack), Call(fn), ORIGIN, old(machine), depth)
    {
      machine := Exec(World(grid, gametime, pack), Call(fn), ORIGIN, machine, depth);
    }

    method SetHolder(holder: string, v: int)
      modifies this`machine
      ensures machine == old(machine).Put(holder, v)
    {
      machine := machine.Put(holder, v);
    }

    /** One ticked tick: a pending load comes first, then the tick function, then
        the world moves on. */
    method Tick(next: Grid)
      requires Valid()
      modifies this
      ensures Valid() && !pending && files == old(files) && pack == if old(pending) then old(files) else old(pack)
      ensures grid == next && gametime == old(gametime) + 1
      ensures Scores() == TickStep(if old(pending) then Load(old(Scores()), dets) else old(Scores()),
                                   dets, every, old(grid), old(gametime))
    {
      hide Load, TickStep, View, PackFor;
      if pending {
        pack := files;
        RunLoad(World(grid, gametime, pack), dets, every, ORIGIN, machine, depth);
        RunFunction("detmc:load");
        pending := false;
      }
      RunTick(World(grid, gametime, pack), dets, every, ORIGIN, machine, depth);
      RunFunction("detmc:tick");
      grid, gametime := next, gametime + 1;
    }

    // ----- a new world ----------------------------------------------------------

    /** Tick until the load function has run.  `Some(i)` counts the ticks. */
    method StepUntilLoaded(worlds: seq<Grid>) returns (n: Option<nat>)
      requires Valid() && pending && Scores().loaded != Some(1)
      modifies this
      ensures Valid() && files == old(files)
      ensures n == if |worlds| >= 2 then Some(1) else None
      ensures |worlds| >= 1 ==>
        !pending && gametime == old(gametime) + 1 && grid == worlds[0]
        && Scores() == TickStep(Load(old(Scores()), dets), dets, every, old(grid), old(gametime))
    {
      hide View, PackFor;
      n := None;
      for i := 0 to |worlds|
        invariant Valid() && files == old(files)
        invariant i == 0 ==> pending && machine == old(machine) && grid == old(grid) && gametime == old(gametime)
        invariant i <= 1
        invariant i == 1 ==>
          !pending && gametime == old(gametime) + 1 && grid == worlds[0]
          && Scores() == TickStep(Load(old(Scores()), dets), dets, every, old(grid), old(gametime))
      {
        if i == 1 {
          TickKeepsLoaded(Load(old(Scores()), dets), dets, every, old(grid), old(gametime));
        }
        if Scores().loaded == Some(1) {
          return Some(i);
        }
        Tick(worlds[i]);
      }
    }

    /** Reload, and tick until the load function has run.  It is a tick, and it
        is over after the first, if at least two are allowed. */
    method AwaitReload(worlds: seq<Grid>) returns (n: Option<nat>)
      requires Sound(dets) && depth > 6 && PackFor(files, dets, every)
      modifies this
      ensures Valid() && files == old(files)
      ensures n == if |worlds| >= 2 then Some(1) else None
      ensures |worlds| >= 1 ==>
        !pending && gametime == old(gametime) + 1 && grid == worlds[0]
        && Scores() == TickStep(Load(old(Scores()).(loaded := Some(0)), dets), dets, every, old(grid), old(gametime))
    {
      hide View, PackFor, Load, TickStep, LoadedFlag;
      PutLoaded(machine, 0, Names(dets));
      SetHolder(LoadedFlag(), 0);
      pending := true;
      n := StepUntilLoaded(worlds);
    }

    /** Reset every detector's scores. */
    method ResetDetectors()
      requires Valid() && !pending
      modifies this`machine
      ensures Valid() && Scores().armed == old(Scores()).armed && Scores().tick == old(Scores()).tick
      ensures Scores().any == Some(0) && Scores().first == Some(-1)
      ensures forall d :: d in dets ==> Quiet(Scores(), d.name)
    {
      hide View, PackFor, HitOf, GametimeOf, AnyHit, FirstHit;
      var names := Names(dets);
      PutAny(machine, 0, names);
      SetHolder(AnyHit(), 0);
      PutFirst(machine, -1, names);
      SetHolder(FirstHit(), -1);
      for i := 0 to |dets|
        invariant Valid() && !pending && Scores().armed == old(Scores()).armed && Scores().tick == old(Scores()).tick
        invariant Scores().any == Some(0) && Scores().first == Some(-1)
        invariant forall j :: 0 <= j < i ==> Quiet(Scores(), dets[j].name)
      {
        assert dets[i] in dets && dets[i].name in names;
        PutHit(machine, dets[i].name, 0, names);
        SetHolder(HitOf(dets[i].name), 0);
        PutGametime(machine, dets[i].name, -1, names);
        SetHolder(GametimeOf(dets[i].name), -1);
      }
    }

    /** One detector's check, run once, and its hit noted and wiped. */
    method CheckOne(d: Detector) returns (hit: bool)
      requires Valid() && !pending && d in dets
      requires forall e :: e in dets ==> Quiet(Scores(), e.name)
      modifies this`machine
      ensures Valid() && Scores().armed == old(Scores()).armed && Scores().tick == old(Scores()).tick
      ensures forall e :: e in dets ==> Quiet(Scores(), e.name)
      ensures hit <==> Present(grid, d)
    {
      hide View, PackFor, HitOf, GametimeOf, AnyHit, FirstHit, Present, CheckFn;
      var names := Names(dets);
      assert d.name in names;
      HoldsFiles(d);
      RunCheckFn(World(grid, gametime, pack), d, ORIGIN, machine, depth, names);
      RunFunction(CheckFn(d.name));
      hit := Hit(Scores(), d.name);
      PutHit(machine, d.name, 0, names);
      SetHolder(HitOf(d.name), 0);
      PutGametime(machine, d.name, -1, names);
      SetHolder(GametimeOf(d.name), -1);
    }

    /** Every detector's check, run once while the detectors are disarmed: it
        names the detectors whose predicate holds on the world as set up, and it
        leaves no hit behind. */
    method CheckUnarmed() returns (fired: set<string>)
      requires Valid() && !pending && Scores().any == Some(0)
      requires forall d :: d in dets ==> Quiet(Scores(), d.name)
      modifies this`machine
      ensures Valid() && Scores().armed == old(Scores()).armed && Scores().tick == old(Scores()).tick
      ensures Scores().any == Some(0) && Scores().first == Some(-1)
      ensures forall d :: d in dets ==> Quiet(Scores(), d.name)
      ensures fired == set d | d in dets && Present(grid, d) :: d.name
    {
      hide View, PackFor, HitOf, GametimeOf, AnyHit, FirstHit, Present, CheckFn;
      var names := Names(dets);
      fired := {};
      for i := 0 to |dets|
        invariant Valid() && !pending && Scores().armed == old(Scores()).armed && Scores().tick == old(Scores()).tick
        invariant forall d :: d in dets ==> Quiet(Scores(), d.name)
        invariant forall n :: n in fired <==> exists j :: 0 <= j < i && dets[j].name == n && Present(grid, dets[j])
      {
        var hit := CheckOne(dets[i]);
        if hit {
          fired := fired + {dets[i].name};
        }
      }
      PutAny(machine, 0, names);
      SetHolder(AnyHit(), 0);
      PutFirst(machine, -1, names);
      SetHolder(FirstHit(), -1);
    }

    lemma HoldsFiles(d: Detector)
      requires Valid() && !pending && d in dets
      ensures HoldsFilesOf(pack, d)
    {
    }

    /** Install the detectors on a new world.  Arming is the last thing that
        happens: the ticks before it spend one gametime and leave no hit. */
    method InstallDetector(generated: Pack, worlds: seq<Grid>) returns (fired: Option<set<string>>)
      requires Sound(dets) && depth > 6 && PackFor(generated, dets, every)
      modifies this
      ensures Valid()
      ensures fired.None? <==> |worlds| < 2
      ensures fired.Some? ==>
        !pending && gametime == old(gametime) + 1 && grid == worlds[0] && Installed(Scores(), dets)
        && fired.value == set d | d in dets && Present(worlds[0], d) :: d.name
    {
      hide View, PackFor, Present;
      files := generated;
      var n := AwaitReload(worlds);
      if n.None? {
        return None;
      }
      TickCountNotNegative(Load(old(Scores()).(loaded := Some(0)), dets), dets, every, old(grid), old(gametime));
      ResetDetectors();
      var found := CheckUnarmed();
      PutArmed(machine, 1, Names(dets));
      SetHolder(Armed(), 1);
      fired := Some(found);
    }

    // ----- a resumed world ------------------------------------------------------

    /** Make sure the load function's scores are there.  `#loaded` is usually 1
        from the save; if not, the load function runs by hand, without a tick and
        without touching an arming. */
    method EnsureLoaded() returns (how: Option<Loaded>)
      requires Valid() && PackFor(pack, dets, every)
      modifies this`machine
      ensures Valid() && PackFor(pack, dets, every) && Scores().loaded == Some(1)
      ensures how == Some(if old(Scores()).loaded == Some(1) then Saved else Repaired)
      ensures Scores() == if old(Scores()).loaded == Some(1) then old(Scores()) else Load(old(Scores()), dets)
    {
      hide View, PackFor, ResetTo;
      if Scores().loaded == Some(1) {
        return Some(Saved);
      }
      RunLoad(World(grid, gametime, pack), dets, every, ORIGIN, machine, depth);
      RunFunction("detmc:load");
      if Scores().loaded != Some(1) {
        return None;
      }
      how := Some(Repaired);
    }

    /** Pick a saved world back up: no tick passes, and arming comes last.  What
        happens to blocks in between is `restored`. */
    method Resume(expected: Option<int>, restored: Grid) returns (r: Resumed)
      requires Valid() && pending && PackFor(pack, dets, every)
      modifies this
      ensures Valid() && pending && gametime == old(gametime) && files == old(files)
      ensures r.Failed? <==> expected.Some? && expected.value != old(gametime)
      ensures r.Failed? ==> r.error == WrongGametime && machine == old(machine) && grid == old(grid)
      ensures r.PickedUp? ==>
        grid == restored && r.how == (if old(Scores()).loaded == Some(1) then Saved else Repaired)
        && Scores() == ResumedScores(old(Scores()), dets)
    {
      hide View, PackFor, ResetTo;
      if expected.Some? && gametime != expected.value {
        return Failed(WrongGametime);
      }
      var how := EnsureLoaded();
      if how.None? {
        return Failed(NotLoaded);
      }
      grid := restored;
      PutArmed(machine, 1, Names(dets));
      SetHolder(Armed(), 1);
      r := PickedUp(how.value);
    }

    /** Tick a segment and read `#armed` at its end, as the search does before it
        trusts the segment's hits. */
    method RunSegment(worlds: seq<Grid>) returns (armed: bool)
      requires Valid()
      modifies this
      ensures Valid() && gametime == old(gametime) + |worlds| && files == old(files)
      ensures
        var world := WorldAt(old(grid), worlds);
        Scores() ==
          if old(pending) then Session(old(Scores()), dets, every, world, old(gametime), |worlds|)
          else After(old(Scores()), dets, every, world, old(gametime), |worlds|)
      ensures grid == WorldAt(old(grid), worlds)(|worlds|)
      ensures armed <==> Scores().armed == Some(1)
    {
      hide View, PackFor, Load, TickStep;
      ghost var world := WorldAt(grid, worlds);
      ghost var start := if pending then Load(Scores(), dets) else Scores();
      for i := 0 to |worlds|
        invariant Valid() && gametime == old(gametime) + i && files == old(files) && grid == world(i)
        invariant i == 0 ==> pending == old(pending) && machine == old(machine)
        invariant i > 0 ==> !pending && Scores() == After(start, dets, every, world, old(gametime), i)
      {
        assert i == 0 ==> After(start, dets, every, world, old(gametime), 0) == start;
        Tick(worlds[i]);
      }
      armed := Scores().armed == Some(1);
    }
  }

  /** Cleared, with no hit time. */
  predicate Quiet(v: Watch, name: string) {
    Clear(v, name) && name in v.gts && v.gts[name] == -1
  }

  lemma TickKeepsLoaded(v: Watch, dets: seq<Detector>, every: int, g: Grid, t: int)
    ensures TickStep(v, dets, every, g, t).loaded == v.loaded
  {
    TicksKeepArmed(v, dets, every, i => g, t, 1);
    assert After(v, dets, every, i => g, t, 0) == v;
  }

  lemma TickCountNotNegative(v: Watch, dets: seq<Detector>, every: int, g: Grid, t: int)
    requires StartCount(v) >= 0
    ensures StartCount(TickStep(v, dets, every, g, t)) >= 0
  {
    var counted := Ticked(v, every);
    ChecksKeep(if every > 1 then counted.(tick := Some(0)) else counted, dets, |dets|, g, t);
  }

  /** The scores of a world that was picked back up, before its first tick. */
  function ResumedScores(v: Watch, dets: seq<Detector>): Watch {
    (if v.loaded == Some(1) then v else Load(v, dets)).(armed := Some(1))
  }

  /** A node of the search: a saved world resumed at the gametime expected of it,
      and ticked for a segment.  Its detectors are armed at the end, and one whose
      predicate held for `every` ticks in a row, with everything it requires fired
      in the session before them, is latched. */
  method ResumedSegment(r: Replica, expected: int, restored: Grid, worlds: seq<Grid>) returns (armed: bool)
    requires r.Valid() && r.pending && PackFor(r.pack, r.dets, r.every) && r.gametime == expected && |worlds| > 0
    modifies r
    ensures armed && r.gametime == expected + |worlds|
    ensures
      var start, world := ResumedScores(old(r.Scores()), r.dets), WorldAt(restored, worlds);
      forall q, a :: WatchedFor(start, r.dets, r.every, world, expected, q, a, |worlds|) ==> Hit(r.Scores(), r.dets[q].name)
  {
    hide View, PackFor, Load, TickStep, Session, ResumedScores;
    var resumed := r.Resume(Some(expected), restored);
    ghost var start := r.Scores();
    armed := r.RunSegment(worlds);
    ghost var world := WorldAt(restored, worlds);
    ArmedOnResume(old(r.Scores()), r.dets);
    ResumedStaysArmed(start, r.dets, r.every, world, expected, |worlds|);
    forall q, a | WatchedFor(start, r.dets, r.every, world, expected, q, a, |worlds|)
      ensures Hit(r.Scores(), r.dets[q].name)
    {
      SessionWatches(start, r.dets, r.every, world, expected, q, a, |worlds|);
    }
  }

  lemma ArmedOnResume(v: Watch, dets: seq<Detector>)
    ensures ResumedScores(v, dets).armed == Some(1)
  {
  }

  /** Detector `q`'s predicate held for `every` ticks in a row from the session's
      tick `a` on, and all it requires had fired in the session by then. */
  ghost predicate WatchedFor(v: Watch, dets: seq<Detector>, every: int, world: nat -> Grid, t: int, q: int, a: int, n: nat) {
    && 0 <= q < |dets| && 0 <= a && a + Max(every, 1) <= n
    && (forall i :: a <= i < a + Max(every, 1) ==> Present(world(i), dets[q]))
    && (if a == 0 then dets[q].needs == []
        else forall r :: r in dets[q].needs ==> Hit(Session(v, dets, every, world, t, a), r))
  }

  lemma SessionWatches(v: Watch, dets: seq<Detector>, every: int, world: nat -> Grid, t: int, q: nat, a: nat, n: nat)
    requires Sound(dets) && v.armed == Some(1) && WatchedFor(v, dets, every, world, t, q, a, n)
    ensures Hit(Session(v, dets, every, world, t, n), dets[q].name)
  {
    if a > 0 {
      ResumedWatches(v, dets, every, world, t, q, a, n);
    } else {
      LoadIsFresh(v, dets);
      HeldIsLatched(Load(v, dets), dets, every, world, t, q, a, n);
    }
  }
}
