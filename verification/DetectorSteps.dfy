// Running the generated functions does to the scoreboard what the step functions
// of the detector state machine say.

module DetectorSteps {
  import opened Options
  import opened Mcfunction
  import opened Patterns
  import opened PatternPack
  import opened PatternCorrectness
  import opened DetectorPack
  import opened DetectorWatch

  function Get(b: map<string, int>, k: string): Option<int> {
    if k in b then Some(b[k]) else None
  }

  function HitsOf(b: map<string, int>, names: set<string>): map<string, int> {
    map n | n in names && HitOf(n) in b :: b[HitOf(n)]
  }

  function GametimesOf(b: map<string, int>, names: set<string>): map<string, int> {
    map n | n in names && GametimeOf(n) in b :: b[GametimeOf(n)]
  }

  /** The detector scores of a scoreboard. */
  function View(m: Machine, names: set<string>): Watch {
    Watch(Get(m.scores, Armed()), Get(m.scores, TickCount()), Get(m.scores, LoadedFlag()),
          Get(m.scores, AnyHit()), Get(m.scores, FirstHit()), HitsOf(m.scores, names), GametimesOf(m.scores, names))
  }

  // ----- holders --------------------------------------------------------------

  predicate Fixed(k: string) {
    k == Armed() || k == TickCount() || k == LoadedFlag() || k == AnyHit() || k == FirstHit()
  }

  ghost predicate Watched(k: string, names: set<string>) {
    Fixed(k) || (exists n :: n in names && HitOf(n) == k) || (exists n :: n in names && GametimeOf(n) == k)
  }

  lemma FixedNames()
    ensures Armed() != TickCount() && Armed() != LoadedFlag() && Armed() != AnyHit() && Armed() != FirstHit()
    ensures TickCount() != LoadedFlag() && TickCount() != AnyHit() && TickCount() != FirstHit()
    ensures LoadedFlag() != AnyHit() && LoadedFlag() != FirstHit() && AnyHit() != FirstHit()
  {
    assert Armed()[1] == 'a' && TickCount()[1] == 't' && LoadedFlag()[1] == 'l' && AnyHit()[1] == 'h' && FirstHit()[1] == 'h';
    assert |AnyHit()| == 4 && |FirstHit()| == 6;
  }

  lemma HitName(n: string)
    ensures forall k :: HitOf(k) == HitOf(n) ==> k == n
    ensures forall k :: GametimeOf(k) != HitOf(n)
    ensures !Fixed(HitOf(n))
  {
    forall k: string ensures HitOf(k)[5..] == k && HitOf(k)[1] == 'h' && HitOf(k)[4] == '_' && GametimeOf(k)[1] == 'g' {
    }
    assert FirstHit()[4] == 'g' && |AnyHit()| == 4;
    assert Armed()[1] == 'a' && TickCount()[1] == 't' && LoadedFlag()[1] == 'l';
  }

  lemma GametimeName(n: string)
    ensures forall k :: GametimeOf(k) == GametimeOf(n) ==> k == n
    ensures forall k :: HitOf(k) != GametimeOf(n)
    ensures !Fixed(GametimeOf(n))
  {
    forall k: string ensures GametimeOf(k)[4..] == k && GametimeOf(k)[1] == 'g' && HitOf(k)[1] == 'h' {
    }
    assert Armed()[1] == 'a' && TickCount()[1] == 't' && LoadedFlag()[1] == 'l' && AnyHit()[1] == 'h' && FirstHit()[1] == 'h';
  }

  lemma FixedName(k: string)
    requires Fixed(k)
    ensures forall n :: HitOf(n) != k
    ensures forall n :: GametimeOf(n) != k
  {
    forall n ensures HitOf(n) != k && GametimeOf(n) != k {
      HitName(n);
      GametimeName(n);
    }
  }

  /** A holder whose name does not start with one of the watched letters. */
  lemma UnwatchedByLetter(k: string, names: set<string>)
    requires |k| >= 3 && (k[1] == 'c' || k[1] == 'f' || k[1] == 'v' || (k[1] == 't' && k[2] == 'h'))
    ensures !Watched(k, names)
  {
    assert Armed()[1] == 'a' && TickCount()[1] == 't' && TickCount()[2] == 'i' && LoadedFlag()[1] == 'l';
    assert AnyHit()[1] == 'h' && FirstHit()[1] == 'h';
    forall n ensures HitOf(n)[1] == 'h' && GametimeOf(n)[1] == 'g' {
    }
  }

  lemma ScratchIsUnwatched(name: string, names: set<string>)
    ensures !Watched(CounterOf(name), names) && !Watched(RestCounter(CounterOf(name)), names)
    ensures !Watched(ValueOf(name), names) && !Watched(ThresholdOf(name), names)
    ensures CounterOf(name) != RestCounter(CounterOf(name))
  {
    var ctr := CounterOf(name);
    assert ctr[0] == '#' && ctr[1] == 'c' && ctr[2] == '_';
    assert StartsWith(ctr, "#c_");
    assert RestCounter(ctr)[1] == 'f';
    UnwatchedByLetter(ctr, names);
    UnwatchedByLetter(RestCounter(ctr), names);
    assert ValueOf(name)[1] == 'v' && ThresholdOf(name)[1] == 't' && ThresholdOf(name)[2] == 'h';
    UnwatchedByLetter(ValueOf(name), names);
    UnwatchedByLetter(ThresholdOf(name), names);
  }

  // ----- the view of an update ------------------------------------------------

  lemma HitsSkip(b: map<string, int>, k: string, v: int, names: set<string>)
    requires forall n :: n in names ==> HitOf(n) != k
    ensures HitsOf(b[k := v], names) == HitsOf(b, names)
  {
    hide HitOf;
  }

  lemma GametimesSkip(b: map<string, int>, k: string, v: int, names: set<string>)
    requires forall n :: n in names ==> GametimeOf(n) != k
    ensures GametimesOf(b[k := v], names) == GametimesOf(b, names)
  {
    hide GametimeOf;
  }

  lemma PutUnwatched(m: Machine, k: string, v: int, names: set<string>)
    requires !Watched(k, names)
    ensures View(m.Put(k, v), names) == View(m, names)
  {
    hide HitOf, GametimeOf, Armed, TickCount, LoadedFlag, AnyHit, FirstHit, HitsOf, GametimesOf;
    HitsSkip(m.scores, k, v, names);
    GametimesSkip(m.scores, k, v, names);
  }

  lemma FixedLeavesHits(m: Machine, k: string, v: int, names: set<string>)
    requires Fixed(k)
    ensures HitsOf(m.scores[k := v], names) == HitsOf(m.scores, names)
    ensures GametimesOf(m.scores[k := v], names) == GametimesOf(m.scores, names)
  {
    hide Fixed, HitOf, GametimeOf, HitsOf, GametimesOf;
    FixedName(k);
    HitsSkip(m.scores, k, v, names);
    GametimesSkip(m.scores, k, v, names);
  }

  lemma PutArmed(m: Machine, v: int, names: set<string>)
    ensures View(m.Put(Armed(), v), names) == View(m, names).(armed := Some(v))
  {
    FixedNames();
    FixedLeavesHits(m, Armed(), v, names);
    hide Armed, TickCount, LoadedFlag, AnyHit, FirstHit, HitsOf, GametimesOf;
  }

  lemma PutTick(m: Machine, v: int, names: set<string>)
    ensures View(m.Put(TickCount(), v), names) == View(m, names).(tick := Some(v))
  {
    FixedNames();
    FixedLeavesHits(m, TickCount(), v, names);
    hide Armed, TickCount, LoadedFlag, AnyHit, FirstHit, HitsOf, GametimesOf;
  }

  lemma PutLoaded(m: Machine, v: int, names: set<string>)
    ensures View(m.Put(LoadedFlag(), v), names) == View(m, names).(loaded := Some(v))
  {
    FixedNames();
    FixedLeavesHits(m, LoadedFlag(), v, names);
    hide Armed, TickCount, LoadedFlag, AnyHit, FirstHit, HitsOf, GametimesOf;
  }

  lemma PutAny(m: Machine, v: int, names: set<string>)
    ensures View(m.Put(AnyHit(), v), names) == View(m, names).(any := Some(v))
  {
    FixedNames();
    FixedLeavesHits(m, AnyHit(), v, names);
    hide Armed, TickCount, LoadedFlag, AnyHit, FirstHit, HitsOf, GametimesOf;
  }

  lemma PutFirst(m: Machine, v: int, names: set<string>)
    ensures View(m.Put(FirstHit(), v), names) == View(m, names).(first := Some(v))
  {
    FixedNames();
    FixedLeavesHits(m, FirstHit(), v, names);
    hide Armed, TickCount, LoadedFlag, AnyHit, FirstHit, HitsOf, GametimesOf;
  }

  lemma HitsPut(b: map<string, int>, n: string, v: int, names: set<string>)
    requires n in names
    ensures HitsOf(b[HitOf(n) := v], names) == HitsOf(b, names)[n := v]
  {
    hide HitOf, GametimeOf, Fixed;
    HitName(n);
  }

  lemma GametimesPut(b: map<string, int>, n: string, v: int, names: set<string>)
    requires n in names
    ensures GametimesOf(b[GametimeOf(n) := v], names) == GametimesOf(b, names)[n := v]
  {
    hide HitOf, GametimeOf, Fixed;
    GametimeName(n);
  }

  lemma PutHit(m: Machine, n: string, v: int, names: set<string>)
    requires n in names
    ensures View(m.Put(HitOf(n), v), names) == View(m, names).(hits := View(m, names).hits[n := v])
  {
    hide HitOf, GametimeOf, HitsOf, GametimesOf, Armed, TickCount, LoadedFlag, AnyHit, FirstHit;
    HitName(n);
    HitsPut(m.scores, n, v, names);
    GametimesSkip(m.scores, HitOf(n), v, names);
  }

  lemma PutGametime(m: Machine, n: string, v: int, names: set<string>)
    requires n in names
    ensures View(m.Put(GametimeOf(n), v), names) == View(m, names).(gts := View(m, names).gts[n := v])
  {
    hide HitOf, GametimeOf, HitsOf, GametimesOf, Armed, TickCount, LoadedFlag, AnyHit, FirstHit;
    GametimeName(n);
    GametimesPut(m.scores, n, v, names);
    HitsSkip(m.scores, GametimeOf(n), v, names);
  }

  // ----- reading the view -----------------------------------------------------

  lemma ReadsHit(w: World, n: string, v: int, at: Pos, m: Machine, names: set<string>)
    requires n in names
    ensures Holds(w, IfScore(HitOf(n), Exactly(v)), at, m) <==>
      n in View(m, names).hits && View(m, names).hits[n] == v
  {
    hide HitOf, GametimeOf, Armed, TickCount, LoadedFlag, AnyHit, FirstHit, GametimesOf, HitsOf;
    HitsRead(m.scores, n, names);
  }

  lemma HitsRead(b: map<string, int>, n: string, names: set<string>)
    requires n in names
    ensures n in HitsOf(b, names) <==> HitOf(n) in b
    ensures HitOf(n) in b ==> HitsOf(b, names)[n] == b[HitOf(n)]
  {
    hide HitOf;
  }

  lemma ReadsArmed(w: World, at: Pos, m: Machine, names: set<string>)
    ensures Holds(w, IfScore(Armed(), Exactly(1)), at, m) <==> View(m, names).armed == Some(1)
  {
    hide Armed, TickCount, LoadedFlag, AnyHit, FirstHit, GametimesOf, HitsOf;
  }

  lemma ReadsTick(w: World, every: int, at: Pos, m: Machine, names: set<string>)
    ensures m.Score(TickCount()) == StartCount(View(m, names))
    ensures Holds(w, IfScore(TickCount(), AtLeast(every)), at, m) <==>
      View(m, names).tick.Some? && View(m, names).tick.value >= every
  {
    hide Armed, TickCount, LoadedFlag, AnyHit, FirstHit, GametimesOf, HitsOf;
  }

  lemma ReadsAny(w: World, at: Pos, m: Machine, names: set<string>)
    ensures Holds(w, IfScore(AnyHit(), Exactly(0)), at, m) <==> View(m, names).any == Some(0)
  {
    hide Armed, TickCount, LoadedFlag, AnyHit, FirstHit, GametimesOf, HitsOf;
  }

  /** `#armed` has no value, or none the test for a value sees. */
  lemma ReadsUnarmed(w: World, at: Pos, m: Machine, names: set<string>)
    ensures Holds(w, UnlessScore(Armed(), AtLeast(MIN_INT)), at, m) <==>
      !(View(m, names).armed.Some? && View(m, names).armed.value >= MIN_INT)
  {
    hide Armed, TickCount, LoadedFlag, AnyHit, FirstHit, GametimesOf, HitsOf;
  }

  // ----- calls and conditions -------------------------------------------------

  function Called(m: Machine, fn: string, at: Pos): Machine {
    m.(calls := m.calls + [FnCall(fn, at)])
  }

  lemma CallRuns(w: World, fn: string, at: Pos, m: Machine, depth: nat, names: set<string>)
    requires depth > 0 && fn in w.pack
    ensures Exec(w, Call(fn), at, m, depth) == ExecAll(w, w.pack[fn], at, Called(m, fn, at), depth - 1)
    ensures View(Called(m, fn, at), names) == View(m, names)
  {
    hide HitsOf, GametimesOf, Armed, TickCount, LoadedFlag, AnyHit, FirstHit;
  }

  lemma ExecuteRuns(w: World, mods: seq<Modifier>, run: Command, at: Pos, m: Machine, depth: nat)
    ensures
      var there := Chain(w, mods, at, m);
      Exec(w, Execute(mods, run), at, m, depth) == if there.Some? then Exec(w, run, there.value, m, depth) else m
  {
    hide Chain;
  }

  lemma SetRuns(w: World, h: string, v: int, at: Pos, m: Machine, depth: nat)
    ensures Exec(w, SetScore(h, v), at, m, depth) == m.Put(h, v)
    ensures Exec(w, AddScore(h, v), at, m, depth) == m.Put(h, m.Score(h) + v)
  {
  }

  /** A command under one test. */
  lemma TestRuns(w: World, t: Test, run: Command, at: Pos, m: Machine, depth: nat)
    ensures Exec(w, Execute([Check(t)], run), at, m, depth) == if Holds(w, t, at, m) then Exec(w, run, at, m, depth) else m
  {
    ExecuteRuns(w, [Check(t)], run, at, m, depth);
    hide Exec, Chain, Holds;
    ChainTest(w, t, at, m);
  }

  /** A test in front of more conditions. */
  lemma ChainHead(w: World, t: Test, rest: seq<Modifier>, at: Pos, m: Machine)
    ensures Chain(w, [Check(t)] + rest, at, m) == if Holds(w, t, at, m) then Chain(w, rest, at, m) else None
  {
    hide Chain, Holds;
    ChainConcat(w, [Check(t)], rest, at, m);
    ChainTest(w, t, at, m);
  }

  // ----- the hit function -----------------------------------------------------

  lemma ExecFour(w: World, a: Command, b: Command, c: Command, d: Command, at: Pos, m: Machine, depth: nat)
    ensures ExecAll(w, [a, b, c, d], at, m, depth) ==
      Exec(w, d, at, Exec(w, c, at, Exec(w, b, at, Exec(w, a, at, m, depth), depth), depth), depth)
  {
    assert [a, b, c, d] == [a] + ([b] + ([c] + [d]));
    ExecConcat(w, [a], [b] + ([c] + [d]), at, m, depth);
    ExecOne(w, a, at, m, depth);
    var m1 := Exec(w, a, at, m, depth);
    ExecConcat(w, [b], [c] + [d], at, m1, depth);
    ExecOne(w, b, at, m1, depth);
    var m2 := Exec(w, b, at, m1, depth);
    ExecConcat(w, [c], [d], at, m2, depth);
    ExecOne(w, c, at, m2, depth);
    ExecOne(w, d, at, Exec(w, c, at, m2, depth), depth);
  }

  /** A hit latches the detector, stamps it, and stamps the global hit if it is the
      first. */
  lemma RunHitLines(w: World, name: string, at: Pos, m: Machine, depth: nat, names: set<string>)
    requires name in names
    ensures View(ExecAll(w, HitLines(name), at, m, depth), names) == Fired(View(m, names), name, w.gametime)
  {
    hide HitOf, GametimeOf, Armed, TickCount, LoadedFlag, AnyHit, FirstHit, View, ExecAll, Chain, Holds;
    var first := Execute([Check(IfScore(AnyHit(), Exactly(0)))], StoreGametime(FirstHit()));
    ExecFour(w, SetScore(HitOf(name), 1), StoreGametime(GametimeOf(name)), first, SetScore(AnyHit(), 1), at, m, depth);
    var m1 := m.Put(HitOf(name), 1);
    PutHit(m, name, 1, names);
    var m2 := m1.Put(GametimeOf(name), w.gametime);
    PutGametime(m1, name, w.gametime, names);
    TestRuns(w, IfScore(AnyHit(), Exactly(0)), StoreGametime(FirstHit()), at, m2, depth);
    ReadsAny(w, at, m2, names);
    var m3 := Exec(w, first, at, m2, depth);
    PutFirst(m2, w.gametime, names);
    PutAny(m3, 1, names);
  }

  lemma RunHitFn(w: World, name: string, at: Pos, m: Machine, depth: nat, names: set<string>)
    requires name in names && depth > 0 && HitFn(name) in w.pack && w.pack[HitFn(name)] == HitLines(name)
    ensures View(Exec(w, Call(HitFn(name)), at, m, depth), names) == Fired(View(m, names), name, w.gametime)
  {
    hide View, Exec, ExecAll, HitFn, HitLines, Fired, Called;
    CallRuns(w, HitFn(name), at, m, depth, names);
    RunHitLines(w, name, at, Called(m, HitFn(name), at), depth - 1, names);
  }

  // ----- column stacks --------------------------------------------------------

  lemma {:induction false} ChainSolid(w: World, x: int, y: int, z: int, n: int, at: Pos, m: Machine)
    ensures Chain(w, SolidFrom(x, y, z, n), at, m) == if Stands(w.grid, Window(x, y, z), n) then Some(at) else None
    decreases Max(n, 0)
  {
    if n > 0 {
      var head := UnlessAir(Place(Abs(x), Abs(y), Abs(z)));
      ChainHead(w, head, SolidFrom(x, y + 1, z, n - 1), at, m);
      ChainSolid(w, x, y + 1, z, n - 1, at, m);
    }
  }

  lemma RunColumnLine(w: World, name: string, c: Window, height: int, at: Pos, m: Machine, depth: nat, names: set<string>)
    requires name in names && depth > 0 && HitFn(name) in w.pack && w.pack[HitFn(name)] == HitLines(name)
    ensures View(Exec(w, ColumnLine(name, c, height), at, m, depth), names) ==
      if Clear(View(m, names), name) && Stands(w.grid, c, height) then Fired(View(m, names), name, w.gametime)
      else View(m, names)
  {
    hide HitFn, HitOf, HitLines, SolidFrom, Stands, View, Exec, Chain, Holds, Fired;
    var guard := IfScore(HitOf(name), Exactly(0));
    ExecuteRuns(w, [Check(guard)] + SolidFrom(c.x, c.y, c.z, height), Call(HitFn(name)), at, m, depth);
    ChainHead(w, guard, SolidFrom(c.x, c.y, c.z, height), at, m);
    ReadsHit(w, name, 0, at, m, names);
    ChainSolid(w, c.x, c.y, c.z, height, at, m);
    RunHitFn(w, name, at, m, depth, names);
  }

  /** Lines that each fire a detector under a condition fire it if one of the
      conditions holds. */
  lemma {:induction false} RunColumnLines(w: World, name: string, cs: seq<Window>, height: int, at: Pos, m: Machine, depth: nat,
                                          names: set<string>)
    requires name in names && depth > 0 && HitFn(name) in w.pack && w.pack[HitFn(name)] == HitLines(name)
    ensures View(ExecAll(w, ColumnLines(name, cs, height), at, m, depth), names) ==
      if Clear(View(m, names), name) && exists c :: c in cs && Stands(w.grid, c, height)
      then Fired(View(m, names), name, w.gametime) else View(m, names)
    decreases |cs|
  {
    hide Stands, ColumnLine, View, HitFn, HitLines, Exec;
    if cs != [] {
      var m1 := Exec(w, ColumnLine(name, cs[0], height), at, m, depth);
      RunColumnLine(w, name, cs[0], height, at, m, depth, names);
      RunColumnLines(w, name, cs[1..], height, at, m1, depth, names);
      assert ColumnLines(name, cs, height)[1..] == ColumnLines(name, cs[1..], height);
      assert forall c :: c in cs <==> c == cs[0] || c in cs[1..];
    }
  }

  // ----- patterns -------------------------------------------------------------

  lemma CountedView(g: Grid, p: Pattern, win: Window, name: string, m: Machine, names: set<string>)
    ensures View(Counted(g, p, win, CounterOf(name), RestCounter(CounterOf(name)), m), names) == View(m, names)
  {
    hide CounterOf, RestCounter, View, Watched;
    var ctr := CounterOf(name);
    var ctrf := RestCounter(ctr);
    ScratchIsUnwatched(name, names);
    var m1 := if p.anyOf == [] then m else m.Put(ctr, CountMarked(g, p.anyOf, win));
    PutUnwatched(m, ctr, CountMarked(g, p.anyOf, win), names);
    PutUnwatched(m1, ctrf, CountMarked(g, p.Forbidden(), win), names);
  }

  predicate HasPattern(w: World, name: string, p: Pattern) {
    var ctr := CounterOf(name);
    && HitFn(name) in w.pack && w.pack[HitFn(name)] == HitLines(name)
    && CountFn(name) in w.pack && w.pack[CountFn(name)] == SecondStage(p, HitFn(name), ctr, RestCounter(ctr))
  }

  lemma RunPatternLine(w: World, name: string, p: Pattern, win: Window, at: Pos, m: Machine, depth: nat, names: set<string>)
    requires name in names && depth > 1 && HasPattern(w, name, p)
    ensures View(Exec(w, WindowLine(p, win, HitOf(name), CountFn(name)), at, m, depth), names) ==
      if Clear(View(m, names), name) && Passes(w.grid, p, win) then Fired(View(m, names), name, w.gametime)
      else View(m, names)
  {
    hide HitOf, HitFn, CountFn, CounterOf, RestCounter, HitLines, SecondStage, View, Counted, AllMarked, TopAtAll, Chain,
      Exec, ExecAll, PassesSecond, Called, Fired, Holds, FlagClear;
    var ctr := CounterOf(name);
    var ctrf := RestCounter(ctr);
    var mods := [Check(IfScore(HitOf(name), Exactly(0))), Positioned(win.x, win.y, win.z)] + TopAtAll(p.required);
    ExecuteRuns(w, mods, Call(CountFn(name)), at, m, depth);
    LineChain(w, p, win, HitOf(name), at, m);
    FlagIsClear(m, name, names);
    ScratchIsUnwatched(name, names);
    var called := Called(m, CountFn(name), Corner(win));
    CallRuns(w, CountFn(name), Corner(win), m, depth, names);
    RunSecondStage(w, p, win, HitFn(name), ctr, ctrf, called, depth - 1);
    CountedView(w.grid, p, win, name, called, names);
    RunHitFn(w, name, Corner(win), Counted(w.grid, p, win, ctr, ctrf, called), depth - 1, names);
  }

  lemma FlagIsClear(m: Machine, name: string, names: set<string>)
    requires name in names
    ensures FlagClear(m, HitOf(name)) <==> Clear(View(m, names), name)
  {
    hide HitOf, GametimeOf, Armed, TickCount, LoadedFlag, AnyHit, FirstHit, GametimesOf, HitsOf;
    HitsRead(m.scores, name, names);
  }

  lemma {:induction false} RunPatternLines(w: World, name: string, p: Pattern, ws: seq<Window>, at: Pos, m: Machine, depth: nat,
                                           names: set<string>)
    requires name in names && depth > 1 && HasPattern(w, name, p)
    ensures View(ExecAll(w, WindowLines(p, ws, HitOf(name), CountFn(name)), at, m, depth), names) ==
      if Clear(View(m, names), name) && exists c :: c in ws && Passes(w.grid, p, c)
      then Fired(View(m, names), name, w.gametime) else View(m, names)
    decreases |ws|
  {
    hide Passes, WindowLine, View, HasPattern, Exec, HitOf, CountFn;
    if ws != [] {
      var line := WindowLine(p, ws[0], HitOf(name), CountFn(name));
      var m1 := Exec(w, line, at, m, depth);
      RunPatternLine(w, name, p, ws[0], at, m, depth, names);
      RunPatternLines(w, name, p, ws[1..], at, m1, depth, names);
      assert WindowLines(p, ws, HitOf(name), CountFn(name))[1..] == WindowLines(p, ws[1..], HitOf(name), CountFn(name));
      assert forall c :: c in ws <==> c == ws[0] || c in ws[1..];
    }
  }

  // ----- one detector ---------------------------------------------------------

  lemma SkipComment(w: World, cs: seq<Command>, at: Pos, m: Machine, depth: nat)
    ensures ExecAll(w, [Comment] + cs, at, m, depth) == ExecAll(w, cs, at, m, depth)
  {
    ExecConcat(w, [Comment], cs, at, m, depth);
    ExecOne(w, Comment, at, m, depth);
  }

  /** A detector's check, run by itself, fires exactly when the detector has not
      fired yet and what it looks for is there, and changes nothing else. */
  lemma RunBody(w: World, d: Detector, at: Pos, m: Machine, depth: nat, names: set<string>)
    requires (d.kind.ColumnStack? || d.kind.PatternScan?) && HoldsFilesOf(w.pack, d) && d.name in names && depth > 1
    ensures View(ExecAll(w, Body(d), at, m, depth), names) ==
      if Clear(View(m, names), d.name) && Present(w.grid, d) then Fired(View(m, names), d.name, w.gametime)
      else View(m, names)
  {
    hide HitFn, CountFn, CounterOf, RestCounter, HitLines, SecondStage, Stands, Passes, HitOf, ExecAll, View, Windows, Columns,
      ColumnLines, WindowLines, Fired;
    match d.kind
    case ColumnStack(a, base, height) =>
      SkipComment(w, ColumnLines(d.name, Columns(a, base), height), at, m, depth);
      RunColumnLines(w, d.name, Columns(a, base), height, at, m, depth, names);
    case PatternScan(p, a, low, levels) =>
      var ws := Windows(a, p.size, ScanLevels(low, levels));
      SkipComment(w, WindowLines(p, ws, HitOf(d.name), CountFn(d.name)), at, m, depth);
      RunPatternLines(w, d.name, p, ws, at, m, depth, names);
  }

  lemma RunCheckFn(w: World, d: Detector, at: Pos, m: Machine, depth: nat, names: set<string>)
    requires (d.kind.ColumnStack? || d.kind.PatternScan?) && HoldsFilesOf(w.pack, d) && d.name in names && depth > 2
    ensures View(Exec(w, Call(CheckFn(d.name)), at, m, depth), names) ==
      if Clear(View(m, names), d.name) && Present(w.grid, d) then Fired(View(m, names), d.name, w.gametime)
      else View(m, names)
  {
    hide Body, Present, View, Exec, ExecAll, Called, CheckFn, Fired, Clear;
    CallRuns(w, CheckFn(d.name), at, m, depth, names);
    RunBody(w, d, at, Called(m, CheckFn(d.name), at), depth - 1, names);
  }

  lemma {:induction false} ChainNeeds(w: World, needs: seq<string>, at: Pos, m: Machine, names: set<string>)
    requires forall r :: r in needs ==> r in names
    ensures Chain(w, NeedTests(needs), at, m) ==
      if forall r :: r in needs ==> Hit(View(m, names), r) then Some(at) else None
  {
    hide View, Holds, HitOf;
    if needs != [] {
      var test := IfScore(HitOf(needs[0]), Exactly(1));
      ChainHead(w, test, NeedTests(needs[1..]), at, m);
      ReadsHit(w, needs[0], 1, at, m, names);
      ChainNeeds(w, needs[1..], at, m, names);
      assert needs[0] in needs && forall r :: r in needs <==> r == needs[0] || r in needs[1..];
    }
  }

  lemma RunGateLine(w: World, d: Detector, at: Pos, m: Machine, depth: nat, names: set<string>)
    requires (d.kind.ColumnStack? || d.kind.PatternScan?) && HoldsFilesOf(w.pack, d) && d.name in names && depth > 2
    requires forall r :: r in d.needs ==> r in names
    ensures View(Exec(w, GateLine(d), at, m, depth), names) == CheckOne(View(m, names), d, w.grid, w.gametime)
  {
    hide Present, HoldsFilesOf, View, NeedTests, Holds, Chain, Exec, HitOf, CheckFn, Fired;
    var guard := IfScore(HitOf(d.name), Exactly(0));
    ExecuteRuns(w, [Check(guard)] + NeedTests(d.needs), Call(CheckFn(d.name)), at, m, depth);
    ChainHead(w, guard, NeedTests(d.needs), at, m);
    ReadsHit(w, d.name, 0, at, m, names);
    ChainNeeds(w, d.needs, at, m, names);
    RunCheckFn(w, d, at, m, depth, names);
  }

  // ----- the whole pack -------------------------------------------------------

  /** The check function, line by line. */
  lemma {:induction false} RunChecks(w: World, dets: seq<Detector>, k: nat, at: Pos, m: Machine, depth: nat)
    requires Sound(dets) && k <= |dets| && depth > 2
    requires forall d :: d in dets ==> HoldsFilesOf(w.pack, d)
    ensures View(ExecAll(w, CheckAllLines(dets[..k]), at, m, depth), Names(dets)) ==
      CheckUpTo(View(m, Names(dets)), dets, k, w.grid, w.gametime)
  {
    hide HoldsFilesOf, View, GateLine, CheckOne, Exec;
    if k > 0 {
      var d := dets[k - 1];
      RunChecks(w, dets, k - 1, at, m, depth);
      CheckAllExtend(dets, k - 1);
      ExecConcat(w, CheckAllLines(dets[..k - 1]), [GateLine(d)], at, m, depth);
      var m1 := ExecAll(w, CheckAllLines(dets[..k - 1]), at, m, depth);
      ExecOne(w, GateLine(d), at, m1, depth);
      assert d in dets && d.name in Names(dets);
      RunGateLine(w, d, at, m1, depth, Names(dets));
    }
  }

  lemma RunCheckAll(w: World, dets: seq<Detector>, every: int, at: Pos, m: Machine, depth: nat)
    requires Sound(dets) && PackFor(w.pack, dets, every) && depth > 3
    ensures View(Exec(w, Call("detmc:check"), at, m, depth), Names(dets)) ==
      CheckUpTo(View(m, Names(dets)), dets, |dets|, w.grid, w.gametime)
  {
    hide HoldsFilesOf, CheckUpTo, View, Exec, ExecAll, Called, CheckAllLines;
    CallRuns(w, "detmc:check", at, m, depth, Names(dets));
    assert dets[..|dets|] == dets;
    RunChecks(w, dets, |dets|, at, Called(m, "detmc:check", at), depth - 1);
  }

  /** The tick function does what the state machine's tick does. */
  lemma RunTick(w: World, dets: seq<Detector>, every: int, at: Pos, m: Machine, depth: nat)
    requires Sound(dets) && PackFor(w.pack, dets, every) && depth > 5
    ensures View(Exec(w, Call("detmc:tick"), at, m, depth), Names(dets)) ==
      TickStep(View(m, Names(dets)), dets, every, w.grid, w.gametime)
  {
    hide HoldsFilesOf, CheckUpTo, View, Exec, ExecAll, Called, Holds, Armed, TickCount;
    var names := Names(dets);
    var called := Called(m, "detmc:tick", at);
    CallRuns(w, "detmc:tick", at, m, depth, names);
    if every > 1 {
      RunGatedTick(w, dets, every, at, called, depth - 1);
    } else {
      var armed := IfScore(Armed(), Exactly(1));
      ExecOne(w, TickLines(every)[0], at, called, depth - 1);
      TestRuns(w, armed, Call("detmc:check"), at, called, depth - 1);
      ReadsArmed(w, at, called, names);
      RunCheckAll(w, dets, every, at, called, depth - 1);
    }
  }

  lemma RunGate(w: World, dets: seq<Detector>, every: int, at: Pos, m: Machine, depth: nat)
    requires Sound(dets) && every > 1 && PackFor(w.pack, dets, every) && depth > 4
    ensures View(Exec(w, Call("detmc:gate"), at, m, depth), Names(dets)) ==
      CheckUpTo(View(m, Names(dets)).(tick := Some(0)), dets, |dets|, w.grid, w.gametime)
  {
    hide HoldsFilesOf, CheckUpTo, View, Exec, ExecAll, Called, TickCount;
    var called := Called(m, "detmc:gate", at);
    var reset, check := SetScore(TickCount(), 0), Call("detmc:check");
    CallRuns(w, "detmc:gate", at, m, depth, Names(dets));
    assert GateLines() == [reset] + [check];
    ExecConcat(w, [reset], [check], at, called, depth - 1);
    ExecOne(w, reset, at, called, depth - 1);
    SetRuns(w, TickCount(), 0, at, called, depth - 1);
    PutTick(called, 0, Names(dets));
    var m1 := called.Put(TickCount(), 0);
    ExecOne(w, check, at, m1, depth - 1);
    RunCheckAll(w, dets, every, at, m1, depth - 1);
  }

  lemma RunGatedTick(w: World, dets: seq<Detector>, every: int, at: Pos, m: Machine, depth: nat)
    requires Sound(dets) && every > 1 && PackFor(w.pack, dets, every) && depth > 4
    ensures View(ExecAll(w, TickLines(every), at, m, depth), Names(dets)) ==
      TickStep(View(m, Names(dets)), dets, every, w.grid, w.gametime)
  {
    hide PackFor, CheckUpTo, View, Exec, ExecAll, Armed, TickCount, Holds, Chain;
    var names := Names(dets);
    var armed, due := IfScore(Armed(), Exactly(1)), IfScore(TickCount(), AtLeast(every));
    var add, gate := AddScore(TickCount(), 1), Execute([Check(armed), Check(due)], Call("detmc:gate"));
    var m1 := m.Put(TickCount(), m.Score(TickCount()) + 1);
    SetRuns(w, TickCount(), 1, at, m, depth);
    assert TickLines(every) == [add] + [gate];
    ExecConcat(w, [add], [gate], at, m, depth);
    ExecOne(w, add, at, m, depth);
    ReadsTick(w, every, at, m, names);
    PutTick(m, m.Score(TickCount()) + 1, names);
    ExecOne(w, gate, at, m1, depth);
    ExecuteRuns(w, [Check(armed), Check(due)], Call("detmc:gate"), at, m1, depth);
    assert [Check(armed), Check(due)] == [Check(armed)] + [Check(due)];
    ChainHead(w, armed, [Check(due)], at, m1);
    ChainTest(w, due, at, m1);
    ReadsArmed(w, at, m1, names);
    ReadsTick(w, every, at, m1, names);
    RunGate(w, dets, every, at, m1, depth);
  }

  // ----- the load function ----------------------------------------------------

  /** The scores after the detectors have been reset. */
  function ResetUpTo(v: Watch, dets: seq<Detector>): Watch {
    v.(hits := ResetTo(v.hits, dets, 0), gts := ResetTo(v.gts, dets, -1))
  }

  lemma RunResetLines(w: World, name: string, at: Pos, m: Machine, depth: nat, names: set<string>)
    requires name in names
    ensures
      var v := View(m, names);
      View(ExecAll(w, ResetLines(name), at, m, depth), names) == v.(hits := v.hits[name := 0], gts := v.gts[name := -1])
  {
    hide HitOf, GametimeOf, ValueOf, ThresholdOf, View, Watched, ExecAll;
    ExecFour(w, SetScore(HitOf(name), 0), SetScore(GametimeOf(name), -1), SetScore(ValueOf(name), 0),
             SetScore(ThresholdOf(name), MAX_INT), at, m, depth);
    ScratchIsUnwatched(name, names);
    var m1 := m.Put(HitOf(name), 0);
    PutHit(m, name, 0, names);
    var m2 := m1.Put(GametimeOf(name), -1);
    PutGametime(m1, name, -1, names);
    var m3 := m2.Put(ValueOf(name), 0);
    PutUnwatched(m2, ValueOf(name), 0, names);
    PutUnwatched(m3, ThresholdOf(name), MAX_INT, names);
  }

  lemma {:induction false} RunResetAll(w: World, dets: seq<Detector>, at: Pos, m: Machine, depth: nat, names: set<string>)
    requires forall d :: d in dets ==> d.name in names
    ensures View(ExecAll(w, ResetAll(dets), at, m, depth), names) == ResetUpTo(View(m, names), dets)
    decreases |dets|
  {
    hide ResetLines, View;
    if dets != [] {
      ExecConcat(w, ResetLines(dets[0].name), ResetAll(dets[1..]), at, m, depth);
      RunResetLines(w, dets[0].name, at, m, depth, names);
      RunResetAll(w, dets[1..], at, ExecAll(w, ResetLines(dets[0].name), at, m, depth), depth, names);
    }
  }

  function Head(v: Watch): Watch {
    v.(armed := if v.armed.Some? && v.armed.value >= MIN_INT then v.armed else Some(0),
       tick := Some(0), loaded := Some(1), any := Some(0), first := Some(-1))
  }

  lemma RunArm(w: World, at: Pos, m: Machine, depth: nat, names: set<string>)
    ensures
      var v := View(m, names);
      View(Exec(w, Execute([Check(UnlessScore(Armed(), AtLeast(MIN_INT)))], SetScore(Armed(), 0)), at, m, depth), names) ==
        v.(armed := if v.armed.Some? && v.armed.value >= MIN_INT then v.armed else Some(0))
  {
    hide View, Holds, Chain, Armed;
    TestRuns(w, UnlessScore(Armed(), AtLeast(MIN_INT)), SetScore(Armed(), 0), at, m, depth);
    ReadsUnarmed(w, at, m, names);
    PutArmed(m, 0, names);
  }

  lemma RunLoadHead(w: World, at: Pos, m: Machine, depth: nat, names: set<string>)
    ensures View(ExecAll(w, LoadHead(), at, m, depth), names) == Head(View(m, names))
  {
    hide View, Holds, Chain, Armed, TickCount, LoadedFlag, AnyHit, FirstHit, ExecAll;
    var arm := Execute([Check(UnlessScore(Armed(), AtLeast(MIN_INT)))], SetScore(Armed(), 0));
    var b, c, e, f := SetScore(AnyHit(), 0), SetScore(FirstHit(), -1), SetScore(TickCount(), 0), SetScore(LoadedFlag(), 1);
    assert LoadHead() == [Comment] + ([AddObjective] + ([b, c, arm, e] + [f]));
    SkipComment(w, [AddObjective] + ([b, c, arm, e] + [f]), at, m, depth);
    ExecConcat(w, [AddObjective], [b, c, arm, e] + [f], at, m, depth);
    ExecOne(w, AddObjective, at, m, depth);
    ExecConcat(w, [b, c, arm, e], [f], at, m, depth);
    ExecFour(w, b, c, arm, e, at, m, depth);
    PutAny(m, 0, names);
    var m1 := m.Put(AnyHit(), 0);
    PutFirst(m1, -1, names);
    var m2 := m1.Put(FirstHit(), -1);
    RunArm(w, at, m2, depth, names);
    var m3 := Exec(w, arm, at, m2, depth);
    PutTick(m3, 0, names);
    var m4 := m3.Put(TickCount(), 0);
    ExecOne(w, f, at, m4, depth);
    PutLoaded(m4, 1, names);
  }

  /** The load function does what the state machine's load does. */
  lemma RunLoad(w: World, dets: seq<Detector>, every: int, at: Pos, m: Machine, depth: nat)
    requires Sound(dets) && PackFor(w.pack, dets, every) && depth > 0
    ensures View(Exec(w, Call("detmc:load"), at, m, depth), Names(dets)) == Load(View(m, Names(dets)), dets)
  {
    hide HoldsFilesOf, View, Exec, ExecAll, LoadHead, Called, ResetAll, ResetTo;
    var names := Names(dets);
    var called := Called(m, "detmc:load", at);
    CallRuns(w, "detmc:load", at, m, depth, names);
    ExecConcat(w, LoadHead(), ResetAll(dets), at, called, depth - 1);
    RunLoadHead(w, at, called, depth - 1, names);
    assert forall d :: d in dets ==> d.name in names;
    RunResetAll(w, dets, at, ExecAll(w, LoadHead(), at, called, depth - 1), depth - 1, names);
  }
}
