// The generated detector commands mean what the reference matcher means.

module PatternCorrectness {
  import opened Options
  import opened Mcfunction
  import opened Patterns
  import opened PatternPack

  // ----- what the commands test -----------------------------------------------

  /** A block at the position and air above it. */
  predicate Marked(g: Grid, x: int, y: int, z: int) {
    Pos(x, y, z) in g && Pos(x, y + 1, z) !in g
  }

  predicate MarkedCell(g: Grid, c: Cell, w: Window) {
    Marked(g, w.x + c.x, w.y, w.z + c.z)
  }

  predicate AllMarked(g: Grid, cells: seq<Cell>, w: Window) {
    forall i :: 0 <= i < |cells| ==> MarkedCell(g, cells[i], w)
  }

  function CountMarked(g: Grid, cells: seq<Cell>, w: Window): nat {
    if cells == [] then 0 else (if MarkedCell(g, cells[0], w) then 1 else 0) + CountMarked(g, cells[1..], w)
  }

  /** The tests of the second stage. */
  predicate PassesSecond(g: Grid, p: Pattern, w: Window) {
    && (p.anyOf == [] || CountMarked(g, p.anyOf, w) >= p.minAny)
    && (p.Forbidden() == [] || CountMarked(g, p.Forbidden(), w) <= 0)
  }

  /** A window's line gets as far as the hit function. */
  predicate Passes(g: Grid, p: Pattern, w: Window) {
    AllMarked(g, p.required, w) && PassesSecond(g, p, w)
  }

  function Corner(w: Window): Pos { Pos(w.x, w.y, w.z) }

  lemma ChainTopAt(world: World, c: Cell, w: Window, m: Machine)
    ensures Chain(world, TopAt(c.x, 0, c.z), Corner(w), m) ==
      if MarkedCell(world.grid, c, w) then Some(Corner(w)) else None
  {
    var a := UnlessAir(Place(Rel(c.x), Rel(0), Rel(c.z)));
    var b := IfAir(Place(Rel(c.x), Rel(0 + 1), Rel(c.z)));
    assert TopAt(c.x, 0, c.z) == [Check(a)] + [Check(b)];
    ChainConcat(world, [Check(a)], [Check(b)], Corner(w), m);
    ChainTest(world, a, Corner(w), m);
    ChainTest(world, b, Corner(w), m);
  }

  lemma {:induction false} ChainTopAtAll(world: World, cells: seq<Cell>, w: Window, m: Machine)
    ensures Chain(world, TopAtAll(cells), Corner(w), m) ==
      if AllMarked(world.grid, cells, w) then Some(Corner(w)) else None
  {
    if cells != [] {
      ChainTopAt(world, cells[0], w, m);
      ChainConcat(world, TopAt(cells[0].x, 0, cells[0].z), TopAtAll(cells[1..]), Corner(w), m);
      ChainTopAtAll(world, cells[1..], w, m);
      assert AllMarked(world.grid, cells, w) <==>
        MarkedCell(world.grid, cells[0], w) && AllMarked(world.grid, cells[1..], w) by {
        assert forall i :: 0 < i < |cells| ==> cells[i] == cells[1..][i - 1];
      }
    }
  }

  lemma {:induction false} RunCountLines(world: World, holder: string, cells: seq<Cell>, w: Window, m: Machine, depth: nat)
    requires holder in m.scores
    ensures ExecAll(world, CountLines(holder, cells), Corner(w), m, depth) ==
      m.Put(holder, m.scores[holder] + CountMarked(world.grid, cells, w))
    decreases |cells|
  {
    if cells == [] {
      assert m.Put(holder, m.scores[holder]) == m;
    } else {
      ChainTopAt(world, cells[0], w, m);
      var m1 := if MarkedCell(world.grid, cells[0], w) then m.Put(holder, m.scores[holder] + 1) else m;
      assert Exec(world, CountLine(holder, cells[0]), Corner(w), m, depth) == m1;
      RunCountLines(world, holder, cells[1..], w, m1, depth);
      assert CountLines(holder, cells)[1..] == CountLines(holder, cells[1..]);
    }
  }

  /** A reset followed by its count. */
  lemma RunStage(world: World, holder: string, cells: seq<Cell>, w: Window, m: Machine, depth: nat)
    ensures ExecAll(world, [SetScore(holder, 0)] + CountLines(holder, cells), Corner(w), m, depth) ==
      m.Put(holder, CountMarked(world.grid, cells, w))
  {
    ExecConcat(world, [SetScore(holder, 0)], CountLines(holder, cells), Corner(w), m, depth);
    ExecOne(world, SetScore(holder, 0), Corner(w), m, depth);
    RunCountLines(world, holder, cells, w, m.Put(holder, 0), depth);
  }

  /** The scoreboard after the counting part of the second stage. */
  function Counted(g: Grid, p: Pattern, w: Window, ctr: string, ctrf: string, m: Machine): Machine {
    var m1 := if p.anyOf == [] then m else m.Put(ctr, CountMarked(g, p.anyOf, w));
    if p.Forbidden() == [] then m1 else m1.Put(ctrf, CountMarked(g, p.Forbidden(), w))
  }

  lemma FinalChain(world: World, p: Pattern, w: Window, ctr: string, ctrf: string, m: Machine)
    requires ctr != ctrf
    ensures Chain(world, FinalTests(p, ctr, ctrf), Corner(w), Counted(world.grid, p, w, ctr, ctrf, m)) ==
      if PassesSecond(world.grid, p, w) then Some(Corner(w)) else None
  {
    var after := Counted(world.grid, p, w, ctr, ctrf, m);
    var a: seq<Modifier> := if p.anyOf == [] then [] else [Check(IfScore(ctr, Range(Some(p.minAny), None)))];
    var b: seq<Modifier> := if p.Forbidden() == [] then [] else [Check(IfScore(ctrf, Range(None, Some(0))))];
    ChainConcat(world, a, b, Corner(w), after);
    assert a != [] ==> a[1..] == [];
    assert b != [] ==> b[1..] == [];
  }

  /** The second stage counts from zero whatever the counters held before, and
      calls the hit function exactly for the windows that pass. */
  lemma RunSecondStage(world: World, p: Pattern, w: Window, hitFn: string, ctr: string, ctrf: string, m: Machine, depth: nat)
    requires ctr != ctrf
    ensures
      var counted := Counted(world.grid, p, w, ctr, ctrf, m);
      ExecAll(world, SecondStage(p, hitFn, ctr, ctrf), Corner(w), m, depth) ==
        if PassesSecond(world.grid, p, w) then Exec(world, Call(hitFn), Corner(w), counted, depth) else counted
  {
    var at := Corner(w);
    var a, b, f := AnyStage(p, ctr), RestStage(p, ctrf), FinalLine(p, hitFn, ctr, ctrf);
    ExecConcat(world, [Comment] + a + b, [f], at, m, depth);
    ExecConcat(world, [Comment] + a, b, at, m, depth);
    ExecConcat(world, [Comment], a, at, m, depth);
    ExecOne(world, Comment, at, m, depth);
    var m1 := ExecAll(world, a, at, m, depth);
    RunStage(world, ctr, p.anyOf, w, m, depth);
    RunStage(world, ctrf, p.Forbidden(), w, m1, depth);
    var counted := Counted(world.grid, p, w, ctr, ctrf, m);
    assert ExecAll(world, b, at, m1, depth) == counted;
    ExecOne(world, f, at, counted, depth);
    FinalChain(world, p, w, ctr, ctrf, m);
  }

  // ----- one window -----------------------------------------------------------

  /** A hit function latches the flag and calls nothing. */
  ghost predicate LatchesFlag(world: World, hitFn: string, flag: string) {
    && hitFn in world.pack
    && forall at: Pos, m: Machine, depth: nat ::
      var after := ExecAll(world, world.pack[hitFn], at, m, depth);
      after.calls == m.calls && flag in after.scores && after.scores[flag] == 1
  }

  /** The pack holds the pattern's second stage, and its names do not clash. */
  ghost predicate Packed(world: World, p: Pattern, flag: string, countFn: string, hitFn: string, ctr: string, ctrf: string) {
    && countFn in world.pack && world.pack[countFn] == SecondStage(p, hitFn, ctr, ctrf)
    && LatchesFlag(world, hitFn, flag)
    && countFn != hitFn
    && ctr != ctrf && ctr != flag && ctrf != flag
  }

  function HitsIn(calls: seq<FnCall>, hitFn: string): seq<Pos> {
    if calls == [] then [] else
      var last := calls[|calls| - 1];
      HitsIn(calls[..|calls| - 1], hitFn) + (if last.fn == hitFn then [last.at] else [])
  }

  lemma HitsInExtend(calls: seq<FnCall>, c: FnCall, hitFn: string)
    ensures HitsIn(calls + [c], hitFn) == HitsIn(calls, hitFn) + (if c.fn == hitFn then [c.at] else [])
  {
    assert (calls + [c])[..|calls|] == calls;
  }

  predicate FlagClear(m: Machine, flag: string) {
    flag in m.scores && m.scores[flag] == 0
  }

  /** One window's line, with the flag still clear, reaches the hit function at
      the window's corner exactly when the window passes, and latches the flag
      exactly then; with the flag set it does nothing. */
  lemma RunWindowLine(world: World, p: Pattern, w: Window, flag: string, countFn: string, hitFn: string,
                      ctr: string, ctrf: string, at: Pos, m: Machine, depth: nat)
    requires Packed(world, p, flag, countFn, hitFn, ctr, ctrf) && depth >= 2
    ensures
      var after := Exec(world, WindowLine(p, w, flag, countFn), at, m, depth);
      && (!FlagClear(m, flag) ==> after == m)
      && (FlagClear(m, flag) && Passes(world.grid, p, w) ==>
        HitsIn(after.calls, hitFn) == HitsIn(m.calls, hitFn) + [Corner(w)]
        && flag in after.scores && after.scores[flag] == 1)
      && (FlagClear(m, flag) && !Passes(world.grid, p, w) ==>
        HitsIn(after.calls, hitFn) == HitsIn(m.calls, hitFn) && FlagClear(after, flag))
  {
    hide HitsIn, SecondStage, PassesSecond, Counted, AllMarked, TopAtAll, Chain, InRange;
    LineChain(world, p, w, flag, at, m);
    if FlagClear(m, flag) && AllMarked(world.grid, p.required, w) {
      var called := m.(calls := m.calls + [FnCall(countFn, Corner(w))]);
      HitsInExtend(m.calls, FnCall(countFn, Corner(w)), hitFn);
      RunSecondStage(world, p, w, hitFn, ctr, ctrf, called, depth - 1);
      var counted := Counted(world.grid, p, w, ctr, ctrf, called);
      CountedKeeps(world.grid, p, w, ctr, ctrf, called, flag);
      RunHit(world, hitFn, flag, Corner(w), counted, depth - 1);
    }
  }

  lemma CountedKeeps(g: Grid, p: Pattern, w: Window, ctr: string, ctrf: string, m: Machine, flag: string)
    requires flag != ctr && flag != ctrf
    ensures
      var counted := Counted(g, p, w, ctr, ctrf, m);
      counted.calls == m.calls && (FlagClear(m, flag) ==> FlagClear(counted, flag))
  {
  }

  lemma RunHit(world: World, hitFn: string, flag: string, at: Pos, m: Machine, depth: nat)
    requires LatchesFlag(world, hitFn, flag) && depth >= 1
    ensures
      var after := Exec(world, Call(hitFn), at, m, depth);
      && HitsIn(after.calls, hitFn) == HitsIn(m.calls, hitFn) + [at]
      && flag in after.scores && after.scores[flag] == 1
  {
    HitsInExtend(m.calls, FnCall(hitFn, at), hitFn);
  }

  lemma LineChain(world: World, p: Pattern, w: Window, flag: string, at: Pos, m: Machine)
    ensures
      var mods := [Check(IfScore(flag, Range(Some(0), Some(0)))), Positioned(w.x, w.y, w.z)] + TopAtAll(p.required);
      Chain(world, mods, at, m) ==
        if FlagClear(m, flag) && AllMarked(world.grid, p.required, w) then Some(Corner(w)) else None
  {
    var guard := IfScore(flag, Range(Some(0), Some(0)));
    var there: seq<Modifier> := [Positioned(w.x, w.y, w.z)];
    var cells := TopAtAll(p.required);
    assert [Check(guard), Positioned(w.x, w.y, w.z)] + cells == [Check(guard)] + (there + cells);
    ChainConcat(world, [Check(guard)], there + cells, at, m);
    ChainTest(world, guard, at, m);
    ChainConcat(world, there, cells, at, m);
    assert there[1..] == [];
    ChainTopAtAll(world, p.required, w, m);
  }

  // ----- the whole check ------------------------------------------------------

  /** The first window of a scan that passes. */
  function FirstPassing(g: Grid, p: Pattern, ws: seq<Window>): Option<Window> {
    if ws == [] then None
    else if Passes(g, p, ws[0]) then Some(ws[0])
    else FirstPassing(g, p, ws[1..])
  }

  lemma {:induction false} RunWindowLines(world: World, p: Pattern, ws: seq<Window>, flag: string, countFn: string,
                                          hitFn: string, ctr: string, ctrf: string, m: Machine, depth: nat)
    requires Packed(world, p, flag, countFn, hitFn, ctr, ctrf) && depth >= 2
    ensures
      var after := ExecAll(world, WindowLines(p, ws, flag, countFn), ORIGIN, m, depth);
      var first := FirstPassing(world.grid, p, ws);
      && (!FlagClear(m, flag) ==> after == m)
      && (FlagClear(m, flag) && first.Some? ==>
        HitsIn(after.calls, hitFn) == HitsIn(m.calls, hitFn) + [Corner(first.value)]
        && flag in after.scores && after.scores[flag] == 1)
      && (FlagClear(m, flag) && first.None? ==>
        HitsIn(after.calls, hitFn) == HitsIn(m.calls, hitFn) && FlagClear(after, flag))
    decreases |ws|
  {
    if ws != [] {
      RunWindowLine(world, p, ws[0], flag, countFn, hitFn, ctr, ctrf, ORIGIN, m, depth);
      var m1 := Exec(world, WindowLine(p, ws[0], flag, countFn), ORIGIN, m, depth);
      assert WindowLines(p, ws, flag, countFn)[1..] == WindowLines(p, ws[1..], flag, countFn);
      hide Exec, ExecAll, Packed, Passes, HitsIn, WindowLine;
      RunWindowLines(world, p, ws[1..], flag, countFn, hitFn, ctr, ctrf, m1, depth);
    }
  }
}
