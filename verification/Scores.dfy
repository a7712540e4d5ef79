// The progress scores (run.py, score_files and read_scores; patterns.py,
// best_match_function): the commands that compute them, and what they compute.

module Scores {
  import opened Options
  import opened Decimals
  import opened Mcfunction
  import opened Patterns
  import opened PatternPack
  import opened PatternCorrectness
  import opened PatternMeaning
  import opened DetectorPack
  import opened DetectorWatch
  import opened DetectorSteps
  import opened Sequences

  // ----- column profiles ------------------------------------------------------

  /** The holder that counts the columns of at least `h` blocks. */
  function StackOf(name: string, h: nat): string {
    "#s_" + name + "_" + PrintNat(h)
  }

  lemma StackNames(name: string, a: nat, b: nat)
    requires StackOf(name, a) == StackOf(name, b)
    ensures a == b
  {
    var n := |"#s_" + name + "_"|;
    assert StackOf(name, a)[n..] == PrintNat(a) && StackOf(name, b)[n..] == PrintNat(b);
    PrintNatInjective(a, b);
  }

  function ProfileLine(name: string, w: Window, h: nat): Command {
    Execute(SolidFrom(w.x, w.y, w.z, h), AddScore(StackOf(name, h), 1))
  }

  /** One column: a line for every height, each testing one block more. */
  function ProfileCell(name: string, w: Window, top: nat): seq<Command> {
    if top == 0 then [] else ProfileCell(name, w, top - 1) + [ProfileLine(name, w, top)]
  }

  function ProfileBody(name: string, ws: seq<Window>, top: nat): seq<Command> {
    if ws == [] then [] else ProfileBody(name, ws[..|ws| - 1], top) + ProfileCell(name, ws[|ws| - 1], top)
  }

  function ProfileReset(name: string, top: nat): seq<Command> {
    if top == 0 then [] else ProfileReset(name, top - 1) + [SetScore(StackOf(name, top), 0)]
  }

  /** The whole metric, as `score_files` writes it. */
  method ProfileLines(name: string, a: Area, base: int, top: nat) returns (reset: seq<Command>, body: seq<Command>)
    ensures reset == ProfileReset(name, top)
    ensures body == [Comment] + ProfileBody(name, Columns(a, base), top)
  {
    hide Min, Max, ProfileLine, WindowsFrom, Columns, Windows, StackOf;
    reset := [];
    for h := 0 to top
      invariant reset == ProfileReset(name, h)
    {
      reset := reset + [SetScore(StackOf(name, h + 1), 0)];
    }
    ColumnsUnfold(a, base);
    var xa, xb := Min(a.x1, a.x2), Max(a.x1, a.x2);
    var za, zb := Min(a.z1, a.z2), Max(a.z1, a.z2);
    body := [Comment];
    ghost var done: seq<Window> := [];
    var x := xa;
    assert done + WindowsFrom(a, 1, base, x, za) == Columns(a, base);
    while x < xb + 1
      invariant done + WindowsFrom(a, 1, base, x, za) == Columns(a, base)
      invariant body == [Comment] + ProfileBody(name, done, top)
    {
      var z := za;
      while z < zb + 1
        invariant done + WindowsFrom(a, 1, base, x, z) == Columns(a, base)
        invariant body == [Comment] + ProfileBody(name, done, top)
      {
        var w := Window(x, base, z);
        WindowsFromUnfold(a, 1, base, x, z);
        var before := body;
        for h := 0 to top
          invariant body == before + ProfileCell(name, w, h)
        {
          Associates(before, ProfileCell(name, w, h), [ProfileLine(name, w, h + 1)]);
          body := body + [ProfileLine(name, w, h + 1)];
        }
        ProfileBodySnoc(name, done, w, top);
        done := done + [w];
        z := z + 1;
      }
      WindowsFromUnfold(a, 1, base, x, z);
      x := x + 1;
    }
    WindowsFromUnfold(a, 1, base, x, za);
    assert done + [] == done;
  }

  lemma ProfileBodySnoc(name: string, ws: seq<Window>, w: Window, top: nat)
    ensures ProfileBody(name, ws + [w], top) == ProfileBody(name, ws, top) + ProfileCell(name, w, top)
    ensures ProfileBody(name, [], top) == []
  {
    assert (ws + [w])[..|ws|] == ws;
  }

  // ----- what a profile counts ------------------------------------------------

  /** How many of the columns have at least `h` blocks. */
  function CountStanding(g: Grid, ws: seq<Window>, h: nat): nat {
    if ws == [] then 0
    else CountStanding(g, ws[..|ws| - 1], h) + if Stands(g, ws[|ws| - 1], h) then 1 else 0
  }

  /** The blocks that stand on top of each other from the base up, at most `top`. */
  function Height(g: Grid, w: Window, top: nat): (n: nat)
    ensures n <= top && Stands(g, w, n)
    ensures n < top ==> Pos(w.x, w.y + n, w.z) !in g
  {
    if top == 0 then 0
    else
      var n := Height(g, w, top - 1);
      if n == top - 1 && Pos(w.x, w.y + n, w.z) in g then top else n
  }

  lemma StandsIffHigh(g: Grid, w: Window, top: nat, h: nat)
    requires h <= top
    ensures Stands(g, w, h) <==> h <= Height(g, w, top)
  {
  }

  function SumHeights(g: Grid, ws: seq<Window>, top: nat): nat {
    if ws == [] then 0 else SumHeights(g, ws[..|ws| - 1], top) + Height(g, ws[|ws| - 1], top)
  }

  function TallestHeight(g: Grid, ws: seq<Window>, top: nat): (n: nat)
    ensures n <= top
    ensures forall w :: w in ws ==> Height(g, w, top) <= n
    ensures n > 0 ==> exists w :: w in ws && Height(g, w, top) == n
  {
    if ws == [] then 0
    else
      var rest, h := TallestHeight(g, ws[..|ws| - 1], top), Height(g, ws[|ws| - 1], top);
      assert forall w :: w in ws ==> w in ws[..|ws| - 1] || w == ws[|ws| - 1];
      if rest < h then h else rest
  }

  // ----- running a profile ----------------------------------------------------

  /** The scoreboard counts the columns of every height. */
  predicate Tallied(m: Machine, name: string, top: nat, g: Grid, ws: seq<Window>) {
    forall h :: 1 <= h <= top ==> m.Score(StackOf(name, h)) == CountStanding(g, ws, h)
  }

  lemma RunProfileLine(w: World, name: string, c: Window, h: nat, m: Machine, depth: nat)
    ensures Exec(w, ProfileLine(name, c, h), ORIGIN, m, depth) ==
      if Stands(w.grid, c, h) then m.Put(StackOf(name, h), m.Score(StackOf(name, h)) + 1) else m
  {
    hide StackOf, Chain, SolidFrom;
    ChainSolid(w, c.x, c.y, c.z, h, ORIGIN, m);
  }

  /** A column's lines add it to the count of every height it has. */
  lemma {:induction false} RunProfileCell(w: World, name: string, c: Window, top: nat, m: Machine, depth: nat)
    ensures
      var after := ExecAll(w, ProfileCell(name, c, top), ORIGIN, m, depth);
      forall h: nat :: after.Score(StackOf(name, h)) ==
        m.Score(StackOf(name, h)) + if 1 <= h <= top && Stands(w.grid, c, h) then 1 else 0
  {
    hide StackOf, Stands, ProfileLine;
    if top > 0 {
      RunProfileCell(w, name, c, top - 1, m, depth);
      var m1 := ExecAll(w, ProfileCell(name, c, top - 1), ORIGIN, m, depth);
      ExecConcat(w, ProfileCell(name, c, top - 1), [ProfileLine(name, c, top)], ORIGIN, m, depth);
      ExecOne(w, ProfileLine(name, c, top), ORIGIN, m1, depth);
      RunProfileLine(w, name, c, top, m1, depth);
      forall h: nat | h != top ensures StackOf(name, h) != StackOf(name, top) {
        if StackOf(name, h) == StackOf(name, top) {
          StackNames(name, h, top);
        }
      }
    }
  }

  lemma {:induction false} RunProfileBody(w: World, name: string, ws: seq<Window>, top: nat, m: Machine, depth: nat)
    requires forall h: nat :: 1 <= h <= top ==> m.Score(StackOf(name, h)) == 0
    ensures Tallied(ExecAll(w, ProfileBody(name, ws, top), ORIGIN, m, depth), name, top, w.grid, ws)
  {
    hide StackOf, Stands, ProfileCell;
    if ws != [] {
      var front, last := ws[..|ws| - 1], ws[|ws| - 1];
      RunProfileBody(w, name, front, top, m, depth);
      ExecConcat(w, ProfileBody(name, front, top), ProfileCell(name, last, top), ORIGIN, m, depth);
      RunProfileCell(w, name, last, top, ExecAll(w, ProfileBody(name, front, top), ORIGIN, m, depth), depth);
    }
  }

  lemma {:induction false} RunProfileReset(w: World, name: string, top: nat, m: Machine, depth: nat)
    ensures
      var after := ExecAll(w, ProfileReset(name, top), ORIGIN, m, depth);
      forall h: nat :: 1 <= h <= top ==> after.Score(StackOf(name, h)) == 0
  {
    hide StackOf;
    if top > 0 {
      RunProfileReset(w, name, top - 1, m, depth);
      ExecConcat(w, ProfileReset(name, top - 1), [SetScore(StackOf(name, top), 0)], ORIGIN, m, depth);
      ExecOne(w, SetScore(StackOf(name, top), 0), ORIGIN, ExecAll(w, ProfileReset(name, top - 1), ORIGIN, m, depth), depth);
    }
  }

  /** Whatever the scoreboard held, the metric's reset and body leave the count of
      columns of every height on it. */
  lemma ProfileCounts(w: World, name: string, ws: seq<Window>, top: nat, m: Machine, depth: nat)
    ensures Tallied(ExecAll(w, ProfileReset(name, top) + ([Comment] + ProfileBody(name, ws, top)), ORIGIN, m, depth),
                    name, top, w.grid, ws)
  {
    hide StackOf, ProfileReset, ProfileBody, Tallied;
    var reset, body := ProfileReset(name, top), ProfileBody(name, ws, top);
    RunProfileReset(w, name, top, m, depth);
    ExecConcat(w, reset, [Comment] + body, ORIGIN, m, depth);
    var m1 := ExecAll(w, reset, ORIGIN, m, depth);
    ExecConcat(w, [Comment], body, ORIGIN, m1, depth);
    ExecOne(w, Comment, ORIGIN, m1, depth);
    RunProfileBody(w, name, ws, top, m1, depth);
  }

  // ----- reading a profile back -----------------------------------------------

  function SumCounts(g: Grid, ws: seq<Window>, top: nat): nat {
    if top == 0 then 0 else SumCounts(g, ws, top - 1) + CountStanding(g, ws, top)
  }

  lemma {:induction false} SumCountsSnoc(g: Grid, ws: seq<Window>, w: Window, top: nat, cap: nat)
    requires top <= cap
    ensures SumCounts(g, ws + [w], top) == SumCounts(g, ws, top) + Min(Height(g, w, cap), top)
  {
    if top > 0 {
      SumCountsSnoc(g, ws, w, top - 1, cap);
      StandsIffHigh(g, w, cap, top);
      assert (ws + [w])[..|ws|] == ws;
    }
  }

  lemma {:induction false} SumCountsNone(g: Grid, top: nat)
    ensures SumCounts(g, [], top) == 0
  {
    if top > 0 {
      SumCountsNone(g, top - 1);
    }
  }

  /** Adding up the counts of every height adds up the columns' heights. */
  lemma {:induction false} CountsAddUpToHeights(g: Grid, ws: seq<Window>, top: nat)
    ensures SumCounts(g, ws, top) == SumHeights(g, ws, top)
  {
    if ws == [] {
      SumCountsNone(g, top);
    } else {
      var front, last := ws[..|ws| - 1], ws[|ws| - 1];
      CountsAddUpToHeights(g, front, top);
      SumCountsSnoc(g, front, last, top, top);
      assert ws == front + [last];
    }
  }

  lemma {:induction false} CountIsPositive(g: Grid, ws: seq<Window>, h: nat)
    ensures CountStanding(g, ws, h) > 0 <==> exists w :: w in ws && Stands(g, w, h)
  {
    hide Stands;
    if ws != [] {
      CountIsPositive(g, ws[..|ws| - 1], h);
      assert forall w :: w in ws <==> w in ws[..|ws| - 1] || w == ws[|ws| - 1];
    }
  }

  /** Some column has `h` blocks exactly when the tallest has. */
  lemma CountedIffTallest(g: Grid, ws: seq<Window>, top: nat, h: nat)
    requires 1 <= h <= top
    ensures CountStanding(g, ws, h) > 0 <==> h <= TallestHeight(g, ws, top)
  {
    CountIsPositive(g, ws, h);
    forall w | w in ws ensures Stands(g, w, h) <==> h <= Height(g, w, top) {
      StandsIffHigh(g, w, top, h);
    }
    hide Stands;
    var n := TallestHeight(g, ws, top);
    if h <= n {
      var w :| w in ws && Height(g, w, top) == n;
      assert Stands(g, w, h);
    }
  }

  /** `<name>_blocks` and `<name>_max`: when the scoreboard has the counts, the
      first is the number of blocks standing in the columns, each counted up to
      the profile's height, and the second is the tallest column's height. */
  method ReadProfile(m: Machine, name: string, top: nat) returns (blocks: int, tallest: nat)
    ensures forall g: Grid, ws: seq<Window> :: Tallied(m, name, top, g, ws) ==>
      blocks == SumHeights(g, ws, top) && tallest == TallestHeight(g, ws, top)
  {
    blocks, tallest := 0, 0;
    ghost var upTo := 0;
    for h := 1 to top + 1
      invariant tallest < h
      invariant forall g: Grid, ws: seq<Window> :: Tallied(m, name, top, g, ws) ==>
        blocks == SumCounts(g, ws, h - 1) && tallest == Min(TallestHeight(g, ws, top), h - 1)
    {
      var v := m.Score(StackOf(name, h));
      forall g: Grid, ws: seq<Window> | Tallied(m, name, top, g, ws)
        ensures blocks + v == SumCounts(g, ws, h)
        ensures (if v > 0 then h else tallest) == Min(TallestHeight(g, ws, top), h)
      {
        CountedIffTallest(g, ws, top, h);
      }
      blocks := blocks + v;
      if v > 0 {
        tallest := h;
      }
    }
    forall g: Grid, ws: seq<Window> | Tallied(m, name, top, g, ws) ensures blocks == SumHeights(g, ws, top) {
      CountsAddUpToHeights(g, ws, top);
    }
  }

  /** The detector and the score agree: over the same columns, a `column_stack` of
      height `h` sees something exactly when the profile's count for `h` is at
      least 1. */
  lemma StackFiresIffCounted(g: Grid, name: string, a: Area, base: int, h: nat, top: nat, m: Machine)
    requires 1 <= h <= top && Tallied(m, name, top, g, Columns(a, base))
    ensures Present(g, Detector(name, ColumnStack(a, base, h), [])) <==> m.Score(StackOf(name, h)) >= 1
  {
    hide Stands, Columns, StackOf;
    CountIsPositive(g, Columns(a, base), h);
  }

  // ----- best pattern match ---------------------------------------------------

  function BestOf(name: string): string { "#s_" + name }
  function GatedOf(name: string): string { "#s_" + name + "_gated" }
  function RequiredOf(name: string): string { "#tr_" + name }
  function AnyOfOf(name: string): string { "#ta_" + name }
  function TotalOf(name: string): string { "#tt_" + name }

  lemma BestNames(name: string)
    ensures RequiredOf(name) != AnyOfOf(name) && RequiredOf(name) != TotalOf(name) && AnyOfOf(name) != TotalOf(name)
    ensures BestOf(name) != GatedOf(name)
    ensures BestOf(name) != RequiredOf(name) && BestOf(name) != AnyOfOf(name) && BestOf(name) != TotalOf(name)
    ensures GatedOf(name) != RequiredOf(name) && GatedOf(name) != AnyOfOf(name) && GatedOf(name) != TotalOf(name)
  {
    assert RequiredOf(name)[1] == 't' && AnyOfOf(name)[1] == 't' && TotalOf(name)[1] == 't';
    assert RequiredOf(name)[2] == 'r' && AnyOfOf(name)[2] == 'a' && TotalOf(name)[2] == 't';
    assert BestOf(name)[1] == 's' && GatedOf(name)[1] == 's' && |BestOf(name)| < |GatedOf(name)|;
  }

  function BestTail(p: Pattern, name: string): seq<Command> {
    [Operate(Assign, TotalOf(name), RequiredOf(name)),
     Operate(Increase, TotalOf(name), AnyOfOf(name)),
     Operate(Maximum, BestOf(name), TotalOf(name)),
     Execute([Check(IfScore(RequiredOf(name), AtLeast(|p.required|)))], Operate(Maximum, GatedOf(name), AnyOfOf(name)))]
  }

  function BestLines(p: Pattern, name: string): seq<Command> {
    [Comment, SetScore(RequiredOf(name), 0), SetScore(AnyOfOf(name), 0)]
    + CountLines(RequiredOf(name), p.required) + CountLines(AnyOfOf(name), p.anyOf) + BestTail(p, name)
  }

  method BestMatchFunction(p: Pattern, name: string) returns (lines: seq<Command>)
    ensures lines == BestLines(p, name)
  {
    hide CountLine, RequiredOf, AnyOfOf, TotalOf, BestOf, GatedOf;
    var tr, ta, tt := RequiredOf(name), AnyOfOf(name), TotalOf(name);
    var head := [Comment, SetScore(tr, 0), SetScore(ta, 0)];
    lines := head;
    for i := 0 to |p.required|
      invariant lines == head + CountLines(tr, p.required[..i])
    {
      CountLinesExtend(tr, p.required, i);
      lines := lines + [CountLine(tr, p.required[i])];
    }
    assert p.required[..|p.required|] == p.required;
    for i := 0 to |p.anyOf|
      invariant lines == head + CountLines(tr, p.required) + CountLines(ta, p.anyOf[..i])
    {
      CountLinesExtend(ta, p.anyOf, i);
      lines := lines + [CountLine(ta, p.anyOf[i])];
    }
    assert p.anyOf[..|p.anyOf|] == p.anyOf;
    lines := lines + BestTail(p, name);
  }

  // ----- what a best match is -------------------------------------------------

  /** The most cells any window has at its level; 0 without windows. */
  function BestScore(g: Grid, p: Pattern, ws: seq<Window>): nat {
    if ws == [] then 0
    else
      var w := ws[|ws| - 1];
      Max(BestScore(g, p, ws[..|ws| - 1]), CountMarked(g, p.required, w) + CountMarked(g, p.anyOf, w))
  }

  /** The most optional cells of a window that has all its required cells; -1 when
      no window has. */
  function GatedScore(g: Grid, p: Pattern, ws: seq<Window>): int {
    if ws == [] then -1
    else
      var w, rest := ws[|ws| - 1], GatedScore(g, p, ws[..|ws| - 1]);
      if AllMarked(g, p.required, w) then Max(rest, CountMarked(g, p.anyOf, w)) else rest
  }

  lemma {:induction false} CountIsAll(g: Grid, cells: seq<Cell>, w: Window)
    ensures CountMarked(g, cells, w) <= |cells|
    ensures CountMarked(g, cells, w) >= |cells| <==> AllMarked(g, cells, w)
  {
    hide MarkedCell;
    if cells != [] {
      CountIsAll(g, cells[1..], w);
      assert forall i :: 0 < i < |cells| ==> cells[i] == cells[1..][i - 1];
      assert forall i :: 0 <= i < |cells[1..]| ==> cells[1..][i] == cells[i + 1];
    }
  }

  /** The scoreboard after one window. */
  ghost predicate Scored(m: Machine, after: Machine, name: string, g: Grid, p: Pattern, w: Window) {
    var r, a := CountMarked(g, p.required, w), CountMarked(g, p.anyOf, w);
    && after.Score(BestOf(name)) == Max(m.Score(BestOf(name)), r + a)
    && after.Score(GatedOf(name)) == if AllMarked(g, p.required, w) then Max(m.Score(GatedOf(name)), a) else m.Score(GatedOf(name))
  }

  lemma RunBestTail(world: World, p: Pattern, name: string, w: Window, m: Machine, depth: nat)
    requires RequiredOf(name) in m.scores && m.scores[RequiredOf(name)] == CountMarked(world.grid, p.required, w)
    requires m.Score(AnyOfOf(name)) == CountMarked(world.grid, p.anyOf, w)
    ensures Scored(m, ExecAll(world, BestTail(p, name), Corner(w), m, depth), name, world.grid, p, w)
  {
    hide RequiredOf, AnyOfOf, TotalOf, BestOf, GatedOf, CountMarked, AllMarked, Chain;
    BestNames(name);
    CountIsAll(world.grid, p.required, w);
    var test := IfScore(RequiredOf(name), AtLeast(|p.required|));
    var a := Operate(Assign, TotalOf(name), RequiredOf(name));
    var b := Operate(Increase, TotalOf(name), AnyOfOf(name));
    var c := Operate(Maximum, BestOf(name), TotalOf(name));
    var d := Execute([Check(test)], Operate(Maximum, GatedOf(name), AnyOfOf(name)));
    var at := Corner(w);
    ExecFour(world, a, b, c, d, at, m, depth);
    var m3 := Exec(world, c, at, Exec(world, b, at, Exec(world, a, at, m, depth), depth), depth);
    ChainTest(world, test, at, m3);
  }

  /** One window's score function keeps both running maxima. */
  lemma RunBestLines(world: World, p: Pattern, name: string, w: Window, m: Machine, depth: nat)
    ensures Scored(m, ExecAll(world, BestLines(p, name), Corner(w), m, depth), name, world.grid, p, w)
  {
    hide RequiredOf, AnyOfOf, TotalOf, BestOf, GatedOf, CountMarked, AllMarked, CountLines, BestTail, Exec;
    BestNames(name);
    var tr, ta, at := RequiredOf(name), AnyOfOf(name), Corner(w);
    var set0 := [Comment] + ([SetScore(tr, 0)] + [SetScore(ta, 0)]);
    var cr, ca, tail := CountLines(tr, p.required), CountLines(ta, p.anyOf), BestTail(p, name);
    assert BestLines(p, name) == set0 + (cr + (ca + tail));
    ExecConcat(world, set0, cr + (ca + tail), at, m, depth);
    ResetTwo(world, tr, ta, at, m, depth);
    var m0 := m.Put(tr, 0).Put(ta, 0);
    ExecConcat(world, cr, ca + tail, at, m0, depth);
    RunCountLines(world, tr, p.required, w, m0, depth);
    var m1 := m0.Put(tr, CountMarked(world.grid, p.required, w));
    assert m0.scores[tr] == 0;
    ExecConcat(world, ca, tail, at, m1, depth);
    RunCountLines(world, ta, p.anyOf, w, m1, depth);
    var m2 := m1.Put(ta, CountMarked(world.grid, p.anyOf, w));
    assert m1.scores[ta] == 0;
    RunBestTail(world, p, name, w, m2, depth);
  }

  lemma ResetTwo(w: World, a: string, b: string, at: Pos, m: Machine, depth: nat)
    ensures ExecAll(w, [Comment] + ([SetScore(a, 0)] + [SetScore(b, 0)]), at, m, depth) == m.Put(a, 0).Put(b, 0)
  {
    ExecConcat(w, [Comment], [SetScore(a, 0)] + [SetScore(b, 0)], at, m, depth);
    ExecOne(w, Comment, at, m, depth);
    ExecConcat(w, [SetScore(a, 0)], [SetScore(b, 0)], at, m, depth);
    ExecOne(w, SetScore(a, 0), at, m, depth);
    ExecOne(w, SetScore(b, 0), at, m.Put(a, 0), depth);
  }

  // ----- all windows ----------------------------------------------------------

  function ScoreFn(name: string): string { "detmc:score_" + name }

  function ScoreCalls(name: string, ws: seq<Window>): seq<Command> {
    if ws == [] then []
    else
      var w := ws[|ws| - 1];
      ScoreCalls(name, ws[..|ws| - 1]) + [Execute([Positioned(w.x, w.y, w.z)], Call(ScoreFn(name)))]
  }

  lemma ScoreCallsSnoc(name: string, ws: seq<Window>, w: Window)
    ensures ScoreCalls(name, ws + [w]) ==
      ScoreCalls(name, ws) + [Execute([Positioned(w.x, w.y, w.z)], Call(ScoreFn(name)))]
    ensures ScoreCalls(name, []) == []
  {
    assert (ws + [w])[..|ws|] == ws;
  }

  /** The whole metric, as `score_files` writes it. */
  method PatternBestLines(p: Pattern, name: string, area: Area, levels: seq<int>)
    returns (reset: seq<Command>, body: seq<Command>)
    ensures reset == [SetScore(BestOf(name), 0)] + [SetScore(GatedOf(name), -1)]
    ensures body == [Comment] + ScoreCalls(name, Windows(area, p.size, levels))
  {
    hide Min, Max, ScoreCalls, ScoreFn, WindowsFrom, BestOf, GatedOf;
    reset := [SetScore(BestOf(name), 0)] + [SetScore(GatedOf(name), -1)];
    var xa, xb := Min(area.x1, area.x2), Max(area.x1, area.x2);
    var za, zb := Min(area.z1, area.z2), Max(area.z1, area.z2);
    body := [Comment];
    ghost var done: seq<Window> := [];
    ScoreCallsSnoc(name, [], Window(0, 0, 0));
    for i := 0 to |levels|
      invariant done + Windows(area, p.size, levels[i..]) == Windows(area, p.size, levels)
      invariant body == [Comment] + ScoreCalls(name, done)
    {
      var y := levels[i];
      ghost var row, rest := WindowsFrom(area, p.size, y, xa, za), Windows(area, p.size, levels[i + 1..]);
      ghost var target := done + row;
      assert levels[i..][1..] == levels[i + 1..];
      assert target + rest == done + (row + rest);
      var x0 := xa;
      while x0 < xb - p.size + 2
        invariant done + WindowsFrom(area, p.size, y, x0, za) == target
        invariant body == [Comment] + ScoreCalls(name, done)
      {
        var z0 := za;
        while z0 < zb - p.size + 2
          invariant done + WindowsFrom(area, p.size, y, x0, z0) == target
          invariant body == [Comment] + ScoreCalls(name, done)
        {
          var w := Window(x0, y, z0);
          WindowsFromUnfold(area, p.size, y, x0, z0);
          ScoreCallsSnoc(name, done, w);
          body := body + [Execute([Positioned(x0, y, z0)], Call(ScoreFn(name)))];
          done := done + [w];
          z0 := z0 + 1;
        }
        WindowsFromUnfold(area, p.size, y, x0, z0);
        x0 := x0 + 1;
      }
      WindowsFromUnfold(area, p.size, y, x0, za);
      assert done + [] == done;
    }
    assert done + [] == done;
  }

  lemma RunScoreCall(world: World, p: Pattern, name: string, w: Window, m: Machine, depth: nat)
    requires depth > 0 && ScoreFn(name) in world.pack && world.pack[ScoreFn(name)] == BestLines(p, name)
    ensures Scored(m, Exec(world, Execute([Positioned(w.x, w.y, w.z)], Call(ScoreFn(name))), ORIGIN, m, depth), name,
                   world.grid, p, w)
  {
    hide BestLines, ScoreFn, BestOf, GatedOf, CountMarked, AllMarked, Exec, ExecAll, Chain, View;
    var here: seq<Modifier> := [Positioned(w.x, w.y, w.z)];
    ExecuteRuns(world, here, Call(ScoreFn(name)), ORIGIN, m, depth);
    ChainPositioned(world, w, ORIGIN, m);
    CallRuns(world, ScoreFn(name), Corner(w), m, depth, {});
    RunBestLines(world, p, name, w, Called(m, ScoreFn(name), Corner(w)), depth - 1);
  }

  lemma ChainPositioned(world: World, w: Window, at: Pos, m: Machine)
    ensures Chain(world, [Positioned(w.x, w.y, w.z)], at, m) == Some(Corner(w))
  {
    assert [Positioned(w.x, w.y, w.z)][1..] == [];
  }

  lemma {:induction false} RunScoreCalls(world: World, p: Pattern, name: string, ws: seq<Window>, m: Machine, depth: nat)
    requires depth > 0 && ScoreFn(name) in world.pack && world.pack[ScoreFn(name)] == BestLines(p, name)
    requires m.Score(BestOf(name)) == 0 && m.Score(GatedOf(name)) == -1
    ensures
      var after := ExecAll(world, ScoreCalls(name, ws), ORIGIN, m, depth);
      after.Score(BestOf(name)) == BestScore(world.grid, p, ws) && after.Score(GatedOf(name)) == GatedScore(world.grid, p, ws)
  {
    hide BestLines, ScoreFn, BestOf, GatedOf, CountMarked, AllMarked, Exec;
    if ws != [] {
      var front, w := ws[..|ws| - 1], ws[|ws| - 1];
      var line := Execute([Positioned(w.x, w.y, w.z)], Call(ScoreFn(name)));
      RunScoreCalls(world, p, name, front, m, depth);
      var m1 := ExecAll(world, ScoreCalls(name, front), ORIGIN, m, depth);
      ExecConcat(world, ScoreCalls(name, front), [line], ORIGIN, m, depth);
      ExecOne(world, line, ORIGIN, m1, depth);
      RunScoreCall(world, p, name, w, m1, depth);
    }
  }

  /** Whatever the scoreboard held, the metric's reset and body leave the two best
      matches over all windows on it. */
  lemma BestMatchScores(world: World, p: Pattern, name: string, ws: seq<Window>, m: Machine, depth: nat)
    requires depth > 0 && ScoreFn(name) in world.pack && world.pack[ScoreFn(name)] == BestLines(p, name)
    ensures
      var lines := [SetScore(BestOf(name), 0)] + ([SetScore(GatedOf(name), -1)] + ScoreCalls(name, ws));
      var after := ExecAll(world, lines, ORIGIN, m, depth);
      after.Score(BestOf(name)) == BestScore(world.grid, p, ws) && after.Score(GatedOf(name)) == GatedScore(world.grid, p, ws)
  {
    BestNames(name);
    hide BestLines, ScoreFn, BestOf, GatedOf, ScoreCalls;
    var a, b, rest := SetScore(BestOf(name), 0), SetScore(GatedOf(name), -1), ScoreCalls(name, ws);
    ExecConcat(world, [a], [b] + rest, ORIGIN, m, depth);
    ExecOne(world, a, ORIGIN, m, depth);
    var m1 := m.Put(BestOf(name), 0);
    ExecConcat(world, [b], rest, ORIGIN, m1, depth);
    ExecOne(world, b, ORIGIN, m1, depth);
    RunScoreCalls(world, p, name, ws, m1.Put(GatedOf(name), -1), depth);
  }

  // ----- the score and the detector -------------------------------------------

  ghost predicate SomePasses(g: Grid, p: Pattern, ws: seq<Window>) {
    exists w :: w in ws && Passes(g, p, w)
  }

  lemma {:induction false} GatedIffSome(g: Grid, p: Pattern, ws: seq<Window>, n: nat)
    ensures GatedScore(g, p, ws) >= n <==>
      exists w :: w in ws && AllMarked(g, p.required, w) && CountMarked(g, p.anyOf, w) >= n
    ensures GatedScore(g, p, ws) >= -1
  {
    hide AllMarked, CountMarked;
    if ws != [] {
      GatedIffSome(g, p, ws[..|ws| - 1], n);
      assert forall w :: w in ws <==> w in ws[..|ws| - 1] || w == ws[|ws| - 1];
    }
  }

  /** What a pattern without `forbid_rest` asks of its optional cells is what the
      gated score is compared with. */
  predicate GateIsThreshold(p: Pattern) {
    0 <= p.minAny && (p.anyOf == [] ==> p.minAny == 0)
  }

  lemma SomePassesIffGated(g: Grid, p: Pattern, ws: seq<Window>)
    requires !p.forbidRest && GateIsThreshold(p)
    ensures SomePasses(g, p, ws) <==> GatedScore(g, p, ws) >= p.minAny
  {
    hide AllMarked;
    GatedIffSome(g, p, ws, p.minAny);
    forall w ensures Passes(g, p, w) <==> AllMarked(g, p.required, w) && CountMarked(g, p.anyOf, w) >= p.minAny {
    }
  }

  /** The detector and the score agree: after the metric has run over the windows a
      detector scans, a pattern without `forbid_rest` is there exactly when the
      gated score on the scoreboard is at least `min_any`. */
  lemma PatternFiresIffGated(world: World, name: string, p: Pattern, a: Area, low: int, levels: int, m: Machine,
                             depth: nat)
    requires !p.forbidRest && GateIsThreshold(p)
    requires depth > 0 && ScoreFn(name) in world.pack && world.pack[ScoreFn(name)] == BestLines(p, name)
    ensures
      var ws := Windows(a, p.size, ScanLevels(low, levels));
      var lines := [SetScore(BestOf(name), 0)] + ([SetScore(GatedOf(name), -1)] + ScoreCalls(name, ws));
      var after := ExecAll(world, lines, ORIGIN, m, depth);
      Present(world.grid, Detector(name, PatternScan(p, a, low, levels), [])) <==> after.Score(GatedOf(name)) >= p.minAny
  {
    hide Passes, GatedScore, Windows, ScanLevels, BestLines, ScoreFn, BestOf, GatedOf, ScoreCalls;
    var ws := Windows(a, p.size, ScanLevels(low, levels));
    BestMatchScores(world, p, name, ws, m, depth);
    SomePassesIffGated(world.grid, p, ws);
  }

  /** A pattern without `forbid_rest` fires exactly when its gated score reaches
      `min_any` -- on every grid and every scan exactly when `min_any` is not
      negative, and 0 if there is nothing optional to count. */
  lemma GateIsThresholdExactly(p: Pattern)
    requires !p.forbidRest
    ensures GateIsThreshold(p) <==>
      forall g: Grid, ws: seq<Window> :: SomePasses(g, p, ws) <==> GatedScore(g, p, ws) >= p.minAny
  {
    if GateIsThreshold(p) {
      forall g: Grid, ws: seq<Window> ensures SomePasses(g, p, ws) <==> GatedScore(g, p, ws) >= p.minAny {
        SomePassesIffGated(g, p, ws);
      }
    } else if p.minAny < 0 {
      assert !SomePasses({}, p, []) && GatedScore({}, p, []) == -1;
    } else {
      var g, w := Flat(p.required), Window(0, 0, 0);
      FlatIsPlain(p.required);
      assert Passes(g, p, w) && w in [w];
      assert [w][..0] == [];
      assert SomePasses(g, p, [w]) && GatedScore(g, p, [w]) == 0;
    }
  }
}
