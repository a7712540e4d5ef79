// Exactly when the generated detector agrees with the reference matcher: on which
// grids, and for which patterns.

module PatternMeaning {
  import opened Options
  import opened Mcfunction
  import opened Patterns
  import opened PatternPack
  import opened PatternCorrectness

  // ----- grids ----------------------------------------------------------------

  /** `tops` gives every column of the grid its topmost block. */
  ghost predicate IsTops(g: Grid, tops: Tops) {
    && (forall b :: b in g ==> Cell(b.x, b.z) in tops)
    && (forall c :: c in tops ==> IsColumnTop(g, c, tops[c]))
  }

  /** No block at `y` with air above it has anything higher up in its column. */
  ghost predicate GapFree(g: Grid, x: int, y: int, z: int) {
    Marked(g, x, y, z) ==> forall b :: b in g && b.x == x && b.z == z ==> b.y <= y
  }

  ghost predicate NoGaps(g: Grid) {
    forall x, y, z :: GapFree(g, x, y, z)
  }

  /** The commands see a column top exactly where it is one, unless there is a gap. */
  lemma MarkedIsTop(g: Grid, tops: Tops, x: int, y: int, z: int)
    requires IsTops(g, tops)
    ensures GapFree(g, x, y, z) <==> (Marked(g, x, y, z) <==> TopIs(tops, Cell(x, z), y))
  {
    var c := Cell(x, z);
    if c in tops {
      assert IsColumnTop(g, c, tops[c]);
    }
    if TopIs(tops, c, y) {
      assert Pos(x, y + 1, z) !in g;
    }
    if Marked(g, x, y, z) {
      assert Cell(Pos(x, y, z).x, Pos(x, y, z).z) in tops;
    }
  }

  /** `tops_from_blocks` gives the tops of the grid it is fed, exactly when every
      column has a block above the sentinel height. */
  lemma TopsOfBlocks(blocks: seq<Pos>, tops: Tops)
    requires forall c :: c in tops <==> SeenColumn(blocks, c)
    requires forall c :: c in tops ==> IsColumnTop(GridOf(blocks), c, tops[c])
    ensures IsTops(GridOf(blocks), tops) <==> forall b :: b in blocks ==> SeenColumn(blocks, Cell(b.x, b.z))
  {
    hide SeenColumn, IsColumnTop;
    assert forall b :: b in GridOf(blocks) <==> b in blocks;
  }

  // ----- patterns -------------------------------------------------------------

  /** How many of the cells are not `a`. */
  function CountOther(cells: seq<Cell>, a: Cell): nat {
    if cells == [] then 0 else (if cells[0] != a then 1 else 0) + CountOther(cells[1..], a)
  }

  /** The generated commands never test the anchor as such, and they count nothing
      for a pattern without optional cells.  Neither matters for patterns that
      force the anchor to match and ask for no optional cells they do not have. */
  predicate CompilesFaithfully(p: Pattern)
    requires p.HasAnchor()
  {
    && (p.anyOf == [] ==> p.minAny <= 0)
    && (p.Anchor() in p.required || (p.anyOf != [] && CountOther(p.anyOf, p.Anchor()) < p.minAny))
  }

  predicate Touches(p: Pattern, c: Cell)
    requires p.HasAnchor()
  {
    c in p.required || c in p.anyOf || c in p.Forbidden() || c == p.Anchor()
  }

  ghost predicate GapFreeUnder(g: Grid, p: Pattern, w: Window)
    requires p.HasAnchor()
  {
    forall c :: Touches(p, c) ==> GapFree(g, w.x + c.x, w.y, w.z + c.z)
  }

  lemma {:induction false} SameCounts(g: Grid, tops: Tops, cells: seq<Cell>, w: Window)
    requires IsTops(g, tops)
    requires forall c :: c in cells ==> GapFree(g, w.x + c.x, w.y, w.z + c.z)
    ensures CountMarked(g, cells, w) == CountTops(tops, cells, w.x, w.z, w.y)
  {
    if cells != [] {
      MarkedIsTop(g, tops, w.x + cells[0].x, w.y, w.z + cells[0].z);
      SameCounts(g, tops, cells[1..], w);
    }
  }

  lemma {:induction false} CountZero(g: Grid, cells: seq<Cell>, w: Window)
    ensures CountMarked(g, cells, w) <= 0 <==> forall i :: 0 <= i < |cells| ==> !MarkedCell(g, cells[i], w)
  {
    if cells != [] {
      CountZero(g, cells[1..], w);
      assert forall i :: 0 < i < |cells| ==> cells[i] == cells[1..][i - 1];
      assert forall i :: 0 <= i < |cells[1..]| ==> cells[1..][i] == cells[i + 1];
    }
  }

  lemma {:induction false} CountWithoutAnchor(g: Grid, cells: seq<Cell>, a: Cell, w: Window)
    requires !MarkedCell(g, a, w)
    ensures CountMarked(g, cells, w) <= CountOther(cells, a)
  {
    if cells != [] {
      CountWithoutAnchor(g, cells[1..], a, w);
    }
  }

  /** A passing window has its anchor at the level, if the pattern compiles
      faithfully. */
  lemma AnchorIsMarked(g: Grid, p: Pattern, w: Window)
    requires p.HasAnchor() && CompilesFaithfully(p) && Passes(g, p, w)
    ensures MarkedCell(g, p.Anchor(), w)
  {
    if p.Anchor() in p.required {
      var i :| 0 <= i < |p.required| && p.required[i] == p.Anchor();
      assert MarkedCell(g, p.required[i], w);
    } else if !MarkedCell(g, p.Anchor(), w) {
      CountWithoutAnchor(g, p.anyOf, p.Anchor(), w);
    }
  }

  /** Compiler correctness, window by window: on a grid without gaps under the
      window, the commands reach the hit function exactly for the windows the
      reference matcher reports. */
  lemma PassesIffShows(g: Grid, tops: Tops, p: Pattern, w: Window)
    requires p.HasAnchor() && CompilesFaithfully(p) && IsTops(g, tops) && GapFreeUnder(g, p, w)
    ensures Passes(g, p, w) <==> Shows(tops, p, w)
  {
    hide GapFree, IsTops, Marked, MarkedCell, TopIs, CountMarked, CountTops, CompilesFaithfully;
    forall c | Touches(p, c) ensures MarkedCell(g, c, w) <==> TopIs(tops, Shift(c, w.x, w.z), w.y) {
      TouchedIsTop(g, tops, p, w, c);
    }
    assert forall i :: 0 <= i < |p.required| ==> Touches(p, p.required[i]);
    assert forall i :: 0 <= i < |p.Forbidden()| ==> Touches(p, p.Forbidden()[i]);
    assert Touches(p, p.Anchor());
    SameCounts(g, tops, p.anyOf, w);
    CountZero(g, p.Forbidden(), w);
    NothingOptional(tops, p, w);
    if Passes(g, p, w) {
      AnchorIsMarked(g, p, w);
    }
  }

  lemma TouchedIsTop(g: Grid, tops: Tops, p: Pattern, w: Window, c: Cell)
    requires p.HasAnchor() && IsTops(g, tops) && GapFreeUnder(g, p, w) && Touches(p, c)
    ensures MarkedCell(g, c, w) <==> TopIs(tops, Shift(c, w.x, w.z), w.y)
  {
    MarkedIsTop(g, tops, w.x + c.x, w.y, w.z + c.z);
  }

  lemma NothingOptional(tops: Tops, p: Pattern, w: Window)
    requires p.HasAnchor() && CompilesFaithfully(p)
    ensures p.anyOf == [] ==> CountTops(tops, p.anyOf, w.x, w.z, w.y) == 0 >= p.minAny
  {
  }

  // ----- which patterns ---------------------------------------------------

  /** The grid that has a block at level 0 of each listed cell and nothing else. */
  function Flat(cells: seq<Cell>): Grid {
    set c | c in cells :: Pos(c.x, 0, c.z)
  }

  function FlatTops(cells: seq<Cell>): Tops {
    map c | c in cells :: 0
  }

  lemma FlatIsPlain(cells: seq<Cell>)
    ensures IsTops(Flat(cells), FlatTops(cells)) && NoGaps(Flat(cells))
    ensures forall c :: MarkedCell(Flat(cells), c, Window(0, 0, 0)) <==> c in cells
    ensures forall c :: TopIs(FlatTops(cells), Shift(c, 0, 0), 0) <==> c in cells
  {
    forall c ensures Shift(c, 0, 0) == c && Cell(c.x, c.z) == c {
    }
  }

  function Others(cells: seq<Cell>, a: Cell): (r: seq<Cell>)
    ensures forall c :: c in r <==> c in cells && c != a
  {
    if cells == [] then [] else (if cells[0] != a then [cells[0]] else []) + Others(cells[1..], a)
  }

  lemma {:induction false} CountOthersMarked(g: Grid, cells: seq<Cell>, a: Cell, w: Window)
    requires forall c :: c in cells && c != a ==> MarkedCell(g, c, w)
    ensures CountMarked(g, cells, w) >= CountOther(cells, a)
  {
    if cells != [] {
      CountOthersMarked(g, cells[1..], a, w);
    }
  }

  /** On grids without gaps the generated commands and the reference matcher agree
      about a pattern exactly when it compiles faithfully. */
  lemma FaithfulPatternsExactly(p: Pattern)
    requires p.HasAnchor()
    ensures CompilesFaithfully(p) <==>
      forall g: Grid, tops: Tops, w: Window :: IsTops(g, tops) && NoGaps(g) ==> (Passes(g, p, w) <==> Shows(tops, p, w))
  {
    if CompilesFaithfully(p) {
      forall g: Grid, tops: Tops, w: Window | IsTops(g, tops) && NoGaps(g)
        ensures Passes(g, p, w) <==> Shows(tops, p, w)
      {
        PassesIffShows(g, tops, p, w);
      }
    } else {
      var w := Window(0, 0, 0);
      var cells := p.required + (if p.anyOf == [] then [] else Others(p.anyOf, p.Anchor()));
      FlatIsPlain(cells);
      UnfaithfulPasses(p, cells);
    }
  }

  lemma UnfaithfulPasses(p: Pattern, cells: seq<Cell>)
    requires p.HasAnchor() && !CompilesFaithfully(p)
    requires cells == p.required + (if p.anyOf == [] then [] else Others(p.anyOf, p.Anchor()))
    ensures Passes(Flat(cells), p, Window(0, 0, 0)) && !Shows(FlatTops(cells), p, Window(0, 0, 0))
  {
    hide Flat, FlatTops, MarkedCell, TopIs, Shift, IsTops, NoGaps;
    var g, w := Flat(cells), Window(0, 0, 0);
    FlatIsPlain(cells);
    CountZero(g, p.Forbidden(), w);
    assert forall i :: 0 <= i < |p.required| ==> p.required[i] in cells;
    if p.anyOf != [] {
      if p.Anchor() in p.required {
      } else {
        CountOthersMarked(g, p.anyOf, p.Anchor(), w);
        assert p.Anchor() !in cells;
      }
    }
  }

  // ----- which grids ----------------------------------------------------------

  predicate InArea(a: Area, x: int, z: int) {
    Min(a.x1, a.x2) <= x <= Max(a.x1, a.x2) && Min(a.z1, a.z2) <= z <= Max(a.z1, a.z2)
  }

  ghost predicate NoGapsIn(g: Grid, a: Area, levels: seq<int>) {
    forall x, z, y :: InArea(a, x, z) && y in levels ==> GapFree(g, x, y, z)
  }

  /** Every cell of the pattern lies in its window. */
  ghost predicate Fits(p: Pattern)
    requires p.HasAnchor()
  {
    forall c :: Touches(p, c) ==> 0 <= c.x < p.size && 0 <= c.z < p.size
  }

  ghost predicate AgreeOnScan(g: Grid, tops: Tops, p: Pattern, a: Area, levels: seq<int>)
    requires p.HasAnchor()
  {
    forall w: Window :: InScan(a, p.size, w.x, w.z) && w.y in levels ==> (Passes(g, p, w) <==> Shows(tops, p, w))
  }

  const SINGLE: Pattern := Pattern("single", 1, [Cell(0, 0)], [], 0, None, false)

  lemma SingleCell(g: Grid, tops: Tops, w: Window)
    ensures SINGLE.HasAnchor() && CompilesFaithfully(SINGLE) && Fits(SINGLE)
    ensures Passes(g, SINGLE, w) <==> Marked(g, w.x, w.y, w.z)
    ensures Shows(tops, SINGLE, w) <==> TopIs(tops, Cell(w.x, w.z), w.y)
  {
    assert SINGLE.Forbidden() == [];
    assert SINGLE.required[0] == Cell(0, 0);
    assert Shift(Cell(0, 0), w.x, w.z) == Cell(w.x, w.z);
    assert Passes(g, SINGLE, w) <==> MarkedCell(g, SINGLE.required[0], w);
  }

  /** The scan of every faithful pattern agrees with the reference matcher exactly
      when no scanned column has a gap at a scanned level with blocks above it. */
  lemma GapsExactly(g: Grid, tops: Tops, a: Area, levels: seq<int>)
    requires IsTops(g, tops)
    ensures NoGapsIn(g, a, levels) <==>
      forall p: Pattern :: p.HasAnchor() && CompilesFaithfully(p) && Fits(p) ==> AgreeOnScan(g, tops, p, a, levels)
  {
    if NoGapsIn(g, a, levels) {
      forall p: Pattern, w: Window |
        p.HasAnchor() && CompilesFaithfully(p) && Fits(p) && InScan(a, p.size, w.x, w.z) && w.y in levels
        ensures Passes(g, p, w) <==> Shows(tops, p, w)
      {
        forall c | Touches(p, c) ensures GapFree(g, w.x + c.x, w.y, w.z + c.z) {
          assert InArea(a, w.x + c.x, w.z + c.z);
        }
        PassesIffShows(g, tops, p, w);
      }
    } else {
      var x, z, y :| InArea(a, x, z) && y in levels && !GapFree(g, x, y, z);
      var w := Window(x, y, z);
      SingleCell(g, tops, w);
      MarkedIsTop(g, tops, x, y, z);
      assert InScan(a, SINGLE.size, w.x, w.z);
      assert !AgreeOnScan(g, tops, SINGLE, a, levels);
    }
  }

  // ----- the detector ---------------------------------------------------------

  lemma {:induction false} FirstPassingExists(g: Grid, p: Pattern, ws: seq<Window>)
    ensures FirstPassing(g, p, ws).Some? <==> exists w :: w in ws && Passes(g, p, w)
    ensures FirstPassing(g, p, ws).Some? ==> FirstPassing(g, p, ws).value in ws && Passes(g, p, FirstPassing(g, p, ws).value)
  {
    if ws != [] {
      FirstPassingExists(g, p, ws[1..]);
      assert forall w :: w in ws <==> w == ws[0] || w in ws[1..];
    }
  }

  /** The whole check, run with its flag clear, calls the hit function once, at a
      window the reference matcher reports, if the matcher reports any, and leaves
      the flag clear and the hit function alone if it reports none. */
  lemma DetectorFiresIffMatched(world: World, p: Pattern, area: Area, levels: seq<int>, flag: string, countFn: string,
                                hitFn: string, ctr: string, ctrf: string, tops: Tops, matches: seq<Window>,
                                m: Machine, depth: nat)
    requires Packed(world, p, flag, countFn, hitFn, ctr, ctrf) && depth >= 2 && FlagClear(m, flag)
    requires p.HasAnchor() && CompilesFaithfully(p) && Fits(p)
    requires IsTops(world.grid, tops) && NoGapsIn(world.grid, area, levels)
    requires forall w :: w in matches <==> InScan(area, p.size, w.x, w.z) && w.y in levels && Shows(tops, p, w)
    ensures
      var lines := [Comment] + WindowLines(p, Windows(area, p.size, levels), flag, countFn);
      var after := ExecAll(world, lines, ORIGIN, m, depth);
      var before := HitsIn(m.calls, hitFn);
      && (matches != [] ==>
        (flag in after.scores && after.scores[flag] == 1
         && exists w :: w in matches && HitsIn(after.calls, hitFn) == before + [Corner(w)]))
      && (matches == [] ==> FlagClear(after, flag) && HitsIn(after.calls, hitFn) == before)
  {
    var ws := Windows(area, p.size, levels);
    ExecConcat(world, [Comment], WindowLines(p, ws, flag, countFn), ORIGIN, m, depth);
    ExecOne(world, Comment, ORIGIN, m, depth);
    RunWindowLines(world, p, ws, flag, countFn, hitFn, ctr, ctrf, m, depth);
    hide Exec, ExecAll, Packed, HitsIn, WindowLines, IsTops, Shows, Passes, Windows, FirstPassing;
    WindowsMembers(area, p.size, levels);
    GapsExactly(world.grid, tops, area, levels);
    assert AgreeOnScan(world.grid, tops, p, area, levels);
    FirstPassingExists(world.grid, p, ws);
    assert forall w :: w in matches <==> w in ws && Passes(world.grid, p, w);
    if matches != [] {
      assert matches[0] in matches;
    }
  }

  /** The two counters of a second stage are different holders, except when a
      counter that is not named `#c_...` fills all 40 characters. */
  lemma CountersDifferExactly(ctr: string)
    requires |ctr| <= 40
    ensures ctr != RestCounter(ctr) <==> StartsWith(ctr, "#c_") || |ctr| < 40
  {
    var f := RestCounter(ctr);
    if StartsWith(ctr, "#c_") {
      assert ctr[1] == 'c' && f[1] == 'f';
    } else if |ctr| == 40 {
      assert f == (ctr + "_f")[..40] == ctr;
    } else {
      assert |f| > |ctr|;
    }
  }

  /** The counters a detector's own name gives never clash with each other or with
      any detector's hit flag. */
  lemma GeneratedNamesDiffer(name: string, other: string)
    ensures
      var ctr := AnyCounter(name, Some("#c_" + name));
      ctr != RestCounter(ctr) && ctr != "#hit_" + other && RestCounter(ctr) != "#hit_" + other
  {
    var ctr := AnyCounter(name, Some("#c_" + name));
    assert ctr[0] == '#' && ctr[1] == 'c' && ctr[2] == '_';
    assert StartsWith(ctr, "#c_");
    CountersDifferExactly(ctr);
    assert RestCounter(ctr)[1] == 'f';
    assert ("#hit_" + other)[1] == 'h';
  }

  /** Both shipped patterns compile faithfully. */
  lemma SmileysCompileFaithfully()
    ensures CompilesFaithfully(SMILEY_RELAXED) && Fits(SMILEY_RELAXED)
    ensures CompilesFaithfully(SMILEY_STRICT) && Fits(SMILEY_STRICT)
  {
    RelaxedSmiley();
    StrictSmiley();
    hide CompilesFaithfully, Fits;
  }

  lemma RelaxedSmiley()
    ensures CompilesFaithfully(SMILEY_RELAXED) && Fits(SMILEY_RELAXED)
  {
    assert SM_EYES[0] in SM_EYES;
    assert forall c :: c in SM_EYES ==> 0 <= c.x < 5 && 0 <= c.z < 5;
    assert forall c :: c in SM_MOUTH ==> 0 <= c.x < 5 && 0 <= c.z < 5;
  }

  lemma StrictSmiley()
    ensures CompilesFaithfully(SMILEY_STRICT) && Fits(SMILEY_STRICT)
  {
    assert SMILEY_CELLS[0] in SMILEY_CELLS;
    assert forall c :: c in SMILEY_CELLS ==> 0 <= c.x < 5 && 0 <= c.z < 5;
  }
}
