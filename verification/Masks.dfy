// The vectorised pattern masks of the enderman simulation (montecarlo/sim.py), and
// the proof that they mark what the reference matcher reports.

module Masks {
  import opened Options
  import opened Patterns

  /** The slab is N by N columns, stored row by row. */
  const N: int := 64
  const NN: int := 4096

  /** The bytes of one array of the world. */
  type Bytes = seq<int>

  predicate OnSlab(i: int, j: int) {
    0 <= i < N && 0 <= j < N
  }

  function Index(i: int, j: int): (c: int)
    ensures OnSlab(i, j) ==> 0 <= c < NN
  {
    i * N + j
  }

  function Column(a: Bytes, i: int, j: int): int
    requires |a| == NN && OnSlab(i, j)
  {
    a[Index(i, j)]
  }

  /** The column's top block was placed, and it lies at `y`. */
  predicate PlacedTopAt(h: Bytes, p: Bytes, i: int, j: int, y: int)
    requires |h| == NN && |p| == NN && OnSlab(i, j)
  {
    Column(p, i, j) > 0 && Column(h, i, j) - 1 == y
  }

  predicate InWindow(c: Cell, w: int) {
    0 <= c.x < w && 0 <= c.z < w
  }

  // ----- one pass over a mask -------------------------------------------------

  predicate AllInWindow(cells: seq<Cell>, w: int) {
    forall k :: 0 <= k < |cells| ==> InWindow(cells[k], w)
  }

  /** The level a window is tested at: the top of its first cell. */
  function LevelAt(h: Bytes, first: Cell, w: int, i: int, j: int): int
    requires |h| == NN && InWindow(first, w) && 0 <= i <= N - w && 0 <= j <= N - w
  {
    Column(h, i + first.x, j + first.z) - 1
  }

  /** The window's cell has a placed top at the window's level. */
  predicate CellHolds(h: Bytes, p: Bytes, first: Cell, c: Cell, w: int, i: int, j: int)
    requires |h| == NN && |p| == NN && InWindow(first, w) && InWindow(c, w) && 0 <= i <= N - w && 0 <= j <= N - w
  {
    PlacedTopAt(h, p, i + c.x, j + c.z, LevelAt(h, first, w, i, j))
  }

  /** The window's cell is air at the window's level. */
  predicate CellIsLow(h: Bytes, first: Cell, c: Cell, w: int, i: int, j: int)
    requires |h| == NN && InWindow(first, w) && InWindow(c, w) && 0 <= i <= N - w && 0 <= j <= N - w
  {
    Column(h, i + c.x, j + c.z) <= LevelAt(h, first, w, i, j)
  }

  method AndPlaced(m: array2<bool>, h: Bytes, p: Bytes, first: Cell, c: Cell, w: int)
    requires |h| == NN && |p| == NN && InWindow(first, w) && InWindow(c, w) && m.Length0 == m.Length1 == N - w + 1
    modifies m
    ensures forall i, j :: 0 <= i <= N - w && 0 <= j <= N - w ==>
      (m[i, j] <==> old(m[i, j]) && CellHolds(h, p, first, c, w, i, j))
  {
    forall i, j | 0 <= i <= N - w && 0 <= j <= N - w {
      m[i, j] := m[i, j] && CellHolds(h, p, first, c, w, i, j);
    }
  }

  method AndClear(m: array2<bool>, h: Bytes, p: Bytes, first: Cell, c: Cell, w: int)
    requires |h| == NN && |p| == NN && InWindow(first, w) && InWindow(c, w) && m.Length0 == m.Length1 == N - w + 1
    modifies m
    ensures forall i, j :: 0 <= i <= N - w && 0 <= j <= N - w ==>
      (m[i, j] <==> old(m[i, j]) && !CellHolds(h, p, first, c, w, i, j))
  {
    forall i, j | 0 <= i <= N - w && 0 <= j <= N - w {
      m[i, j] := m[i, j] && !CellHolds(h, p, first, c, w, i, j);
    }
  }

  method AndLow(m: array2<bool>, h: Bytes, first: Cell, c: Cell, w: int)
    requires |h| == NN && InWindow(first, w) && InWindow(c, w) && m.Length0 == m.Length1 == N - w + 1
    modifies m
    ensures forall i, j :: 0 <= i <= N - w && 0 <= j <= N - w ==>
      (m[i, j] <==> old(m[i, j]) && CellIsLow(h, first, c, w, i, j))
  {
    forall i, j | 0 <= i <= N - w && 0 <= j <= N - w {
      m[i, j] := m[i, j] && CellIsLow(h, first, c, w, i, j);
    }
  }

  // ----- one pattern mask -----------------------------------------------------

  ghost predicate CellsHold(h: Bytes, p: Bytes, cells: seq<Cell>, n: int, w: int, i: int, j: int)
    requires |h| == NN && |p| == NN && cells != [] && AllInWindow(cells, w) && 0 <= n <= |cells|
    requires 0 <= i <= N - w && 0 <= j <= N - w
  {
    forall k :: 0 <= k < n ==> CellHolds(h, p, cells[0], cells[k], w, i, j)
  }

  ghost predicate HolesHold(h: Bytes, p: Bytes, first: Cell, hole: seq<Cell>, n: int, w: int, i: int, j: int)
    requires |h| == NN && |p| == NN && InWindow(first, w) && AllInWindow(hole, w) && 0 <= n <= |hole|
    requires 0 <= i <= N - w && 0 <= j <= N - w
  {
    forall k :: 0 <= k < n ==> !CellHolds(h, p, first, hole[k], w, i, j) && CellIsLow(h, first, hole[k], w, i, j)
  }

  /** The cells of the window before (x, z), row by row, that are neither part of
      the shape nor a hole are clear at the window's level. */
  ghost predicate RestHolds(h: Bytes, p: Bytes, cells: seq<Cell>, hole: seq<Cell>, x: int, z: int, w: int, i: int, j: int)
    requires |h| == NN && |p| == NN && cells != [] && AllInWindow(cells, w)
    requires 0 <= i <= N - w && 0 <= j <= N - w
  {
    forall c: Cell :: InWindow(c, w) && (c.x < x || (c.x == x && c.z < z)) && c !in cells && c !in hole ==>
      !CellHolds(h, p, cells[0], c, w, i, j)
  }

  /** What `pat` computes for the window at (i, j). */
  ghost predicate MaskAt(h: Bytes, p: Bytes, cells: seq<Cell>, w: int, forbidRest: bool, hole: seq<Cell>, i: int, j: int)
    requires |h| == NN && |p| == NN && cells != [] && AllInWindow(cells, w) && AllInWindow(hole, w)
    requires 0 <= i <= N - w && 0 <= j <= N - w
  {
    && CellsHold(h, p, cells, |cells|, w, i, j)
    && HolesHold(h, p, cells[0], hole, |hole|, w, i, j)
    && (forbidRest ==> RestHolds(h, p, cells, hole, w, 0, w, i, j))
  }

  /** One pattern's mask over all windows of width `w`. */
  method Pat(h: Bytes, p: Bytes, cells: seq<Cell>, w: int, forbidRest: bool, hole: seq<Cell>) returns (m: array2<bool>)
    requires |h| == NN && |p| == NN && 1 <= w <= N
    requires cells != [] && AllInWindow(cells, w) && AllInWindow(hole, w)
    ensures fresh(m) && m.Length0 == m.Length1 == N - w + 1
    ensures forall i, j :: 0 <= i <= N - w && 0 <= j <= N - w ==>
      (m[i, j] <==> MaskAt(h, p, cells, w, forbidRest, hole, i, j))
  {
    hide CellHolds, CellIsLow;
    m := new bool[N - w + 1, N - w + 1]((i, j) => true);
    for k := 0 to |cells|
      invariant forall i, j :: 0 <= i <= N - w && 0 <= j <= N - w ==> (m[i, j] <==> CellsHold(h, p, cells, k, w, i, j))
    {
      AndPlaced(m, h, p, cells[0], cells[k], w);
    }
    for k := 0 to |hole|
      invariant forall i, j :: 0 <= i <= N - w && 0 <= j <= N - w ==>
        (m[i, j] <==> CellsHold(h, p, cells, |cells|, w, i, j) && HolesHold(h, p, cells[0], hole, k, w, i, j))
    {
      AndClear(m, h, p, cells[0], hole[k], w);
      AndLow(m, h, cells[0], hole[k], w);
    }
    if forbidRest {
      ForbidRest(m, h, p, cells, w, hole);
    }
  }

  method ForbidRest(m: array2<bool>, h: Bytes, p: Bytes, cells: seq<Cell>, w: int, hole: seq<Cell>)
    requires |h| == NN && |p| == NN && 1 <= w <= N && cells != [] && AllInWindow(cells, w)
    requires m.Length0 == m.Length1 == N - w + 1
    modifies m
    ensures forall i, j :: 0 <= i <= N - w && 0 <= j <= N - w ==>
      (m[i, j] <==> old(m[i, j]) && RestHolds(h, p, cells, hole, w, 0, w, i, j))
  {
    hide CellHolds;
    for di := 0 to w
      invariant forall i, j :: 0 <= i <= N - w && 0 <= j <= N - w ==>
        (m[i, j] <==> old(m[i, j]) && RestHolds(h, p, cells, hole, di, 0, w, i, j))
    {
      for dj := 0 to w
        invariant forall i, j :: 0 <= i <= N - w && 0 <= j <= N - w ==>
          (m[i, j] <==> old(m[i, j]) && RestHolds(h, p, cells, hole, di, dj, w, i, j))
      {
        hide RestHolds;
        if Cell(di, dj) !in cells && Cell(di, dj) !in hole {
          AndClear(m, h, p, cells[0], Cell(di, dj), w);
        }
        forall i, j | 0 <= i <= N - w && 0 <= j <= N - w
          ensures RestHolds(h, p, cells, hole, di, dj + 1, w, i, j) <==>
            RestHolds(h, p, cells, hole, di, dj, w, i, j)
            && (Cell(di, dj) !in cells && Cell(di, dj) !in hole ==> !CellHolds(h, p, cells[0], Cell(di, dj), w, i, j))
        {
          RestStep(h, p, cells, hole, di, dj, w, i, j);
        }
      }
      forall i, j | 0 <= i <= N - w && 0 <= j <= N - w
        ensures RestHolds(h, p, cells, hole, di, w, w, i, j) <==> RestHolds(h, p, cells, hole, di + 1, 0, w, i, j)
      {
        RestRow(h, p, cells, hole, di, w, i, j);
      }
    }
  }

  lemma RestStep(h: Bytes, p: Bytes, cells: seq<Cell>, hole: seq<Cell>, x: int, z: int, w: int, i: int, j: int)
    requires |h| == NN && |p| == NN && cells != [] && AllInWindow(cells, w) && InWindow(Cell(x, z), w)
    requires 0 <= i <= N - w && 0 <= j <= N - w
    ensures RestHolds(h, p, cells, hole, x, z + 1, w, i, j) <==>
      RestHolds(h, p, cells, hole, x, z, w, i, j)
      && (Cell(x, z) !in cells && Cell(x, z) !in hole ==> !CellHolds(h, p, cells[0], Cell(x, z), w, i, j))
  {
    hide CellHolds;
    assert forall c: Cell :: c.x == x && c.z == z ==> c == Cell(x, z);
  }

  lemma RestRow(h: Bytes, p: Bytes, cells: seq<Cell>, hole: seq<Cell>, x: int, w: int, i: int, j: int)
    requires |h| == NN && |p| == NN && cells != [] && AllInWindow(cells, w)
    requires 0 <= i <= N - w && 0 <= j <= N - w
    ensures RestHolds(h, p, cells, hole, x, w, w, i, j) <==> RestHolds(h, p, cells, hole, x + 1, 0, w, i, j)
  {
    hide CellHolds;
  }

  // ----- the relaxed smiley ---------------------------------------------------

  /** How many of the first `n` cells hold. */
  function CountHolding(h: Bytes, p: Bytes, first: Cell, cells: seq<Cell>, n: int, w: int, i: int, j: int): nat
    requires |h| == NN && |p| == NN && InWindow(first, w) && AllInWindow(cells, w) && 0 <= n <= |cells|
    requires 0 <= i <= N - w && 0 <= j <= N - w
  {
    if n == 0 then 0
    else CountHolding(h, p, first, cells, n - 1, w, i, j) + if CellHolds(h, p, first, cells[n - 1], w, i, j) then 1 else 0
  }

  /** The cells all hold, and so do `min` of the optional ones. */
  ghost predicate RelaxedAt(h: Bytes, p: Bytes, cells: seq<Cell>, anyOf: seq<Cell>, min: int, w: int, i: int, j: int)
    requires |h| == NN && |p| == NN && cells != [] && AllInWindow(cells, w) && AllInWindow(anyOf, w)
    requires 0 <= i <= N - w && 0 <= j <= N - w
  {
    CellsHold(h, p, cells, |cells|, w, i, j) && CountHolding(h, p, cells[0], anyOf, |anyOf|, w, i, j) >= min
  }

  method CountPlaced(cnt: array2<int>, h: Bytes, p: Bytes, first: Cell, c: Cell, w: int)
    requires |h| == NN && |p| == NN && InWindow(first, w) && InWindow(c, w) && cnt.Length0 == cnt.Length1 == N - w + 1
    modifies cnt
    ensures forall i, j :: 0 <= i <= N - w && 0 <= j <= N - w ==>
      cnt[i, j] == old(cnt[i, j]) + if CellHolds(h, p, first, c, w, i, j) then 1 else 0
  {
    forall i, j | 0 <= i <= N - w && 0 <= j <= N - w {
      cnt[i, j] := cnt[i, j] + if CellHolds(h, p, first, c, w, i, j) then 1 else 0;
    }
  }

  /** The mask of the cells and at least `min` of the optional ones. */
  method Relaxed(h: Bytes, p: Bytes, cells: seq<Cell>, anyOf: seq<Cell>, min: int, w: int) returns (m: array2<bool>)
    requires |h| == NN && |p| == NN && 1 <= w <= N
    requires cells != [] && AllInWindow(cells, w) && AllInWindow(anyOf, w)
    ensures fresh(m) && m.Length0 == m.Length1 == N - w + 1
    ensures forall i, j :: 0 <= i <= N - w && 0 <= j <= N - w ==>
      (m[i, j] <==> RelaxedAt(h, p, cells, anyOf, min, w, i, j))
  {
    hide CellHolds;
    m := Pat(h, p, cells, w, false, []);
    var cnt := new int[N - w + 1, N - w + 1]((i, j) => 0);
    for k := 0 to |anyOf|
      invariant forall i, j :: 0 <= i <= N - w && 0 <= j <= N - w ==> (m[i, j] <==> CellsHold(h, p, cells, |cells|, w, i, j))
      invariant forall i, j :: 0 <= i <= N - w && 0 <= j <= N - w ==>
        cnt[i, j] == CountHolding(h, p, cells[0], anyOf, k, w, i, j)
    {
      CountPlaced(cnt, h, p, cells[0], anyOf[k], w);
    }
    forall i, j | 0 <= i <= N - w && 0 <= j <= N - w {
      m[i, j] := m[i, j] && cnt[i, j] >= min;
    }
  }

  // ----- the masks and the reference matcher ----------------------------------

  function Slab(): set<Cell> {
    set i, j | 0 <= i < N && 0 <= j < N :: Cell(i, j)
  }

  /** The tops the detectors would see: a column's top is its highest block, and
      columns without a placed block have none. */
  function TopsOf(h: Bytes, p: Bytes): (tops: Tops)
    requires |h| == NN && |p| == NN
    ensures forall c :: c in tops <==> OnSlab(c.x, c.z) && Column(p, c.x, c.z) > 0
    ensures forall c :: c in tops ==> tops[c] == Column(h, c.x, c.z) - 1
  {
    map c | c in Slab() && Column(p, c.x, c.z) > 0 :: Column(h, c.x, c.z) - 1
  }

  lemma HoldsIsTop(h: Bytes, p: Bytes, first: Cell, c: Cell, w: int, i: int, j: int)
    requires |h| == NN && |p| == NN && InWindow(first, w) && InWindow(c, w) && 0 <= i <= N - w && 0 <= j <= N - w
    ensures CellHolds(h, p, first, c, w, i, j) <==> TopIs(TopsOf(h, p), Shift(c, i, j), LevelAt(h, first, w, i, j))
  {
  }

  /** A pattern with `cells` required, its window `w` wide. */
  function Shape(name: string, cells: seq<Cell>, w: int, anyOf: seq<Cell>, min: int, forbidRest: bool): Pattern {
    Pattern(name, w, cells, anyOf, min, None, forbidRest)
  }

  /** The level a pattern can show at in a window is its first cell's top. */
  lemma LevelOfShown(h: Bytes, p: Bytes, name: string, cells: seq<Cell>, w: int, anyOf: seq<Cell>, min: int, forbidRest: bool, i: int, j: int, y: int)
    requires |h| == NN && |p| == NN && cells != [] && AllInWindow(cells, w) && 0 <= i <= N - w && 0 <= j <= N - w
    requires Shows(TopsOf(h, p), Shape(name, cells, w, anyOf, min, forbidRest), Window(i, y, j))
    ensures y == LevelAt(h, cells[0], w, i, j)
  {
    assert Shift(cells[0], i, j) == Cell(i + cells[0].x, j + cells[0].z);
  }

  /** A strict mask is set for exactly the windows the reference matcher reports,
      whatever the shape. */
  lemma StrictMaskMatches(h: Bytes, p: Bytes, name: string, cells: seq<Cell>, w: int, i: int, j: int)
    requires |h| == NN && |p| == NN && cells != [] && AllInWindow(cells, w) && 0 <= i <= N - w && 0 <= j <= N - w
    ensures MaskAt(h, p, cells, w, true, [], i, j) <==>
      Shows(TopsOf(h, p), Shape(name, cells, w, [], 0, true), Window(i, LevelAt(h, cells[0], w, i, j), j))
  {
    hide CellHolds, TopsOf, LevelAt, TopIs, Shift;
    var pat := Shape(name, cells, w, [], 0, true);
    var tops, y := TopsOf(h, p), LevelAt(h, cells[0], w, i, j);
    forall c | InWindow(c, w) ensures CellHolds(h, p, cells[0], c, w, i, j) <==> TopIs(tops, Shift(c, i, j), y) {
      HoldsIsTop(h, p, cells[0], c, w, i, j);
    }
    var rest := pat.Forbidden();
    assert forall k :: 0 <= k < |rest| ==> rest[k] in rest;
    assert RestHolds(h, p, cells, [], w, 0, w, i, j) <==> forall k :: 0 <= k < |rest| ==> !TopIs(tops, Shift(rest[k], i, j), y) by {
      if forall k :: 0 <= k < |rest| ==> !TopIs(tops, Shift(rest[k], i, j), y) {
        forall c: Cell | InWindow(c, w) && c !in cells ensures !CellHolds(h, p, cells[0], c, w, i, j) {
          assert c in rest;
          var k :| 0 <= k < |rest| && rest[k] == c;
        }
      }
    }
  }

  lemma {:induction false} SameCount(h: Bytes, p: Bytes, first: Cell, cells: seq<Cell>, n: int, w: int, i: int, j: int)
    requires |h| == NN && |p| == NN && InWindow(first, w) && AllInWindow(cells, w) && 0 <= n <= |cells|
    requires 0 <= i <= N - w && 0 <= j <= N - w
    ensures CountHolding(h, p, first, cells, n, w, i, j)
      == CountTops(TopsOf(h, p), cells[..n], i, j, LevelAt(h, first, w, i, j))
  {
    if n > 0 {
      SameCount(h, p, first, cells, n - 1, w, i, j);
      HoldsIsTop(h, p, first, cells[n - 1], w, i, j);
      assert cells[..n] == cells[..n - 1] + [cells[n - 1]];
      CountTopsSnoc(TopsOf(h, p), cells[..n - 1], cells[n - 1], i, j, LevelAt(h, first, w, i, j));
    }
  }

  lemma {:induction false} CountTopsSnoc(tops: Tops, cells: seq<Cell>, c: Cell, i: int, j: int, y: int)
    ensures CountTops(tops, cells + [c], i, j, y) == CountTops(tops, cells, i, j, y) + if TopIs(tops, Shift(c, i, j), y) then 1 else 0
  {
    if cells == [] {
      assert [c][1..] == [] && cells + [c] == [c];
    } else {
      CountTopsSnoc(tops, cells[1..], c, i, j, y);
      assert (cells + [c])[1..] == cells[1..] + [c];
    }
  }

  /** A mask with optional cells is set for exactly the windows the reference
      matcher reports. */
  lemma RelaxedMaskMatches(h: Bytes, p: Bytes, name: string, cells: seq<Cell>, anyOf: seq<Cell>, min: int, w: int, i: int, j: int)
    requires |h| == NN && |p| == NN && cells != [] && AllInWindow(cells, w) && AllInWindow(anyOf, w)
    requires 0 <= i <= N - w && 0 <= j <= N - w
    ensures RelaxedAt(h, p, cells, anyOf, min, w, i, j) <==>
      Shows(TopsOf(h, p), Shape(name, cells, w, anyOf, min, false), Window(i, LevelAt(h, cells[0], w, i, j), j))
  {
    hide CellHolds, TopsOf, LevelAt, TopIs, Shift;
    var tops, y := TopsOf(h, p), LevelAt(h, cells[0], w, i, j);
    forall c | InWindow(c, w) ensures CellHolds(h, p, cells[0], c, w, i, j) <==> TopIs(tops, Shift(c, i, j), y) {
      HoldsIsTop(h, p, cells[0], c, w, i, j);
    }
    assert Shape(name, cells, w, anyOf, min, false).Forbidden() == [];
    SameCount(h, p, cells[0], anyOf, |anyOf|, w, i, j);
    assert anyOf[..|anyOf|] == anyOf;
  }

  /** A column as high as its number of blocks has one at `y`. */
  predicate BlockAt(h: Bytes, i: int, j: int, y: int)
    requires |h| == NN && OnSlab(i, j)
  {
    0 <= y < Column(h, i, j)
  }

  /** The holes of a shape hold exactly where none of them has a block at the level of
      the window. */
  lemma HolesAreAir(h: Bytes, p: Bytes, first: Cell, hole: seq<Cell>, w: int, i: int, j: int)
    requires |h| == NN && |p| == NN && InWindow(first, w) && AllInWindow(hole, w) && 0 <= i <= N - w && 0 <= j <= N - w
    requires LevelAt(h, first, w, i, j) >= 0
    ensures HolesHold(h, p, first, hole, |hole|, w, i, j) <==>
      forall k :: 0 <= k < |hole| ==> !BlockAt(h, i + hole[k].x, j + hole[k].z, LevelAt(h, first, w, i, j))
  {
    hide Index;
  }

  lemma ShapesFit()
    ensures AllInWindow(SMILEY_CELLS, 5) && AllInWindow(SM_EYES, 5) && AllInWindow(SM_MOUTH, 5)
  {
  }

  /** The simulator and the detector agree: the two smiley masks are set at the
      window (i, j) exactly when the reference matcher, run over the whole slab
      without a level filter, reports that window. */
  method SmileyMasks(h: Bytes, p: Bytes) returns (strict: array2<bool>, relaxed: array2<bool>)
    requires |h| == NN && |p| == NN
    ensures fresh(strict) && strict.Length0 == strict.Length1 == 60 && fresh(relaxed) && relaxed.Length0 == relaxed.Length1 == 60
    ensures forall i, j :: 0 <= i < 60 && 0 <= j < 60 ==>
      (strict[i, j] <==> exists y :: Shows(TopsOf(h, p), SMILEY_STRICT, Window(i, y, j)))
    ensures forall i, j :: 0 <= i < 60 && 0 <= j < 60 ==>
      (relaxed[i, j] <==> exists y :: Shows(TopsOf(h, p), SMILEY_RELAXED, Window(i, y, j)))
  {
    ShapesFit();
    strict := Pat(h, p, SMILEY_CELLS, 5, true, []);
    relaxed := Relaxed(h, p, SM_EYES, SM_MOUTH, 3, 5);
    hide MaskAt, RelaxedAt, Shows, TopsOf, AllInWindow;
    forall i, j | 0 <= i < 60 && 0 <= j < 60
      ensures strict[i, j] <==> exists y :: Shows(TopsOf(h, p), SMILEY_STRICT, Window(i, y, j))
      ensures relaxed[i, j] <==> exists y :: Shows(TopsOf(h, p), SMILEY_RELAXED, Window(i, y, j))
    {
      StrictShown(h, p, i, j);
      RelaxedShown(h, p, i, j);
    }
  }

  lemma StrictShown(h: Bytes, p: Bytes, i: int, j: int)
    requires |h| == NN && |p| == NN && 0 <= i < 60 && 0 <= j < 60 && AllInWindow(SMILEY_CELLS, 5)
    ensures MaskAt(h, p, SMILEY_CELLS, 5, true, [], i, j) <==> exists y :: Shows(TopsOf(h, p), SMILEY_STRICT, Window(i, y, j))
  {
    hide MaskAt, Shows, TopsOf, AllInWindow, LevelAt;
    var tops, name := TopsOf(h, p), "smiley_strict";
    assert SMILEY_STRICT == Shape(name, SMILEY_CELLS, 5, [], 0, true);
    StrictMaskMatches(h, p, name, SMILEY_CELLS, 5, i, j);
    forall y | Shows(tops, SMILEY_STRICT, Window(i, y, j)) ensures y == LevelAt(h, SMILEY_CELLS[0], 5, i, j) {
      LevelOfShown(h, p, name, SMILEY_CELLS, 5, [], 0, true, i, j, y);
    }
  }

  lemma RelaxedShown(h: Bytes, p: Bytes, i: int, j: int)
    requires |h| == NN && |p| == NN && 0 <= i < 60 && 0 <= j < 60 && AllInWindow(SM_EYES, 5) && AllInWindow(SM_MOUTH, 5)
    ensures RelaxedAt(h, p, SM_EYES, SM_MOUTH, 3, 5, i, j) <==> exists y :: Shows(TopsOf(h, p), SMILEY_RELAXED, Window(i, y, j))
  {
    hide RelaxedAt, Shows, TopsOf, AllInWindow, LevelAt;
    var tops, name := TopsOf(h, p), "smiley_relaxed";
    assert SMILEY_RELAXED == Shape(name, SM_EYES, 5, SM_MOUTH, 3, false);
    RelaxedMaskMatches(h, p, name, SM_EYES, SM_MOUTH, 3, 5, i, j);
    forall y | Shows(tops, SMILEY_RELAXED, Window(i, y, j)) ensures y == LevelAt(h, SM_EYES[0], 5, i, j) {
      LevelOfShown(h, p, name, SM_EYES, 5, SM_MOUTH, 3, false, i, j, y);
    }
  }
}
