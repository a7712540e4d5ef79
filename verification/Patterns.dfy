// Block patterns (patterns.py): the pattern itself, the reference matcher over
// column tops, and the generator of the commands that detect it in game.

module Patterns {
  import opened Options
  import opened Mcfunction

  /** A column, or a cell of a window: the x axis first, the z axis second. */
  datatype Cell = Cell(x: int, z: int)

  datatype Pattern = Pattern(
    name: string,
    size: int,
    required: seq<Cell>,
    anyOf: seq<Cell>,
    minAny: int,
    anchorCell: Option<Cell>,
    forbidRest: bool
  ) {
    /** A pattern with no anchor of its own is anchored at its first required
        cell, so it must have one of the two. */
    predicate HasAnchor() {
      anchorCell.Some? || required != []
    }

    function Anchor(): Cell
      requires HasAnchor()
    {
      if anchorCell.Some? then anchorCell.value else required[0]
    }

    /** The cells of the window that must not top out at the level. */
    function Forbidden(): (cells: seq<Cell>)
      ensures forbidRest ==> forall c :: c in cells <==>
        0 <= c.x < size && 0 <= c.z < size && c !in required && c !in anyOf
      ensures !forbidRest ==> cells == []
    {
      if forbidRest then RestFrom(0, 0) else []
    }

    /** The window's remaining cells in row order, those of the shape left out. */
    function RestFrom(x: nat, z: nat): (cells: seq<Cell>)
      ensures forall c :: c in cells <==>
        ((c.x == x && z <= c.z < size) || (x < c.x < size && 0 <= c.z < size)) && c.x < size
        && c !in required && c !in anyOf
      decreases if x < size then size - x else 0, if z < size then size - z else 0
    {
      if x >= size then []
      else if z >= size then RestFrom(x + 1, 0)
      else
        var c := Cell(x, z);
        (if c in required || c in anyOf then [] else [c]) + RestFrom(x, z + 1)
    }
  }

  const SM_EYES: seq<Cell> := [Cell(1, 1), Cell(3, 1)]
  const SM_MOUTH: seq<Cell> := [
    Cell(0, 3), Cell(1, 3), Cell(2, 3), Cell(3, 3), Cell(4, 3),
    Cell(0, 4), Cell(1, 4), Cell(2, 4), Cell(3, 4), Cell(4, 4)
  ]
  const SMILEY_CELLS: seq<Cell> := [
    Cell(1, 1), Cell(3, 1), Cell(0, 3), Cell(1, 4), Cell(2, 4), Cell(3, 4), Cell(4, 3)
  ]

  const SMILEY_RELAXED: Pattern := Pattern("smiley_relaxed", 5, SM_EYES, SM_MOUTH, 3, None, false)
  const SMILEY_STRICT: Pattern := Pattern("smiley_strict", 5, SMILEY_CELLS, [], 0, None, true)

  function Shift(c: Cell, x0: int, z0: int): Cell {
    Cell(x0 + c.x, z0 + c.z)
  }

  // ----- the reference matcher ------------------------------------------------

  /** The y of each column's topmost block; empty columns have none. */
  type Tops = map<Cell, int>

  predicate TopIs(tops: Tops, c: Cell, y: int) {
    c in tops && tops[c] == y
  }

  /** A window's low corner and the level it matched at. */
  datatype Window = Window(x: int, y: int, z: int)

  function CountTops(tops: Tops, cells: seq<Cell>, x0: int, z0: int, y: int): nat {
    if cells == [] then 0
    else (if TopIs(tops, Shift(cells[0], x0, z0), y) then 1 else 0) + CountTops(tops, cells[1..], x0, z0, y)
  }

  /** The window at (w.x, w.z) shows the pattern at level w.y. */
  predicate Shows(tops: Tops, p: Pattern, w: Window)
    requires p.HasAnchor()
  {
    && TopIs(tops, Shift(p.Anchor(), w.x, w.z), w.y)
    && (forall i :: 0 <= i < |p.required| ==> TopIs(tops, Shift(p.required[i], w.x, w.z), w.y))
    && CountTops(tops, p.anyOf, w.x, w.z, w.y) >= p.minAny
    && (forall i :: 0 <= i < |p.Forbidden()| ==> !TopIs(tops, Shift(p.Forbidden()[i], w.x, w.z), w.y))
  }

  function Min(a: int, b: int): int { if a < b then a else b }
  function Max(a: int, b: int): int { if a < b then b else a }

  /** A scan area, given by two opposite corners. */
  datatype Area = Area(x1: int, z1: int, x2: int, z2: int)

  predicate InScan(a: Area, size: int, x: int, z: int) {
    && Min(a.x1, a.x2) <= x < Max(a.x1, a.x2) - size + 2
    && Min(a.z1, a.z2) <= z < Max(a.z1, a.z2) - size + 2
  }

  predicate ScannedBefore(a: Window, b: Window) {
    a.x < b.x || (a.x == b.x && a.z < b.z)
  }

  method MatchTops(tops: Tops, p: Pattern, area: Area, levels: Option<seq<int>>) returns (out: seq<Window>)
    requires p.HasAnchor()
    ensures forall w :: w in out <==>
      InScan(area, p.size, w.x, w.z) && (levels.Some? ==> w.y in levels.value) && Shows(tops, p, w)
    ensures forall i, j :: 0 <= i < j < |out| ==> ScannedBefore(out[i], out[j])
  {
    var xa, xb := Min(area.x1, area.x2), Max(area.x1, area.x2);
    var za, zb := Min(area.z1, area.z2), Max(area.z1, area.z2);
    out := [];
    var x0 := xa;
    while x0 < xb - p.size + 2
      invariant xa <= x0 && (x0 <= xb - p.size + 2 || x0 == xa)
      invariant forall w :: w in out <==>
        InScan(area, p.size, w.x, w.z) && w.x < x0 && (levels.Some? ==> w.y in levels.value) && Shows(tops, p, w)
      invariant forall i, j :: 0 <= i < j < |out| ==> ScannedBefore(out[i], out[j])
    {
      var z0 := za;
      while z0 < zb - p.size + 2
        invariant za <= z0 && (z0 <= zb - p.size + 2 || z0 == za)
        invariant forall w :: w in out <==>
          InScan(area, p.size, w.x, w.z) && (w.x < x0 || (w.x == x0 && w.z < z0))
          && (levels.Some? ==> w.y in levels.value) && Shows(tops, p, w)
        invariant forall i, j :: 0 <= i < j < |out| ==> ScannedBefore(out[i], out[j])
      {
        var anchor := Shift(p.Anchor(), x0, z0);
        if anchor in tops {
          var y := tops[anchor];
          var w := Window(x0, y, z0);
          if (levels.Some? ==> y in levels.value) && Shows(tops, p, w) {
            out := out + [w];
          }
        }
        z0 := z0 + 1;
      }
      x0 := x0 + 1;
    }
  }

  /** Columns whose blocks all lie at or below this height are ignored. */
  const SENTINEL: int := -0x4000_0000

  function GridOf(blocks: seq<Pos>): Grid {
    set b | b in blocks
  }

  ghost predicate IsColumnTop(blocks: set<Pos>, c: Cell, y: int) {
    Pos(c.x, y, c.z) in blocks && forall b :: b in blocks && b.x == c.x && b.z == c.z ==> b.y <= y
  }

  /** The column has a block above the sentinel height. */
  ghost predicate SeenColumn(blocks: seq<Pos>, c: Cell) {
    exists k :: 0 <= k < |blocks| && blocks[k].x == c.x && blocks[k].z == c.z && blocks[k].y > SENTINEL
  }

  method TopsFromBlocks(blocks: seq<Pos>) returns (tops: Tops)
    ensures forall c :: c in tops <==> SeenColumn(blocks, c)
    ensures forall c :: c in tops ==> IsColumnTop(GridOf(blocks), c, tops[c])
  {
    tops := map[];
    for i := 0 to |blocks|
      invariant forall c :: c in tops <==>
        exists k :: 0 <= k < i && blocks[k].x == c.x && blocks[k].z == c.z && blocks[k].y > SENTINEL
      invariant forall c :: c in tops ==> tops[c] > SENTINEL
      invariant forall c :: c in tops ==>
        Pos(c.x, tops[c], c.z) in blocks
        && forall k :: 0 <= k < i && blocks[k].x == c.x && blocks[k].z == c.z ==> blocks[k].y <= tops[c]
    {
      var b := blocks[i];
      var c := Cell(b.x, b.z);
      if (if c in tops then tops[c] else SENTINEL) < b.y {
        tops := tops[c := b.y];
      }
    }
    forall c | c in tops ensures IsColumnTop(GridOf(blocks), c, tops[c]) {
    }
  }
}
