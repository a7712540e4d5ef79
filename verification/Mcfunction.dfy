// The fragment of Minecraft's command language that the detector generator emits,
// and an interpreter for it over a block grid and a scoreboard.

module Mcfunction {
  import opened Options

  datatype Pos = Pos(x: int, y: int, z: int)

  /** The non-air blocks of a world. */
  type Grid = set<Pos>

  /** A coordinate, absolute or relative to the executing position (`~d`). */
  datatype Coord = Abs(v: int) | Rel(d: int)

  datatype Place = Place(x: Coord, y: Coord, z: Coord)

  /** An inclusive score range; a missing bound is open. */
  datatype Range = Range(lo: Option<int>, hi: Option<int>)

  datatype Test =
    | IfAir(at: Place)
    | UnlessAir(at: Place)
    | IfScore(holder: string, range: Range)
    | UnlessScore(holder: string, range: Range)

  datatype Modifier = Check(test: Test) | Positioned(x: int, y: int, z: int)

  datatype Operation = Assign | Increase | Maximum

  datatype Command =
    | Comment
    | AddObjective
    | SetScore(holder: string, v: int)
    | AddScore(holder: string, v: int)
    | Operate(op: Operation, target: string, source: string)
    | StoreGametime(holder: string)
    | Call(fn: string)
    | Execute(mods: seq<Modifier>, run: Command)

  datatype FnCall = FnCall(fn: string, at: Pos)

  /** The scoreboard, and the function calls made so far. */
  datatype Machine = Machine(scores: map<string, int>, calls: seq<FnCall>) {
    function Score(holder: string): int {
      if holder in scores then scores[holder] else 0
    }

    function Put(holder: string, v: int): Machine {
      this.(scores := scores[holder := v])
    }
  }

  /** What commands read besides the scoreboard: blocks, the clock, the datapack. */
  datatype World = World(grid: Grid, gametime: int, pack: map<string, seq<Command>>)

  const ORIGIN: Pos := Pos(0, 0, 0)

  function Coordinate(c: Coord, base: int): int {
    match c case Abs(v) => v case Rel(d) => base + d
  }

  function Resolve(p: Place, at: Pos): Pos {
    Pos(Coordinate(p.x, at.x), Coordinate(p.y, at.y), Coordinate(p.z, at.z))
  }

  predicate InRange(v: int, r: Range) {
    (r.lo.Some? ==> r.lo.value <= v) && (r.hi.Some? ==> v <= r.hi.value)
  }

  /** A score test fails on a holder that has no score; its negation passes. */
  predicate Holds(w: World, t: Test, at: Pos, m: Machine) {
    match t
    case IfAir(p) => Resolve(p, at) !in w.grid
    case UnlessAir(p) => Resolve(p, at) in w.grid
    case IfScore(h, r) => h in m.scores && InRange(m.scores[h], r)
    case UnlessScore(h, r) => !(h in m.scores && InRange(m.scores[h], r))
  }

  /** The position an `execute` chain runs its command at, None if a test fails. */
  function Chain(w: World, mods: seq<Modifier>, at: Pos, m: Machine): Option<Pos> {
    if mods == [] then Some(at)
    else match mods[0]
      case Check(t) => if Holds(w, t, at, m) then Chain(w, mods[1..], at, m) else None
      case Positioned(x, y, z) => Chain(w, mods[1..], Pos(x, y, z), m)
  }

  /** Run one command at a position; `depth` bounds how deeply functions call. */
  function Exec(w: World, c: Command, at: Pos, m: Machine, depth: nat): Machine
    decreases depth, c, 0
  {
    match c
    case Comment => m
    case AddObjective => m
    case SetScore(h, v) => m.Put(h, v)
    case AddScore(h, v) => m.Put(h, m.Score(h) + v)
    case Operate(op, target, source) =>
      var a, b := m.Score(target), m.Score(source);
      m.Put(target, match op
        case Assign => b
        case Increase => a + b
        case Maximum => if a < b then b else a)
    case StoreGametime(h) => m.Put(h, w.gametime)
    case Call(fn) =>
      var called := m.(calls := m.calls + [FnCall(fn, at)]);
      if depth > 0 && fn in w.pack then ExecAll(w, w.pack[fn], at, called, depth - 1) else called
    case Execute(mods, run) =>
      var there := Chain(w, mods, at, m);
      if there.Some? then Exec(w, run, there.value, m, depth) else m
  }

  function ExecAll(w: World, cs: seq<Command>, at: Pos, m: Machine, depth: nat): Machine
    decreases depth, cs, 1
  {
    if cs == [] then m else ExecAll(w, cs[1..], at, Exec(w, cs[0], at, m, depth), depth)
  }

  lemma {:induction false} ExecConcat(w: World, a: seq<Command>, b: seq<Command>, at: Pos, m: Machine, depth: nat)
    ensures ExecAll(w, a + b, at, m, depth) == ExecAll(w, b, at, ExecAll(w, a, at, m, depth), depth)
    decreases |a|
  {
    if a == [] {
      assert a + b == b;
    } else {
      assert (a + b)[0] == a[0] && (a + b)[1..] == a[1..] + b;
      ExecConcat(w, a[1..], b, at, Exec(w, a[0], at, m, depth), depth);
    }
  }

  lemma ExecOne(w: World, c: Command, at: Pos, m: Machine, depth: nat)
    ensures ExecAll(w, [c], at, m, depth) == Exec(w, c, at, m, depth)
  {
    assert [c][1..] == [];
  }

  lemma {:induction false} ChainConcat(w: World, a: seq<Modifier>, b: seq<Modifier>, at: Pos, m: Machine)
    ensures
      var there := Chain(w, a, at, m);
      Chain(w, a + b, at, m) == if there.Some? then Chain(w, b, there.value, m) else None
    decreases |a|
  {
    if a == [] {
      assert a + b == b;
    } else {
      assert (a + b)[0] == a[0] && (a + b)[1..] == a[1..] + b;
      match a[0]
      case Check(t) => ChainConcat(w, a[1..], b, at, m);
      case Positioned(x, y, z) => ChainConcat(w, a[1..], b, Pos(x, y, z), m);
    }
  }

  lemma ChainTest(w: World, t: Test, at: Pos, m: Machine)
    ensures Chain(w, [Check(t)], at, m) == if Holds(w, t, at, m) then Some(at) else None
  {
    assert [Check(t)][1..] == [];
  }
}
