// The enderman simulation (montecarlo/sim.py): one mob that takes and leaves blocks
// on a flat slab, and what its world keeps.

module Enderman {
  import opened Options
  import opened Patterns
  import opened Masks

  /** The slab's height, and the height a column may not fall below. */
  const BASE: int := 1
  const BYTE_MAX: int := 255
  const DAY: int := 24000
  const MIX_TICKS: int := 600
  const SPEED: real := 0.3

  // ----- sums of bytes --------------------------------------------------------

  function Sum(s: seq<int>): int {
    if s == [] then 0 else Sum(s[..|s| - 1]) + s[|s| - 1]
  }

  lemma {:induction false} SumUpdate(s: seq<int>, c: int, v: int)
    requires 0 <= c < |s|
    ensures Sum(s[c := v]) == Sum(s) - s[c] + v
  {
    var n := |s| - 1;
    if c == n {
      assert s[c := v][..n] == s[..n];
    } else {
      SumUpdate(s[..n], c, v);
      assert s[c := v][..n] == s[..n][c := v];
    }
  }

  lemma {:induction false} SumBounds(s: seq<int>, c: int)
    requires 0 <= c < |s| && forall k :: 0 <= k < |s| ==> s[k] >= 0
    ensures s[c] <= Sum(s)
  {
    var n := |s| - 1;
    SumNotNegative(s[..n]);
    if c < n {
      SumBounds(s[..n], c);
    }
  }

  lemma {:induction false} SumNotNegative(s: seq<int>)
    requires forall k :: 0 <= k < |s| ==> s[k] >= 0
    ensures Sum(s) >= 0
  {
    if s != [] {
      SumNotNegative(s[..|s| - 1]);
    }
  }

  lemma {:induction false} SumOfZeros(s: seq<int>)
    requires forall k :: 0 <= k < |s| ==> s[k] == 0
    ensures Sum(s) == 0
  {
    if s != [] {
      SumOfZeros(s[..|s| - 1]);
    }
  }

  // ----- trap cells -----------------------------------------------------------

  /** The four horizontal neighbours. */
  function Neighbour(n: nat, i: int, j: int): (c: Cell)
    requires n < 4
  {
    match n
    case 0 => Cell(i + 1, j)
    case 1 => Cell(i - 1, j)
    case 2 => Cell(i, j + 1)
    case 3 => Cell(i, j - 1)
  }

  predicate IsWall(h: Bytes, p: Bytes, c: Cell, y: int)
    requires |h| == NN && |p| == NN
  {
    OnSlab(c.x, c.z) && PlacedTopAt(h, p, c.x, c.z, y)
  }

  /** A cell whose four neighbours carry placed blocks with their tops one above
      its floor: the `trap1` mask. */
  predicate Trapped(h: Bytes, p: Bytes, i: int, j: int)
    requires |h| == NN && |p| == NN && OnSlab(i, j)
  {
    Walled(h, p, i, j, 4)
  }

  /** The first `k` neighbours are walls. */
  predicate Walled(h: Bytes, p: Bytes, i: int, j: int, k: nat)
    requires |h| == NN && |p| == NN && OnSlab(i, j) && k <= 4
  {
    forall n :: 0 <= n < k ==> IsWall(h, p, Neighbour(n, i, j), Column(h, i, j))
  }

  /** How many of the first `k` neighbours of (i, j) are trapped. */
  function TrappedAround(h: Bytes, p: Bytes, i: int, j: int, k: nat): nat
    requires |h| == NN && |p| == NN && k <= 4
  {
    if k == 0 then 0
    else
      var c := Neighbour(k - 1, i, j);
      TrappedAround(h, p, i, j, k - 1) + if OnSlab(c.x, c.z) && Trapped(h, p, c.x, c.z) then 1 else 0
  }

  predicate AreNeighbours(i: int, j: int, x: int, z: int) {
    exists n :: 0 <= n < 4 && Neighbour(n, i, j) == Cell(x, z)
  }

  function Placed(a: Bytes, i: int, j: int): Bytes
    requires |a| == NN && OnSlab(i, j)
  {
    a[Index(i, j) := a[Index(i, j)] + 1]
  }

  function Back(n: nat): (m: nat)
    requires n < 4
    ensures m < 4
  {
    match n case 0 => 1 case 1 => 0 case 2 => 3 case 3 => 2
  }

  lemma NeighbourBack(n: nat, i: int, j: int)
    requires n < 4
    ensures var c := Neighbour(n, i, j); Neighbour(Back(n), c.x, c.z) == Cell(i, j) && AreNeighbours(c.x, c.z, i, j)
  {
    var c := Neighbour(n, i, j);
    assert Neighbour(Back(n), c.x, c.z) == Cell(i, j);
  }

  lemma IndexInjective(i: int, j: int, x: int, z: int)
    requires OnSlab(i, j) && OnSlab(x, z) && Index(i, j) == Index(x, z)
    ensures i == x && j == z
  {
  }

  /** Placing a block at (i, j) traps a neighbour only anew, and no other cell than
      its neighbours and itself. */
  lemma PlacingTraps(h: Bytes, p: Bytes, i: int, j: int, x: int, z: int)
    requires |h| == NN && |p| == NN && OnSlab(i, j) && OnSlab(x, z)
    requires Trapped(Placed(h, i, j), Placed(p, i, j), x, z)
    ensures AreNeighbours(i, j, x, z) ==> !Trapped(h, p, x, z)
    ensures !AreNeighbours(i, j, x, z) && Cell(x, z) != Cell(i, j) ==> Trapped(h, p, x, z)
  {
    var ha, pa := Placed(h, i, j), Placed(p, i, j);
    if AreNeighbours(i, j, x, z) {
      var n :| 0 <= n < 4 && Neighbour(n, i, j) == Cell(x, z);
      var back := Back(n);
      NeighbourBack(n, i, j);
      assert IsWall(ha, pa, Neighbour(back, x, z), Column(ha, x, z));
      assert Index(x, z) != Index(i, j);
      assert !IsWall(h, p, Neighbour(back, x, z), Column(h, x, z));
    } else if Cell(x, z) != Cell(i, j) {
      if Index(x, z) == Index(i, j) {
        IndexInjective(x, z, i, j);
      }
      forall n | 0 <= n < 4 ensures IsWall(h, p, Neighbour(n, x, z), Column(h, x, z)) {
        var c := Neighbour(n, x, z);
        assert IsWall(ha, pa, c, Column(ha, x, z));
        NeighbourBack(n, x, z);
        if Index(c.x, c.z) == Index(i, j) {
          IndexInjective(c.x, c.z, i, j);
        }
      }
    }
  }

  /** The placed cell itself, whose neighbours are counted but which is not, is a
      trap afterwards exactly when its walls were two high. */
  lemma PlacedCellTrapped(h: Bytes, p: Bytes, i: int, j: int)
    requires |h| == NN && |p| == NN && OnSlab(i, j)
    ensures Trapped(Placed(h, i, j), Placed(p, i, j), i, j) <==>
      forall n :: 0 <= n < 4 ==> IsWall(h, p, Neighbour(n, i, j), Column(h, i, j) + 1)
  {
    var ha, pa := Placed(h, i, j), Placed(p, i, j);
    forall n | 0 <= n < 4
      ensures IsWall(ha, pa, Neighbour(n, i, j), Column(ha, i, j)) <==> IsWall(h, p, Neighbour(n, i, j), Column(h, i, j) + 1)
    {
      var c := Neighbour(n, i, j);
      if OnSlab(c.x, c.z) && Index(c.x, c.z) == Index(i, j) {
        IndexInjective(c.x, c.z, i, j);
      }
    }
  }

  /** The `trap1` mask: the inner columns, shrunk to the trapped ones wall by wall. */
  method TrapMask(h: Bytes, p: Bytes) returns (core: array2<bool>)
    requires |h| == NN && |p| == NN
    ensures fresh(core) && core.Length0 == core.Length1 == N - 2
    ensures forall i, j :: 0 <= i < N - 2 && 0 <= j < N - 2 ==> (core[i, j] <==> Trapped(h, p, i + 1, j + 1))
  {
    core := new bool[N - 2, N - 2]((i, j) => true);
    for n := 0 to 4
      invariant forall i, j :: 0 <= i < N - 2 && 0 <= j < N - 2 ==>
        (core[i, j] <==> Walled(h, p, i + 1, j + 1, n))
    {
      hide IsWall, Neighbour;
      forall i, j | 0 <= i < N - 2 && 0 <= j < N - 2 {
        core[i, j] := core[i, j] && IsWall(h, p, Neighbour(n, i + 1, j + 1), Column(h, i + 1, j + 1));
      }
    }
  }

  // ----- reflection at the edges ----------------------------------------------

  /** A walk along the slab and back again, over and over. */
  function Folded(v: int): (r: int)
    ensures 0 <= r < N
  {
    var t := v % (2 * N);
    if t < N then t else 2 * N - 1 - t
  }

  lemma FoldedBelow(v: int)
    ensures Folded(-v - 1) == Folded(v)
  {
    assert v == 128 * (v / 128) + v % 128;
    assert -v - 1 == 128 * (-(v / 128) - 1) + (127 - v % 128);
  }

  lemma FoldedAbove(v: int)
    ensures Folded(127 - v) == Folded(v)
  {
    assert v == 128 * (v / 128) + v % 128;
    assert 127 - v == 128 * (-(v / 128)) + (127 - v % 128);
  }

  method Reflect(v0: int) returns (v: int)
    ensures v == Folded(v0) && 0 <= v < N
  {
    v := v0;
    while v < 0 || v >= N
      invariant Folded(v) == Folded(v0)
      decreases if v < 0 then -v else if v < N then 0 else v + 1
    {
      hide Folded;
      FoldedBelow(v);
      if v < 0 {
        v := -v - 1;
      }
      FoldedAbove(v);
      if v >= N {
        v := 2 * N - 1 - v;
      }
    }
  }

  // ----- draws ----------------------------------------------------------------

  /** The random draws of a run, by number. */
  datatype Rng = Rng(
    unit: nat -> real,
    cell: nat -> int,
    offset: nat -> int,
    wait: nat -> nat,
    hold: nat -> nat,
    coin: nat -> bool,
    direction: nat -> nat,
    jump: nat -> int)

  /** The ranges the generator draws from. */
  ghost predicate InRange(rng: Rng) {
    && (forall k: nat :: 0.0 <= rng.unit(k) < 1.0)
    && (forall k: nat :: 0 <= rng.cell(k) < N)
    && (forall k: nat :: rng.direction(k) < 4)
  }

  /** A distance is at least as long as either of its legs. */
  ghost predicate IsDistance(hypot: (real, real) -> real) {
    forall a: real, b: real :: hypot(a, b) >= a && hypot(a, b) >= -a && hypot(a, b) >= b && hypot(a, b) >= -b
  }

  predicate OnGround(x: real) {
    0.5 <= x <= 63.5
  }

  function LeastOf(a: real, b: real, c: real): (m: real)
    ensures m <= a && m <= b && m <= c && (m == a || m == b || m == c)
  {
    if a <= b && a <= c then a else if b <= c then b else c
  }

  /** The point a part `t` of the way from `a` to `b`. */
  function Blend(a: real, b: real, t: real): real {
    a + Scaled(b - a, t)
  }

  function Scaled(a: real, t: real): real {
    a * t
  }

  function Share(a: real, d: real, step: real): real
    requires d > 0.0
  {
    a / d * step
  }

  /** A part of the way between two points on the slab is on the slab. */
  lemma PartWay(a: real, b: real, t: real)
    requires OnGround(a) && OnGround(b) && 0.0 <= t <= 1.0
    ensures OnGround(Blend(a, b, t))
  {
    if b >= a {
      PartOf(b - a, t, (b - a) * t);
    } else {
      PartOf(a - b, t, (a - b) * t);
      assert (b - a) * t == -((a - b) * t);
    }
  }

  lemma PartOf(a: real, t: real, way: real)
    requires a >= 0.0 && 0.0 <= t <= 1.0 && way == a * t
    ensures 0.0 <= way <= a
  {
    assert a * (1.0 - t) >= 0.0;
    assert a * (1.0 - t) == a - a * t;
  }

  /** Point `s` of `steps` on the way from `a` to `b`. */
  function PointOnRay(a: real, b: real, s: int, steps: int): real
    requires steps > 0
  {
    Blend(a, b, s as real / steps as real)
  }

  lemma PointOnGround(a: real, b: real, s: int, steps: int)
    requires OnGround(a) && OnGround(b) && 0 <= s <= steps && steps > 0
    ensures OnGround(PointOnRay(a, b, s, steps))
  {
    Ratio(s as real, steps as real);
    PartWay(a, b, s as real / steps as real);
  }

  lemma Ratio(s: real, n: real)
    requires 0.0 <= s <= n && n > 0.0
    ensures 0.0 <= s / n <= 1.0
  {
    var t := s / n;
    assert t * n == s;
  }

  lemma Rearranged(a: real, d: real, step: real)
    requires d > 0.0
    ensures Share(a, d, step) == Scaled(a, step / d)
  {
    var q, t := a / d, step / d;
    assert q * d == a && t * d == step;
    assert q * step == q * (t * d) == (q * d) * t;
  }

  function CellOnRay(ax: real, az: real, bx: real, bz: real, s: int, steps: int): int
    requires steps > 0
  {
    Index(PointOnRay(ax, bx, s, steps).Floor, PointOnRay(az, bz, s, steps).Floor)
  }

  lemma FloorOnSlab(x: real, z: real)
    requires OnGround(x) && OnGround(z)
    ensures OnSlab(x.Floor, z.Floor)
  {
  }

  /** The coordinate a step of `step` of the `d` to the target leads to. */
  function Along(x: real, target: real, d: real, step: real): real
    requires d > 0.0
  {
    x + Share(target - x, d, step)
  }

  /** A step that is no longer than the way to its target stays on the slab. */
  lemma StepStays(x: real, target: real, d: real, step: real)
    requires OnGround(x) && OnGround(target) && 0.0 < d && 0.0 <= step <= d
    ensures OnGround(Along(x, target, d, step))
  {
    hide Share, Scaled;
    Ratio(step, d);
    Rearranged(target - x, d, step);
    PartWay(x, target, step / d);
  }

  // ----- the world ------------------------------------------------------------

  /** A block is not left, or it is, or its column is already as high as a byte goes. */
  datatype Left = Stayed | Put | Overflow

  function Carried(carrying: bool): int {
    if carrying then 1 else 0
  }

  /** Every column is the slab plus the blocks placed on it, nothing was dug out,
      and every loose block lies on the slab or is carried. */
  ghost predicate Conserved(h: Bytes, p: Bytes, d: Bytes, carrying: bool, loose: int) {
    && |h| == |p| == |d| == NN
    && (forall c :: 0 <= c < NN ==> h[c] == BASE + p[c])
    && (forall c :: 0 <= c < NN ==> p[c] >= 0)
    && (forall c :: 0 <= c < NN ==> d[c] == 0)
    && Sum(p) + Carried(carrying) == loose
  }

  lemma AddingConserves(h: Bytes, p: Bytes, d: Bytes, loose: int, c: int)
    requires Conserved(h, p, d, false, loose) && 0 <= c < NN
    ensures Conserved(h[c := h[c] + 1], p[c := p[c] + 1], d, false, loose + 1)
  {
    SumUpdate(p, c, p[c] + 1);
  }

  lemma TakingConserves(h: Bytes, p: Bytes, d: Bytes, loose: int, c: int)
    requires Conserved(h, p, d, false, loose) && 0 <= c < NN && h[c] > BASE
    ensures p[c] > 0 && Conserved(h[c := h[c] - 1], p[c := p[c] - 1], d, true, loose) && h[c] - 1 >= BASE
  {
    SumUpdate(p, c, p[c] - 1);
  }

  lemma LeavingConserves(h: Bytes, p: Bytes, d: Bytes, loose: int, c: int)
    requires Conserved(h, p, d, true, loose) && 0 <= c < NN
    ensures Conserved(h[c := h[c] + 1], p[c := p[c] + 1], d, false, loose)
    ensures h[c] + 1 <= loose + 1
  {
    SumUpdate(p, c, p[c] + 1);
    SumBounds(p, c);
  }

  // ----- walks ----------------------------------------------------------------

  /** A walk over the slab from `a` to `b` that never goes up by more than a block. */
  predicate Climbs(h: Bytes, path: seq<Cell>, a: Cell, b: Cell)
    requires |h| == NN
  {
    && path != [] && path[0] == a && path[|path| - 1] == b
    && (forall i :: 0 <= i < |path| ==> OnSlab(path[i].x, path[i].z))
    && (forall i :: 1 <= i < |path| ==>
          path[i] == path[i - 1] || Column(h, path[i].x, path[i].z) <= Column(h, path[i - 1].x, path[i - 1].z) + 1)
  }

  lemma ClimbsOn(h: Bytes, path: seq<Cell>, a: Cell, b: Cell, c: Cell)
    requires |h| == NN && Climbs(h, path, a, b) && OnSlab(c.x, c.z)
    requires c == b || Column(h, c.x, c.z) <= Column(h, b.x, b.z) + 1
    ensures Climbs(h, path + [c], a, c)
  {
  }

  /** The same cell, or one that shares a side with it. */
  predicate Beside(a: Cell, b: Cell) {
    a == b || exists n: nat :: n < 4 && b == Neighbour(n, a.x, a.z)
  }

  predicate Strolls(path: seq<Cell>) {
    forall i :: 1 <= i < |path| ==> Beside(path[i - 1], path[i])
  }

  lemma StrollsOn(path: seq<Cell>, c: Cell)
    requires path != [] && Strolls(path) && Beside(path[|path| - 1], c)
    ensures Strolls(path + [c])
  {
    hide Beside;
  }

  /** A step of the villager: to the neighbour, unless that is off the slab or too high. */
  predicate Moves(h: Bytes, direction: nat, from: Cell, to: Cell)
    requires |h| == NN
  {
    && direction < 4 && OnSlab(from.x, from.z)
    && var c := Neighbour(direction, from.x, from.z);
    to == if OnSlab(c.x, c.z) && Column(h, c.x, c.z) <= Column(h, from.x, from.z) + 1 then c else from
  }

  /** Where the villager gets to in so many ticks: one step every forty for up to eight
      steps, beyond that a long way folded back onto the slab. */
  predicate Wanders(h: Bytes, rng: Rng, villager: bool, ticks: nat, from: Cell, k0: nat, path: seq<Cell>, to: Cell, k: nat)
    requires |h| == NN
  {
    var n := ticks / 40;
    if !villager || n == 0 then to == from && k == k0
    else if n <= 8 then
      && k == k0 + n && |path| == n + 1 && path[0] == from && path[n] == to
      && forall i :: 1 <= i < |path| ==> Moves(h, rng.direction(k0 + (i - 1)), path[i - 1], path[i])
    else to == Cell(Folded(from.x + rng.jump(k0)), Folded(from.z + rng.jump(k0 + 1))) && k == k0 + 2
  }

  /** A walker between two rounds: where it is, where it is going, how many ticks it
      has left, and the number of its next draw. */
  datatype Walk = Walk(x: real, z: real, target: Option<(real, real)>, left: real, k: nat)

  function CellOf(w: Walk): Cell {
    Cell(w.x.Floor, w.z.Floor)
  }

  /** The cell the draw number `k` and the next one point at. */
  function Offered(rng: Rng, x: real, z: real, k: nat): Cell {
    Cell(x.Floor + rng.offset(k), z.Floor + rng.offset(k + 1))
  }

  /** Offset number `n` of those drawn from number `k` on lies on the slab. */
  predicate Offers(rng: Rng, x: real, z: real, k: nat, n: nat) {
    var c := Offered(rng, x, z, k + 2 * n);
    OnSlab(c.x, c.z)
  }

  ghost predicate NoneOffered(rng: Rng, x: real, z: real, k: nat, n: nat) {
    forall m: nat :: m < n ==> !Offers(rng, x, z, k, m)
  }

  /** The wait for the next stroll is over before the ticks are, and offset number `n`
      is the first to lie on the slab: there it goes. */
  ghost predicate Picks(rng: Rng, a: Walk, n: nat, b: Walk) {
    && a.target.None? && rng.wait(a.k) as real < a.left
    && n < 10 && Offers(rng, a.x, a.z, a.k + 1, n) && NoneOffered(rng, a.x, a.z, a.k + 1, n)
    && var c := Offered(rng, a.x, a.z, a.k + 1 + 2 * n);
    b == Walk(a.x, a.z, Some((c.x as real + 0.5, c.z as real + 0.5)), a.left - rng.wait(a.k) as real, a.k + 3 + 2 * n)
  }

  /** A step from `a` towards its target leads to `b`: it reaches the target, comes
      closer by no more than a block, or finds its way too high. */
  predicate Steps(h: Bytes, hypot: (real, real) -> real, a: Walk, b: Walk)
    requires |h| == NN
  {
    && a.target.Some? && a.left > 0.0
    && var (tx, tz) := a.target.value;
    var d := hypot(tx - a.x, tz - a.z);
    if d < 0.000001 then b == a.(target := None)
    else
      var step := LeastOf(1.0, d, a.left * SPEED);
      var x, z := Along(a.x, tx, d, step), Along(a.z, tz, d, step);
      var from, to := CellOf(a), Cell(x.Floor, z.Floor);
      && OnSlab(from.x, from.z) && OnSlab(to.x, to.z)
      && if to != from && Column(h, to.x, to.z) > Column(h, from.x, from.z) + 1
         then b == a.(target := None, left := a.left - step / SPEED)
         else b == Walk(x, z, if step >= d - 0.000000001 then None else a.target, a.left - step / SPEED, a.k)
  }

  /** One round: without a target, a wait and the choice of one; then a step. */
  ghost predicate Round(h: Bytes, hypot: (real, real) -> real, rng: Rng, a: Walk, b: Walk)
    requires |h| == NN
  {
    a.left > 0.0 &&
    if a.target.Some? then Steps(h, hypot, a, b)
    else exists n: nat, m: Walk :: Picks(rng, a, n, m) && Steps(h, hypot, m, b)
  }

  /** No round begins: the ticks are spent, the wait is as long as what is left of them,
      or none of ten offsets lies on the slab. */
  ghost predicate Over(rng: Rng, a: Walk) {
    a.left <= 0.0
    || (a.target.None? && (rng.wait(a.k) as real >= a.left || NoneOffered(rng, a.x, a.z, a.k + 1, 10)))
  }

  /** The number of the next draw after a walk that is over. */
  function DrawnBy(rng: Rng, a: Walk): nat {
    if a.left <= 0.0 || a.target.Some? then a.k else if rng.wait(a.k) as real >= a.left then a.k + 1 else a.k + 21
  }

  /** Rounds from `a` to `b`, at most `rounds` of them and as many as there can be. */
  ghost predicate Walked(h: Bytes, hypot: (real, real) -> real, rng: Rng, rounds: nat, log: seq<Walk>, a: Walk, k: nat, b: Walk)
    requires |h| == NN
  {
    && log != [] && log[0] == a && log[|log| - 1] == b && |log| <= rounds + 1
    && (forall i :: 1 <= i < |log| ==> Round(h, hypot, rng, log[i - 1], log[i]))
    && if |log| == rounds + 1 then k == b.k else Over(rng, b) && k == DrawnBy(rng, b)
  }

  /** With time left, a way to go and nothing too high on it, a walk does move: a block
      towards the target, or as far as the time or the way goes. */
  lemma FirstStep(h: Bytes, hypot: (real, real) -> real, rng: Rng, rounds: nat, log: seq<Walk>, a: Walk, k: nat, b: Walk)
    requires |h| == NN && Walked(h, hypot, rng, rounds, log, a, k, b) && rounds > 0 && a.left > 0.0 && a.target.Some?
    ensures |log| >= 2
    ensures
      var (tx, tz) := a.target.value;
      var d := hypot(tx - a.x, tz - a.z);
      d >= 0.000001 ==>
        var step := LeastOf(1.0, d, a.left * SPEED);
        var x, z := Along(a.x, tx, d, step), Along(a.z, tz, d, step);
        var to := Cell(x.Floor, z.Floor);
        && OnSlab(to.x, to.z) && OnSlab(a.x.Floor, a.z.Floor)
        && (to == CellOf(a) || Column(h, to.x, to.z) <= Column(h, a.x.Floor, a.z.Floor) + 1 ==> (log[1].x, log[1].z) == (x, z))
  {
    hide Along, LeastOf, NoneOffered, Picks, DrawnBy, Index;
    assert Round(h, hypot, rng, log[0], log[1]);
  }

  lemma WalkedOn(h: Bytes, hypot: (real, real) -> real, rng: Rng, log: seq<Walk>, b: Walk)
    requires |h| == NN && log != [] && Round(h, hypot, rng, log[|log| - 1], b)
    requires forall i :: 1 <= i < |log| ==> Round(h, hypot, rng, log[i - 1], log[i])
    ensures forall i :: 1 <= i < |log| + 1 ==> Round(h, hypot, rng, (log + [b])[i - 1], (log + [b])[i])
  {
    hide Round;
  }

  /** The wait is long, or a daylight or rain teleport is drawn. */
  predicate Teleports(ticks: nat, uniform: bool, rng: Rng, k: nat) {
    (uniform && ticks >= 1 && rng.coin(k)) || ticks > MIX_TICKS
  }

  /** Nothing at point `s` of the ray is higher than the block aimed at. */
  predicate ClearAt(h: Bytes, ax: real, az: real, bx: real, bz: real, yt: int, goal: int, s: int, steps: int)
    requires |h| == NN && steps > 0
  {
    var c := CellOnRay(ax, az, bx, bz, s, steps);
    c == goal || (0 <= c < NN && h[c] <= yt)
  }

  /** In how many steps a ray is walked: four a block. */
  function RaySteps(hypot: (real, real) -> real, dx: real, dz: real): int {
    (hypot(dx, dz) * 4.0).Floor + 1
  }

  predicate ClearRay(h: Bytes, hypot: (real, real) -> real, ax: real, az: real, bx: real, bz: real, yt: int, goal: int)
    requires |h| == NN
  {
    var n := RaySteps(hypot, bx - ax, bz - az);
    forall s :: 1 <= s < n ==> ClearAt(h, ax, az, bx, bz, yt, goal, s, n)
  }

  /** The column a take reaches for. */
  function TakeAim(x: real, z: real, u: real, v: real): Cell {
    Cell((x - 2.0 + u * 4.0).Floor, (z - 2.0 + v * 4.0).Floor)
  }

  /** The column is on the slab, its top block is at the height reached for, and
      nothing stands in the way of it. */
  predicate CanTake(h: Bytes, hypot: (real, real) -> real, x: real, z: real, u: real, v: real, w: real)
    requires |h| == NN && OnSlab(x.Floor, z.Floor)
  {
    var a := TakeAim(x, z, u, v);
    var yt := Column(h, x.Floor, z.Floor) + (w * 3.0).Floor;
    && OnSlab(a.x, a.z) && Column(h, a.x, a.z) - 1 == yt
    && ClearRay(h, hypot, x.Floor as real + 0.5, z.Floor as real + 0.5, a.x as real + 0.5, a.z as real + 0.5, yt, Index(a.x, a.z))
  }

  /** The column a leave reaches for. */
  function LeaveAim(x: real, z: real, u: real, v: real): Cell {
    Cell((x - 1.0 + u * 2.0).Floor, (z - 1.0 + v * 2.0).Floor)
  }

  /** The column is on the slab, its top is just below the height reached for, and the
      villager does not stand there. */
  predicate CanLeave(h: Bytes, villager: bool, at: Cell, x: real, z: real, u: real, v: real, w: real)
    requires |h| == NN && OnSlab(x.Floor, z.Floor)
  {
    var a := LeaveAim(x, z, u, v);
    var yt := Column(h, x.Floor, z.Floor) + (w * 2.0).Floor;
    OnSlab(a.x, a.z) && Column(h, a.x, a.z) == yt && yt >= 1 && !(villager && a == at)
  }

  class World {
    const h: array<int>
    const p: array<int>
    const d: array<int>
    const loose: nat
    const villager: bool
    const hypot: (real, real) -> real

    var ix: int
    var iz: int
    var x: real
    var z: real
    var target: Option<(real, real)>
    var carrying: bool
    var vx: int
    var vz: int
    var takes: nat
    var places: nat
    var trapClose: nat
    var trapCloseVillager: nat
    var deepPit: nat

    ghost predicate Shape() {
      && h.Length == p.Length == d.Length == NN && h != p && h != d && p != d && IsDistance(hypot)
    }

    /** The enderman and the villager stand on the slab. */
    ghost predicate Standing()
      reads this
    {
      && OnGround(x) && OnGround(z) && ix == x.Floor && iz == z.Floor && OnSlab(vx, vz)
      && (target.Some? ==> OnGround(target.value.0) && OnGround(target.value.1))
    }

    ghost function Now(): Scene
      reads this, h, p, d
    {
      Scene(h[..], p[..], d[..], x, z, target, Cell(vx, vz), carrying, takes, places, trapClose)
    }

    ghost predicate Kept()
      reads this, h, p, d
    {
      && Shape()
      && Conserved(h[..], p[..], d[..], carrying, loose)
      && takes == places + Carried(carrying)
      && deepPit == 0
    }

    /** A flat slab with `loose` single blocks on different columns. */
    constructor (sample: seq<int>, villager: bool, hypot: (real, real) -> real, ix0: int, iz0: int, vx0: int, vz0: int)
      requires forall k :: 0 <= k < |sample| ==> 0 <= sample[k] < NN
      requires forall j, k :: 0 <= j < k < |sample| ==> sample[j] != sample[k]
      requires IsDistance(hypot) && OnSlab(ix0, iz0) && OnSlab(vx0, vz0)
      ensures Kept() && Standing() && loose == |sample| && !carrying && this.villager == villager
      ensures forall c :: 0 <= c < NN ==> p[c] == if c in sample then 1 else 0
      ensures takes == places == trapClose == trapCloseVillager == 0
      ensures ix == ix0 && iz == iz0 && vx == vx0 && vz == vz0 && target.None?
      ensures x == ix0 as real + 0.5 && z == iz0 as real + 0.5 && this.hypot == hypot
      ensures fresh(h) && fresh(p) && fresh(d)
    {
      h, p, d := new int[NN](c => BASE), new int[NN](c => 0), new int[NN](c => 0);
      loose, this.villager, this.hypot := |sample|, villager, hypot;
      ix, iz, x, z, target := ix0, iz0, ix0 as real + 0.5, iz0 as real + 0.5, None;
      carrying, vx, vz := false, vx0, vz0;
      takes, places, trapClose, trapCloseVillager, deepPit := 0, 0, 0, 0, 0;
      new;
      SumOfZeros(p[..]);
      Scatter(sample);
    }

    /** One block more on every column of the sample. */
    method Scatter(sample: seq<int>)
      requires Shape() && forall k :: 0 <= k < |sample| ==> 0 <= sample[k] < NN
      requires Conserved(h[..], p[..], d[..], false, 0)
      requires forall j, k :: 0 <= j < k < |sample| ==> sample[j] != sample[k]
      requires forall c :: 0 <= c < NN ==> p[c] == 0
      modifies h, p
      ensures Conserved(h[..], p[..], d[..], false, |sample|)
      ensures forall c :: 0 <= c < NN ==> p[c] == if c in sample then 1 else 0
    {
      for k := 0 to |sample|
        invariant Conserved(h[..], p[..], d[..], false, k)
        invariant forall c :: 0 <= c < NN ==> p[c] == if c in sample[..k] then 1 else 0
      {
        var c := sample[k];
        ghost var hs, ps := h[..], p[..];
        AddingConserves(hs, ps, d[..], k, c);
        h[c] := h[c] + 1;
        p[c] := p[c] + 1;
        assert h[..] == hs[c := hs[c] + 1] && p[..] == ps[c := ps[c] + 1];
      }
    }

    // ----- movement -----------------------------------------------------------

    method Relocate(i: int, j: int)
      requires OnSlab(i, j) && Standing()
      modifies this`ix, this`iz, this`x, this`z, this`target
      ensures Standing() && ix == i && iz == j && target.None?
      ensures (x, z) == (i as real + 0.5, j as real + 0.5)
    {
      ix, iz := i, j;
      x, z := i as real + 0.5, j as real + 0.5;
      target := None;
    }

    /** The first of ten offsets that lies on the slab becomes the target. */
    method PickTarget(rng: Rng, k0: nat) returns (found: bool, k: nat)
      requires Standing()
      modifies this`target
      ensures Standing() && k0 < k <= k0 + 20 && (k - k0) % 2 == 0
      ensures forall n: nat :: n < (k - k0) / 2 - 1 ==> !Offers(rng, x, z, k0, n)
      ensures found <==> Offers(rng, x, z, k0, (k - k0) / 2 - 1)
      ensures found ==>
        var c := Offered(rng, x, z, k - 2);
        target == Some((c.x as real + 0.5, c.z as real + 0.5))
      ensures !found ==> target == old(target) && k == k0 + 20
    {
      k, found := k0, false;
      for n := 0 to 10
        invariant Standing() && k == k0 + 2 * n && !found && target == old(target)
        invariant forall m: nat :: m < n ==> !Offers(rng, x, z, k0, m)
      {
        var tx, tz := ix + rng.offset(k), iz + rng.offset(k + 1);
        k := k + 2;
        if OnSlab(tx, tz) {
          target := Some((tx as real + 0.5, tz as real + 0.5));
          found := true;
          return;
        }
      }
    }

    function At(left: real, k: nat): Walk
      reads `x, `z, `target
    {
      Walk(x, z, target, left, k)
    }

    lemma Distance(dx: real, dz: real)
      requires IsDistance(hypot)
      ensures hypot(dx, dz) >= 0.0
    {
      assert hypot(dx, dz) >= dx && hypot(dx, dz) >= -dx;
    }

    /** Where a step towards the target leads. */
    function Towards(left: real): (to: (real, real))
      requires IsDistance(hypot) && Standing() && target.Some? && left > 0.0
      requires hypot(target.value.0 - x, target.value.1 - z) >= 0.000001
      reads this
      ensures OnGround(to.0) && OnGround(to.1)
    {
      var dist := hypot(target.value.0 - x, target.value.1 - z);
      var step := LeastOf(1.0, dist, left * SPEED);
      StepStays(x, target.value.0, dist, step);
      StepStays(z, target.value.1, dist, step);
      (Along(x, target.value.0, dist, step), Along(z, target.value.1, dist, step))
    }

    function Remaining(): real
      requires target.Some?
      reads this
    {
      hypot(target.value.0 - x, target.value.1 - z)
    }

    /** How far a step leads. */
    function Stride(left: real): real
      requires target.Some?
      reads this
    {
      LeastOf(1.0, Remaining(), left * SPEED)
    }

    /** The step leads to another cell, more than one block up. */
    ghost predicate Blocked(left: real)
      requires Shape() && Standing() && target.Some? && left > 0.0 && Remaining() >= 0.000001
      reads this, h
    {
      var to := Towards(left);
      Cell(to.0.Floor, to.1.Floor) != Cell(ix, iz) && h[Index(to.0.Floor, to.1.Floor)] > h[Index(ix, iz)] + 1
    }

    /** One step towards the target, unless what stands there is too high. */
    method Step(left: real) returns (rest: real)
      requires Shape() && Standing() && target.Some? && left > 0.0
      modifies this`ix, this`iz, this`x, this`z, this`target
      ensures Standing() && rest <= left
      ensures old(Remaining()) < 0.000001 ==>
        rest == left && target.None? && unchanged(`x) && unchanged(`z) && unchanged(`ix) && unchanged(`iz)
      ensures old(Remaining()) >= 0.000001 ==> rest == left - old(Stride(left)) / SPEED
      ensures old(Remaining()) >= 0.000001 && old(Blocked(left)) ==>
        target.None? && unchanged(`x) && unchanged(`z) && unchanged(`ix) && unchanged(`iz)
      ensures old(Remaining()) >= 0.000001 && !old(Blocked(left)) ==>
        (x, z) == old(Towards(left))
        && target == if old(Stride(left)) >= old(Remaining()) - 0.000000001 then None else old(target)
      ensures Cell(ix, iz) == Cell(old(ix), old(iz)) || h[Index(ix, iz)] <= h[Index(old(ix), old(iz))] + 1
      ensures forall k :: Steps(h[..], hypot, old(At(left, k)), At(rest, k))
    {
      hide IsDistance;
      var dist := hypot(target.value.0 - x, target.value.1 - z);
      if dist < 0.000001 {
        target := None;
        return left;
      }
      var step := LeastOf(1.0, dist, left * SPEED);
      var to := Towards(left);
      hide Towards;
      var ni, nj := to.0.Floor, to.1.Floor;
      rest := left - step / SPEED;
      if (ni != ix || nj != iz) && h[Index(ni, nj)] > h[Index(ix, iz)] + 1 {
        target := None;
        return;
      }
      ix, iz, x, z := ni, nj, to.0, to.1;
      if step >= dist - 0.000000001 {
        target := None;
      }
    }

    /** Advance the enderman: it teleports, or walks round by round until its ticks are
        spent, along cells each at most one block higher than the one before. */
    method Advance(ticks: nat, uniform: bool, rng: Rng, k0: nat, rounds: nat)
      returns (k: nat, ghost path: seq<Cell>, ghost log: seq<Walk>, ghost end: Walk)
      requires Shape() && Standing() && InRange(rng)
      modifies this`ix, this`iz, this`x, this`z, this`target
      ensures Standing() && (x, z, target) == (end.x, end.z, end.target)
      ensures Teleports(ticks, uniform, rng, k0) ==>
        Cell(ix, iz) == Cell(rng.cell(k0 + 1), rng.cell(k0 + 2)) && target.None? && k == k0 + 3
        && (x, z) == (ix as real + 0.5, iz as real + 0.5)
      ensures !Teleports(ticks, uniform, rng, k0) ==>
        Walked(h[..], hypot, rng, rounds, log, old(At(ticks as real, k0 + 1)), k, end)
      ensures !Teleports(ticks, uniform, rng, k0) ==> Climbs(h[..], path, Cell(old(ix), old(iz)), Cell(ix, iz))
      ensures !Teleports(ticks, uniform, rng, k0) ==> |path| == |log| && forall i :: 0 <= i < |path| ==> path[i] == CellOf(log[i])
      ensures ticks == 0 ==> unchanged(this)
    {
      hide IsDistance, Walked, Round, Over, DrawnBy, Climbs, CellOf, Teleports, InRange, Standing;
      k, path, log, end := k0, [Cell(ix, iz)], [], At(ticks as real, k0 + 1);
      ClimbsNowhere();
      TeleportsIf(ticks, uniform, rng, k);
      if (uniform && ticks >= 1 && rng.coin(k)) || ticks > MIX_TICKS {
        CellsOnSlab(rng, k);
        Relocate(rng.cell(k + 1), rng.cell(k + 2));
        k := k + 3;
        end := At(0.0, k);
        return;
      }
      k := k + 1;
      var left := ticks as real;
      log := [At(left, k)];
      StandsAt(left, k);
      for n := 0 to rounds
        invariant Standing() && Climbs(h[..], path, Cell(old(ix), old(iz)), Cell(ix, iz))
        invariant ticks == 0 ==> left <= 0.0 && unchanged(this)
        invariant |log| == n + 1 == |path| && log[0] == old(At(ticks as real, k0 + 1)) && log[n] == At(left, k) == end
        invariant forall i :: 1 <= i < |log| ==> Round(h[..], hypot, rng, log[i - 1], log[i])
        invariant forall i :: 0 <= i < |path| ==> path[i] == CellOf(log[i])
      {
        StandsAt(left, k);
        if left <= 0.0 {
          IsOver(rng, rounds, log, k, end);
          return;
        }
        ghost var here := Cell(ix, iz);
        var over;
        left, k, over := OneRound(left, rng, k);
        if over {
          IsOver(rng, rounds, log, k, end);
          return;
        }
        StandsAt(left, k);
        ClimbsOn(h[..], path, Cell(old(ix), old(iz)), here, Cell(ix, iz));
        path := path + [Cell(ix, iz)];
        end := At(left, k);
        WalkedOn(h[..], hypot, rng, log, end);
        log := log + [end];
      }
      IsSpent(rng, rounds, log, k, end);
    }

    /** One round of a walk: without a target, a wait and the choice of one; then a step. */
    method OneRound(left0: real, rng: Rng, k0: nat) returns (left: real, k: nat, over: bool)
      requires Shape() && Standing() && left0 > 0.0
      modifies this`ix, this`iz, this`x, this`z, this`target
      ensures Standing()
      ensures over ==> unchanged(this) && Over(rng, old(At(left0, k0))) && k == DrawnBy(rng, old(At(left0, k0)))
      ensures !over ==> Round(h[..], hypot, rng, old(At(left0, k0)), At(left, k))
      ensures Cell(ix, iz) == Cell(old(ix), old(iz)) || Column(h[..], ix, iz) <= Column(h[..], old(ix), old(iz)) + 1
    {
      hide IsDistance, Offers, Offered, Towards, Blocked, Steps, NoneOffered;
      left, k, over := left0, k0, false;
      ghost var start := At(left, k);
      if target.None? {
        var w := rng.wait(k) as real;
        k := k + 1;
        if w >= left {
          over := true;
          return;
        }
        left := left - w;
        var found;
        ghost var from := k;
        found, k := PickTarget(rng, k);
        Searched(rng, from, found, k);
        if !found {
          over := true;
          return;
        }
        assert Picks(rng, start, (k - from) / 2 - 1, At(left, k));
      }
      ghost var ready := At(left, k);
      left := Step(left);
      assert Steps(h[..], hypot, ready, At(left, k));
      IsRound(rng, start, ready, At(left, k));
    }

    lemma ClimbsNowhere()
      requires Shape() && Standing()
      ensures Climbs(h[..], [Cell(ix, iz)], Cell(ix, iz), Cell(ix, iz))
    {
    }

    lemma StandsAt(left: real, k: nat)
      requires Standing()
      ensures CellOf(At(left, k)) == Cell(ix, iz) && OnSlab(ix, iz)
      ensures At(left, k).left == left && At(left, k).k == k && At(left, k).x == x && At(left, k).z == z && At(left, k).target == target
    {
    }

    lemma CellsOnSlab(rng: Rng, k: nat)
      requires InRange(rng)
      ensures OnSlab(rng.cell(k + 1), rng.cell(k + 2))
    {
    }

    lemma TeleportsIf(ticks: nat, uniform: bool, rng: Rng, k: nat)
      ensures Teleports(ticks, uniform, rng, k) <==> (uniform && ticks >= 1 && rng.coin(k)) || ticks > MIX_TICKS
    {
    }

    lemma IsOver(rng: Rng, rounds: nat, log: seq<Walk>, k: nat, end: Walk)
      requires h.Length == NN && log != [] && log[|log| - 1] == end && |log| <= rounds
      requires forall i :: 1 <= i < |log| ==> Round(h[..], hypot, rng, log[i - 1], log[i])
      requires (end.left <= 0.0 && k == end.k) || (Over(rng, end) && k == DrawnBy(rng, end))
      ensures Walked(h[..], hypot, rng, rounds, log, log[0], k, end)
    {
      hide Round;
    }

    lemma IsSpent(rng: Rng, rounds: nat, log: seq<Walk>, k: nat, end: Walk)
      requires h.Length == NN && |log| == rounds + 1 && log[rounds] == end && k == end.k
      requires forall i :: 1 <= i < |log| ==> Round(h[..], hypot, rng, log[i - 1], log[i])
      ensures Walked(h[..], hypot, rng, rounds, log, log[0], k, end)
    {
      hide Round;
    }

    lemma Searched(rng: Rng, k0: nat, found: bool, k: nat)
      requires k0 < k <= k0 + 20 && (k - k0) % 2 == 0
      requires forall n: nat :: n < (k - k0) / 2 - 1 ==> !Offers(rng, x, z, k0, n)
      requires found <==> Offers(rng, x, z, k0, (k - k0) / 2 - 1)
      requires !found ==> k == k0 + 20
      ensures NoneOffered(rng, x, z, k0, (k - k0) / 2 - 1)
      ensures !found ==> NoneOffered(rng, x, z, k0, 10)
    {
      hide Offers;
    }

    lemma IsRound(rng: Rng, a: Walk, m: Walk, b: Walk)
      requires h.Length == NN && a.left > 0.0 && Steps(h[..], hypot, m, b)
      requires if a.target.Some? then m == a else exists n: nat :: Picks(rng, a, n, m)
      ensures Round(h[..], hypot, rng, a, b)
    {
      hide Steps, Picks;
    }

    /** One step of the villager. */
    method MoveVillager(direction: nat)
      requires Shape() && Standing() && direction < 4
      modifies this`vx, this`vz
      ensures Standing() && Moves(h[..], direction, old(Cell(vx, vz)), Cell(vx, vz))
      ensures Beside(old(Cell(vx, vz)), Cell(vx, vz))
      ensures Cell(vx, vz) == old(Cell(vx, vz)) || Column(h[..], vx, vz) <= Column(h[..], old(vx), old(vz)) + 1
    {
      var to := Neighbour(direction, vx, vz);
      if OnSlab(to.x, to.z) && h[Index(to.x, to.z)] <= h[Index(vx, vz)] + 1 {
        vx, vz := to.x, to.z;
      }
    }

    /** The villager wanders: a few steps, or a long walk folded back onto the slab. */
    method AdvanceVillager(ticks: nat, rng: Rng, k0: nat) returns (k: nat, ghost path: seq<Cell>)
      requires Shape() && Standing() && InRange(rng)
      modifies this`vx, this`vz
      ensures Standing() && Wanders(h[..], rng, villager, ticks, old(Cell(vx, vz)), k0, path, Cell(vx, vz), k)
      ensures ticks / 40 <= 8 ==> Climbs(h[..], path, Cell(old(vx), old(vz)), Cell(vx, vz)) && Strolls(path)
    {
      k, path := k0, [Cell(vx, vz)];
      var n := ticks / 40;
      if !villager || n <= 0 {
        return;
      }
      if n <= 8 {
        k, path := Stroll(n, rng, k);
      } else {
        vx := Reflect(vx + rng.jump(k));
        vz := Reflect(vz + rng.jump(k + 1));
        k := k + 2;
      }
    }

    /** So many steps of the villager. */
    method Stroll(n: nat, rng: Rng, k0: nat) returns (k: nat, ghost path: seq<Cell>)
      requires Shape() && Standing() && InRange(rng)
      modifies this`vx, this`vz
      ensures Standing() && k == k0 + n && |path| == n + 1 && path[0] == old(Cell(vx, vz)) && path[n] == Cell(vx, vz)
      ensures forall i :: 1 <= i < |path| ==> Moves(h[..], rng.direction(k0 + (i - 1)), path[i - 1], path[i])
      ensures Climbs(h[..], path, Cell(old(vx), old(vz)), Cell(vx, vz)) && Strolls(path)
    {
      hide Climbs, Strolls, Moves, IsDistance, Standing;
      k, path := k0, [Cell(vx, vz)];
      VillagerStands();
      for s := 0 to n
        invariant Standing() && Climbs(h[..], path, Cell(old(vx), old(vz)), Cell(vx, vz)) && Strolls(path)
        invariant k == k0 + s && |path| == s + 1 && path[0] == old(Cell(vx, vz)) && path[s] == Cell(vx, vz)
        invariant forall i :: 1 <= i < |path| ==> Moves(h[..], rng.direction(k0 + (i - 1)), path[i - 1], path[i])
      {
        ghost var from := Cell(vx, vz);
        MoveVillager(rng.direction(k));
        k := k + 1;
        VillagerStands();
        ClimbsOn(h[..], path, Cell(old(vx), old(vz)), from, Cell(vx, vz));
        StrollsOn(path, Cell(vx, vz));
        path := path + [Cell(vx, vz)];
      }
    }

    lemma VillagerStands()
      requires Shape() && Standing()
      ensures OnSlab(vx, vz) && Climbs(h[..], [Cell(vx, vz)], Cell(vx, vz), Cell(vx, vz)) && Strolls([Cell(vx, vz)])
    {
    }

    // ----- taking ---------------------------------------------------------------

    lemma RayOnSlab(ax: real, az: real, bx: real, bz: real, s: int, steps: int)
      requires OnGround(ax) && OnGround(az) && OnGround(bx) && OnGround(bz) && 0 <= s <= steps && steps > 0
      ensures 0 <= CellOnRay(ax, az, bx, bz, s, steps) < NN
    {
      PointOnGround(ax, bx, s, steps);
      PointOnGround(az, bz, s, steps);
      hide PointOnRay;
      FloorOnSlab(PointOnRay(ax, bx, s, steps), PointOnRay(az, bz, s, steps));
    }

    /** Nothing on the straight line to the target is higher than the block. */
    method IsClear(ax: real, az: real, bx: real, bz: real, yt: int, goal: int) returns (clear: bool)
      requires Shape() && OnGround(ax) && OnGround(az) && OnGround(bx) && OnGround(bz)
      ensures clear <==> ClearRay(h[..], hypot, ax, az, bx, bz, yt, goal)
    {
      Distance(bx - ax, bz - az);
      hide IsDistance, CellOnRay;
      var n := RaySteps(hypot, bx - ax, bz - az);
      for s := 1 to n
        invariant forall r :: 1 <= r < s ==> ClearAt(h[..], ax, az, bx, bz, yt, goal, r, n)
      {
        RayOnSlab(ax, az, bx, bz, s, n);
        var c := CellOnRay(ax, az, bx, bz, s, n);
        if c != goal && h[c] > yt {
          assert !ClearAt(h[..], ax, az, bx, bz, yt, goal, s, n);
          return false;
        }
      }
      clear := true;
    }

    /** Take the top block of column `c`. */
    method Take(c: int)
      requires Shape() && 0 <= c < NN
      modifies h, p, d, this`carrying, this`takes, this`deepPit
      ensures carrying && takes == old(takes) + 1
      ensures h[..] == old(h[..])[c := old(h[c]) - 1]
      ensures p[..] == if old(p[c]) > 0 then old(p[..])[c := old(p[c]) - 1] else old(p[..])
      ensures d[..] == if old(p[c]) > 0 then old(d[..]) else old(d[..])[c := old(d[c]) + 1]
      ensures deepPit == old(deepPit) + if old(h[c]) - 1 < BASE then 1 else 0
    {
      h[c] := h[c] - 1;
      if p[c] > 0 {
        p[c] := p[c] - 1;
      } else {
        d[c] := d[c] + 1;
      }
      if h[c] < BASE {
        deepPit := deepPit + 1;
      }
      carrying, takes := true, takes + 1;
    }

    /** Try to take the top block of a column nearby. */
    method TryTake(u: real, v: real, w: real) returns (taken: bool, ghost c: int)
      requires Shape() && Standing() && 0.0 <= u < 1.0 && 0.0 <= v < 1.0 && 0.0 <= w < 1.0
      modifies h, p, d, this`carrying, this`takes, this`deepPit
      ensures taken <==> old(CanTake(h[..], hypot, x, z, u, v, w))
      ensures taken ==> c == Index(TakeAim(x, z, u, v).x, TakeAim(x, z, u, v).z)
      ensures !taken ==>
        h[..] == old(h[..]) && p[..] == old(p[..]) && d[..] == old(d[..])
        && carrying == old(carrying) && takes == old(takes) && deepPit == old(deepPit)
      ensures taken ==>
        0 <= c < NN && old(h[c]) > old(h[Index(ix, iz)]) && carrying && takes == old(takes) + 1
        && h[..] == old(h[..])[c := old(h[c]) - 1]
        && p[..] == (if old(p[c]) > 0 then old(p[..])[c := old(p[c]) - 1] else old(p[..]))
        && d[..] == (if old(p[c]) > 0 then old(d[..]) else old(d[..])[c := old(d[c]) + 1])
      ensures old(Kept()) && !old(carrying) ==> Kept()
    {
      hide Conserved, IsDistance, ClearRay;
      taken, c := false, 0;
      var fy := h[Index(ix, iz)];
      var xt, zt := (x - 2.0 + u * 4.0).Floor, (z - 2.0 + v * 4.0).Floor;
      var yt := fy + (w * 3.0).Floor;
      if !OnSlab(xt, zt) || h[Index(xt, zt)] - 1 != yt {
        return;
      }
      var at := Index(xt, zt);
      var clear := IsClear(ix as real + 0.5, iz as real + 0.5, xt as real + 0.5, zt as real + 0.5, yt, at);
      if !clear {
        return;
      }
      if Kept() && !carrying {
        StandsOnSlab();
        TakingConserves(h[..], p[..], d[..], loose, at);
      }
      Take(at);
      taken, c := true, at;
    }

    /** The enderman never stands lower than the slab. */
    lemma StandsOnSlab()
      requires Kept() && Standing()
      ensures h[Index(ix, iz)] >= BASE
    {
    }

    // ----- leaving --------------------------------------------------------------

    /** Count the neighbours of (xt, zt) that are trap cells now. */
    method CheckTrap(xt: int, zt: int)
      requires Shape() && OnSlab(xt, zt)
      modifies this`trapClose, this`trapCloseVillager
      ensures trapClose == old(trapClose) + TrappedAround(h[..], p[..], xt, zt, 4)
      ensures trapCloseVillager == old(trapCloseVillager)
        + VillagerCaught(h[..], p[..], xt, zt, 4, villager, vx, vz)
    {
      for n := 0 to 4
        invariant trapClose == old(trapClose) + TrappedAround(h[..], p[..], xt, zt, n)
        invariant trapCloseVillager == old(trapCloseVillager) + VillagerCaught(h[..], p[..], xt, zt, n, villager, vx, vz)
      {
        var c := Neighbour(n, xt, zt);
        if OnSlab(c.x, c.z) {
          var y := h[Index(c.x, c.z)];
          var ok := true;
          var m := 0;
          while m < 4 && ok
            invariant 0 <= m <= 4
            invariant ok ==> forall q :: 0 <= q < m ==> IsWall(h[..], p[..], Neighbour(q, c.x, c.z), y)
            invariant !ok ==> m > 0 && !IsWall(h[..], p[..], Neighbour(m - 1, c.x, c.z), y)
          {
            var e := Neighbour(m, c.x, c.z);
            ok := OnSlab(e.x, e.z) && p[Index(e.x, e.z)] > 0 && h[Index(e.x, e.z)] - 1 == y;
            m := m + 1;
          }
          assert ok <==> Trapped(h[..], p[..], c.x, c.z);
          if ok {
            trapClose := trapClose + 1;
            if villager && c.x == vx && c.z == vz {
              trapCloseVillager := trapCloseVillager + 1;
            }
          }
        }
      }
    }

    /** Try to leave the carried block on a column nearby. */
    method TryLeave(u: real, v: real, w: real) returns (left: Left, ghost xt: int, ghost zt: int)
      requires Shape() && Standing() && 0.0 <= u < 1.0 && 0.0 <= v < 1.0 && 0.0 <= w < 1.0
      modifies h, p, this`carrying, this`places, this`trapClose, this`trapCloseVillager
      ensures left == Stayed <==> !old(CanLeave(h[..], villager, Cell(vx, vz), x, z, u, v, w))
      ensures left != Stayed ==> Cell(xt, zt) == LeaveAim(x, z, u, v)
      ensures left == Stayed ==>
        h[..] == old(h[..]) && p[..] == old(p[..]) && carrying == old(carrying) && places == old(places)
        && trapClose == old(trapClose) && trapCloseVillager == old(trapCloseVillager)
      ensures left == Put ==>
        OnSlab(xt, zt) && h[..] == Placed(old(h[..]), xt, zt) && p[..] == Placed(old(p[..]), xt, zt)
        && !carrying && places == old(places) + 1
        && trapClose == old(trapClose) + TrappedAround(h[..], p[..], xt, zt, 4)
        && trapCloseVillager == old(trapCloseVillager) + VillagerCaught(h[..], p[..], xt, zt, 4, villager, vx, vz)
      ensures left == Put ==> old(h[Index(xt, zt)]) < BYTE_MAX && old(p[Index(xt, zt)]) < BYTE_MAX
      ensures left == Overflow ==> OnSlab(xt, zt) && (old(h[Index(xt, zt)]) >= BYTE_MAX || old(p[Index(xt, zt)]) >= BYTE_MAX)
      ensures old(Kept()) && old(carrying) && left != Overflow ==> Kept()
      ensures old(Kept()) && old(carrying) && loose <= 254 ==> left != Overflow
    {
      hide Conserved, IsDistance, TrappedAround, VillagerCaught;
      left, xt, zt := Stayed, 0, 0;
      var fy := h[Index(ix, iz)];
      var i, j := (x - 1.0 + u * 2.0).Floor, (z - 1.0 + v * 2.0).Floor;
      var yt := fy + (w * 2.0).Floor;
      if !OnSlab(i, j) || h[Index(i, j)] != yt || yt < 1 || (villager && i == vx && j == vz) {
        return;
      }
      var c := Index(i, j);
      xt, zt := i, j;
      if Kept() && carrying {
        LeavingConserves(h[..], p[..], d[..], loose, c);
        BytesFit(c);
      }
      if h[c] >= BYTE_MAX {
        return Overflow, i, j;
      }
      h[c] := h[c] + 1;
      if p[c] >= BYTE_MAX {
        return Overflow, i, j;
      }
      p[c] := p[c] + 1;
      places, carrying := places + 1, false;
      assert h[..] == Placed(old(h[..]), i, j) && p[..] == Placed(old(p[..]), i, j);
      CheckTrap(i, j);
      left := Put;
    }

    lemma BytesFit(c: int)
      requires Kept() && carrying && 0 <= c < NN
      ensures p[c] < h[c] <= loose
    {
      SumBounds(p[..], c);
    }

    // ----- what a scan finds ----------------------------------------------------

    /** The lowest column. */
    method Lowest() returns (low: int)
      requires Shape()
      ensures forall c :: 0 <= c < NN ==> low <= h[c]
      ensures exists c :: 0 <= c < NN && low == h[c]
    {
      low := h[0];
      for c := 1 to NN
        invariant forall k :: 0 <= k < c ==> low <= h[k]
        invariant exists k :: 0 <= k < c && low == h[k]
      {
        if h[c] < low {
          low := h[c];
        }
      }
    }
  }

  /** The villager stands in one of the first `k` neighbours, and it is trapped. */
  function VillagerCaught(h: Bytes, p: Bytes, i: int, j: int, k: nat, villager: bool, vx: int, vz: int): nat
    requires |h| == NN && |p| == NN && k <= 4
  {
    if k == 0 then 0
    else
      var c := Neighbour(k - 1, i, j);
      VillagerCaught(h, p, i, j, k - 1, villager, vx, vz)
      + if villager && c == Cell(vx, vz) && OnSlab(c.x, c.z) && Trapped(h, p, c.x, c.z) then 1 else 0
  }

  // ----- holes and pits -------------------------------------------------------

  /** A shape of holes: its cells, its width, the cells that must be whole, and
      whether the rest of the window must be. */
  datatype HoleShape = HoleShape(cells: seq<Cell>, w: int, whole: seq<Cell>, forbidRest: bool)

  const HOLE_SHAPES: seq<HoleShape> := [
    HoleShape([Cell(0, 0), Cell(0, 1), Cell(1, 0), Cell(1, 1)], 2, [], false),
    HoleShape([Cell(0, 0), Cell(0, 1), Cell(0, 2), Cell(1, 0), Cell(1, 1), Cell(1, 2), Cell(2, 0), Cell(2, 1), Cell(2, 2)], 3, [], false),
    HoleShape([Cell(0, 0), Cell(0, 1), Cell(0, 2), Cell(1, 0), Cell(1, 2), Cell(2, 0), Cell(2, 1), Cell(2, 2)], 3, [Cell(1, 1)], false),
    HoleShape([Cell(0, 0), Cell(0, 1), Cell(0, 2), Cell(1, 2), Cell(2, 2)], 3, [], true),
    HoleShape([Cell(0, 0), Cell(1, 0), Cell(2, 0), Cell(1, 1), Cell(1, 2)], 3, [], true),
    HoleShape(SMILEY_CELLS, 5, [], true)
  ]

  predicate HoleAt(d: Bytes, i: int, j: int)
    requires |d| == NN
  {
    OnSlab(i, j) && Column(d, i, j) > 0
  }

  function CountHoles(d: Bytes, cells: seq<Cell>, i: int, j: int): nat
    requires |d| == NN
  {
    if cells == [] then 0
    else
      var last := cells[|cells| - 1];
      CountHoles(d, cells[..|cells| - 1], i, j) + if HoleAt(d, i + last.x, j + last.z) then 1 else 0
  }

  predicate HoleShapeAt(d: Bytes, s: HoleShape, i: int, j: int)
    requires |d| == NN
  {
    && 0 <= i <= N - s.w && 0 <= j <= N - s.w
    && (forall q :: 0 <= q < |s.cells| ==> HoleAt(d, i + s.cells[q].x, j + s.cells[q].z))
    && (forall q :: 0 <= q < |s.whole| ==> !HoleAt(d, i + s.whole[q].x, j + s.whole[q].z))
    && (s.forbidRest ==> forall x, z :: 0 <= x < s.w && 0 <= z < s.w && Cell(x, z) !in s.cells && Cell(x, z) !in s.whole ==>
          !HoleAt(d, i + x, j + z))
  }

  /** The hole masks of a scan at (i, j): the shapes, the relaxed smiley, a column
      dug below the slab, one dug twice, and a three by three pit. */
  predicate HoleMark(h: Bytes, d: Bytes, k: int, i: int, j: int)
    requires |h| == NN && |d| == NN
  {
    if 0 <= k < |HOLE_SHAPES| then HoleShapeAt(d, HOLE_SHAPES[k], i, j)
    else if k == 6 then
      0 <= i <= N - 5 && 0 <= j <= N - 5 && HoleAt(d, i + 1, j + 1) && HoleAt(d, i + 3, j + 1) && CountHoles(d, SM_MOUTH, i, j) >= 3
    else if k == 7 then OnSlab(i, j) && Column(h, i, j) < BASE
    else if k == 8 then OnSlab(i, j) && Column(d, i, j) >= 2
    else
      k == 9 && 0 <= i <= N - 3 && 0 <= j <= N - 3
      && forall x, z :: i <= x < i + 3 && j <= z < j + 3 ==> HoleAt(d, x, z)
  }

  /** The dug columns, as the reference matcher would see them at one level. */
  function HoleTops(d: Bytes): (tops: Tops)
    requires |d| == NN
    ensures forall c :: c in tops <==> OnSlab(c.x, c.z) && Column(d, c.x, c.z) > 0
    ensures forall c :: c in tops ==> tops[c] == 0
  {
    map c | c in Slab() && Column(d, c.x, c.z) > 0 :: 0
  }

  lemma HoleIsTop(d: Bytes, c: Cell, i: int, j: int)
    requires |d| == NN
    ensures HoleAt(d, i + c.x, j + c.z) <==> TopIs(HoleTops(d), Shift(c, i, j), 0)
  {
  }

  lemma {:induction false} CountHolesIs(d: Bytes, cells: seq<Cell>, i: int, j: int)
    requires |d| == NN
    ensures CountHoles(d, cells, i, j) == CountTops(HoleTops(d), cells, i, j, 0)
  {
    if cells != [] {
      var front, last := cells[..|cells| - 1], cells[|cells| - 1];
      CountHolesIs(d, front, i, j);
      HoleIsTop(d, last, i, j);
      assert cells == front + [last];
      CountTopsSnoc(HoleTops(d), front, last, i, j, 0);
    }
  }

  /** The mask of a shape of holes is set where the reference matcher reports the shape,
      the cells that must be whole aside. */
  lemma HoleShapeMatches(d: Bytes, s: HoleShape, i: int, j: int)
    requires |d| == NN && s.cells != [] && s.w >= 0 && (s.forbidRest ==> s.whole == [])
    ensures HoleShapeAt(d, s, i, j) <==>
      && 0 <= i <= N - s.w && 0 <= j <= N - s.w
      && Shows(HoleTops(d), Shape("holes", s.cells, s.w, [], 0, s.forbidRest), Window(i, 0, j))
      && forall q :: 0 <= q < |s.whole| ==> !TopIs(HoleTops(d), Shift(s.whole[q], i, j), 0)
  {
    hide HoleAt, HoleTops, TopIs, Shift;
    forall c: Cell ensures HoleAt(d, i + c.x, j + c.z) <==> TopIs(HoleTops(d), Shift(c, i, j), 0) {
      HoleIsTop(d, c, i, j);
    }
    var rest := Shape("holes", s.cells, s.w, [], 0, s.forbidRest).Forbidden();
    if s.forbidRest {
      RestIsClear(d, s, rest, i, j);
    }
  }

  lemma RestIsClear(d: Bytes, s: HoleShape, rest: seq<Cell>, i: int, j: int)
    requires |d| == NN
    requires forall c :: c in rest <==> 0 <= c.x < s.w && 0 <= c.z < s.w && c !in s.cells
    ensures (forall x, z :: 0 <= x < s.w && 0 <= z < s.w && Cell(x, z) !in s.cells ==> !HoleAt(d, i + x, j + z)) <==>
      forall q :: 0 <= q < |rest| ==> !TopIs(HoleTops(d), Shift(rest[q], i, j), 0)
  {
    hide HoleAt, HoleTops, TopIs, Shift;
    forall c: Cell ensures HoleAt(d, i + c.x, j + c.z) <==> TopIs(HoleTops(d), Shift(c, i, j), 0) {
      HoleIsTop(d, c, i, j);
    }
    if forall q :: 0 <= q < |rest| ==> !TopIs(HoleTops(d), Shift(rest[q], i, j), 0) {
      forall x, z | 0 <= x < s.w && 0 <= z < s.w && Cell(x, z) !in s.cells ensures !HoleAt(d, i + x, j + z) {
        assert Cell(x, z) in rest;
        var q :| 0 <= q < |rest| && rest[q] == Cell(x, z);
        assert !TopIs(HoleTops(d), Shift(rest[q], i, j), 0);
      }
    } else {
      var q :| 0 <= q < |rest| && TopIs(HoleTops(d), Shift(rest[q], i, j), 0);
      assert rest[q] in rest && rest[q] == Cell(rest[q].x, rest[q].z);
    }
  }

  lemma HoleShapesAreSound(k: int)
    requires 0 <= k < |HOLE_SHAPES|
    ensures HOLE_SHAPES[k].cells != [] && HOLE_SHAPES[k].w >= 0 && (HOLE_SHAPES[k].forbidRest ==> HOLE_SHAPES[k].whole == [])
  {
  }

  /** The masks of the shapes of holes are set where the reference matcher reports them. */
  lemma HoleMarkMatches(h: Bytes, d: Bytes, k: int, i: int, j: int)
    requires |h| == NN && |d| == NN && 0 <= k < |HOLE_SHAPES|
    ensures
      var s := HOLE_SHAPES[k];
      s.cells != [] &&
      (HoleMark(h, d, k, i, j) <==>
        && 0 <= i <= N - s.w && 0 <= j <= N - s.w
        && Shows(HoleTops(d), Shape("holes", s.cells, s.w, [], 0, s.forbidRest), Window(i, 0, j))
        && forall q :: 0 <= q < |s.whole| ==> !TopIs(HoleTops(d), Shift(s.whole[q], i, j), 0))
  {
    HoleShapesAreSound(k);
    hide HoleShapeAt, Shows, HoleTops;
    HoleShapeMatches(d, HOLE_SHAPES[k], i, j);
  }

  /** The relaxed smiley of holes is set where the reference matcher reports it. */
  lemma RelaxedHolesMatch(h: Bytes, d: Bytes, i: int, j: int)
    requires |h| == NN && |d| == NN
    ensures HoleMark(h, d, 6, i, j) <==>
      0 <= i <= N - 5 && 0 <= j <= N - 5 && Shows(HoleTops(d), SMILEY_RELAXED, Window(i, 0, j))
  {
    hide HoleAt, HoleTops, TopIs, CountHoles, CountTops, HoleShapeAt;
    assert SMILEY_RELAXED == Shape("smiley_relaxed", SM_EYES, 5, SM_MOUTH, 3, false);
    HoleIsTop(d, Cell(1, 1), i, j);
    HoleIsTop(d, Cell(3, 1), i, j);
    CountHolesIs(d, SM_MOUTH, i, j);
    var p, tops := SMILEY_RELAXED, HoleTops(d);
    assert p.Forbidden() == [] && |HOLE_SHAPES| == 6;
    assert p.required == [Cell(1, 1), Cell(3, 1)] && p.Anchor() == p.required[0] && p.anyOf == SM_MOUTH && p.minAny == 3;
    assert (forall q :: 0 <= q < |p.required| ==> TopIs(tops, Shift(p.required[q], i, j), 0)) <==>
      TopIs(tops, Shift(p.required[0], i, j), 0) && TopIs(tops, Shift(p.required[1], i, j), 0);
  }

  function HoleMarks(h: Bytes, d: Bytes): set<(int, int, int)>
    requires |h| == NN && |d| == NN
  {
    set k, i, j | 0 <= k < 10 && 0 <= i < N && 0 <= j < N && HoleMark(h, d, k, i, j) :: (k, i, j)
  }

  /** On a slab nothing was dug out of, no scan marks a hole or a pit. */
  lemma NoHoles(h: Bytes, p: Bytes, d: Bytes, carrying: bool, loose: int)
    requires Conserved(h, p, d, carrying, loose)
    ensures HoleMarks(h, d) == {}
  {
    forall k, i, j | 0 <= k < 10 && 0 <= i < N && 0 <= j < N ensures !HoleMark(h, d, k, i, j) {
      NoMark(h, p, d, carrying, loose, k, i, j);
    }
  }

  lemma NoMark(h: Bytes, p: Bytes, d: Bytes, carrying: bool, loose: int, k: int, i: int, j: int)
    requires Conserved(h, p, d, carrying, loose)
    ensures !HoleMark(h, d, k, i, j)
  {
    forall x, z ensures !HoleAt(d, x, z) {
    }
    if 0 <= k < |HOLE_SHAPES| {
      var s := HOLE_SHAPES[k];
      assert |s.cells| > 0;
      assert !HoleAt(d, i + s.cells[0].x, j + s.cells[0].z);
    } else if k == 9 {
      assert !HoleAt(d, i, j);
    }
  }

  // ----- a turn ---------------------------------------------------------------

  /** What a turn changes. */
  datatype Scene = Scene(h: Bytes, p: Bytes, d: Bytes, x: real, z: real, target: Option<(real, real)>, villager: Cell,
                         carrying: bool, takes: nat, places: nat, trapClose: nat)

  /** The column whose top block is gone, and the hand full. */
  predicate Takes(a: Scene, c: int, b: Scene) {
    && |a.h| == |a.p| == |a.d| == NN && 0 <= c < NN
    && b == a.(
      h := a.h[c := a.h[c] - 1],
      p := if a.p[c] > 0 then a.p[c := a.p[c] - 1] else a.p,
      d := if a.p[c] > 0 then a.d else a.d[c := a.d[c] + 1],
      carrying := true, takes := a.takes + 1)
  }

  /** A chance to take is drawn, and the draws after it make it one to take column `c`. */
  predicate TakeChance(a: Scene, hypot: (real, real) -> real, rng: Rng, k: nat, c: int)
    requires |a.h| == NN && OnSlab(a.x.Floor, a.z.Floor)
  {
    && rng.unit(k) < 0.1 && CanTake(a.h, hypot, a.x, a.z, rng.unit(k + 1), rng.unit(k + 2), rng.unit(k + 3))
    && var aim := TakeAim(a.x, a.z, rng.unit(k + 1), rng.unit(k + 2));
    c == Index(aim.x, aim.z)
  }

  /** The draw after a chance. */
  function AfterChance(rng: Rng, k: nat): nat {
    if rng.unit(k) < 0.1 then k + 4 else k + 1
  }

  /** Two chances to take: the first that can be taken is. */
  ghost predicate TakesOnce(a: Scene, hypot: (real, real) -> real, rng: Rng, k0: nat, b: Scene, k: nat)
    requires |a.h| == NN && OnSlab(a.x.Floor, a.z.Floor)
  {
    var k1 := AfterChance(rng, k0);
    if exists c :: TakeChance(a, hypot, rng, k0, c) then k == k1 && exists c :: TakeChance(a, hypot, rng, k0, c) && Takes(a, c, b)
    else
      && k == AfterChance(rng, k1)
      && if exists c :: TakeChance(a, hypot, rng, k1, c) then exists c :: TakeChance(a, hypot, rng, k1, c) && Takes(a, c, b)
         else b == a
  }

  /** The block in hand is left where the draws say, if it can be. */
  ghost predicate Leaves(a: Scene, watching: bool, rng: Rng, k: nat, b: Scene)
    requires |a.h| == NN && |a.p| == NN && OnSlab(a.x.Floor, a.z.Floor)
  {
    var u, v, w := rng.unit(k), rng.unit(k + 1), rng.unit(k + 2);
    if !CanLeave(a.h, watching, a.villager, a.x, a.z, u, v, w) then b == a
    else
      var c := LeaveAim(a.x, a.z, u, v);
      var h, p := Placed(a.h, c.x, c.z), Placed(a.p, c.x, c.z);
      b == a.(h := h, p := p, carrying := false, places := a.places + 1, trapClose := a.trapClose + TrappedAround(h, p, c.x, c.z, 4))
  }

  /** Only the enderman and the villager have moved. */
  predicate OnlyMoved(a: Scene, b: Scene) {
    b == a.(x := b.x, z := b.z, target := b.target, villager := b.villager)
  }

  /** The enderman teleported or walked from `a` to `b`. */
  ghost predicate Advances(a: Scene, hypot: (real, real) -> real, rng: Rng, ticks: nat, uniform: bool, rounds: nat, k0: nat,
                           b: Scene, k: nat)
    requires |a.h| == NN
  {
    if Teleports(ticks, uniform, rng, k0) then
      (b.x, b.z) == (rng.cell(k0 + 1) as real + 0.5, rng.cell(k0 + 2) as real + 0.5) && b.target.None? && k == k0 + 3
    else exists log, end :: Arrives(a, hypot, rng, ticks, rounds, k0, log, end, b, k)
  }

  ghost predicate Arrives(a: Scene, hypot: (real, real) -> real, rng: Rng, ticks: nat, rounds: nat, k0: nat, log: seq<Walk>,
                          end: Walk, b: Scene, k: nat)
    requires |a.h| == NN
  {
    && Walked(a.h, hypot, rng, rounds, log, Walk(a.x, a.z, a.target, ticks as real, k0 + 1), k, end)
    && (b.x, b.z, b.target) == (end.x, end.z, end.target)
  }

  /** In so many ticks the enderman and the villager moved from `a` to `b`, and nothing
      else changed. */
  ghost predicate Moved(a: Scene, hypot: (real, real) -> real, watching: bool, rng: Rng, ticks: nat, uniform: bool, rounds: nat,
                        k0: nat, b: Scene, k: nat)
    requires |a.h| == NN
  {
    && OnlyMoved(a, b) && OnSlab(b.x.Floor, b.z.Floor)
    && exists k1, path :: Advances(a, hypot, rng, ticks, uniform, rounds, k0, b, k1)
         && Wanders(a.h, rng, watching, ticks, a.villager, k1, path, b.villager, k)
  }

  /** One turn from `a`, with draws from number `k0` on, to `b`: in `dt` ticks the
      enderman and the villager move, and then there are two chances to take a block or,
      with one in hand, one to leave it. */
  ghost predicate Turned(hypot: (real, real) -> real, watching: bool, rng: Rng, uniform: bool, rounds: nat, a: Scene, k0: nat,
                         dt: nat, b: Scene, k: nat)
    requires |a.h| == NN && |a.p| == NN
  {
    if a.carrying then
      dt == 2 * (1 + rng.hold(k0)) && exists m, k1 :: TurnedLeaving(hypot, watching, rng, uniform, rounds, a, k0, dt, m, k1, b, k)
    else
      dt == 4 && exists m, k1 :: TurnedTaking(hypot, watching, rng, uniform, rounds, a, k0, dt, m, k1, b, k)
  }

  ghost predicate TurnedTaking(hypot: (real, real) -> real, watching: bool, rng: Rng, uniform: bool, rounds: nat, a: Scene, k0: nat,
                               dt: nat, m: Scene, k1: nat, b: Scene, k: nat)
    requires |a.h| == NN
  {
    Moved(a, hypot, watching, rng, dt, uniform, rounds, k0, m, k1) && TakesOnce(m, hypot, rng, k1, b, k)
  }

  ghost predicate TurnedLeaving(hypot: (real, real) -> real, watching: bool, rng: Rng, uniform: bool, rounds: nat, a: Scene, k0: nat,
                                dt: nat, m: Scene, k1: nat, b: Scene, k: nat)
    requires |a.h| == NN && |a.p| == NN
  {
    Moved(a, hypot, watching, rng, dt, uniform, rounds, k0 + 1, m, k1) && Leaves(m, watching, rng, k1, b) && k == k1 + 3
  }

  /** The enderman and the villager move. */
  method Move(w: World, ticks: nat, uniform: bool, rng: Rng, k0: nat, rounds: nat) returns (k: nat)
    requires w.Shape() && w.Standing() && InRange(rng)
    modifies w`ix, w`iz, w`x, w`z, w`target, w`vx, w`vz
    ensures w.Standing() && Moved(old(w.Now()), w.hypot, w.villager, rng, ticks, uniform, rounds, k0, w.Now(), k)
  {
    hide IsDistance, Climbs, Strolls, Walked, Wanders, Teleports;
    ghost var a := w.Now();
    ghost var walk, log, end;
    k, walk, log, end := w.Advance(ticks, uniform, rng, k0, rounds);
    ghost var k1 := k;
    k, walk := w.AdvanceVillager(ticks, rng, k);
    ghost var b := w.Now();
    if !Teleports(ticks, uniform, rng, k0) {
      assert Arrives(a, w.hypot, rng, ticks, rounds, k0, log, end, b, k1);
    }
    assert Advances(a, w.hypot, rng, ticks, uniform, rounds, k0, b, k1);
  }

  /** Two chances of one in ten to take a block. */
  method TakeTwice(w: World, rng: Rng, k0: nat) returns (k: nat)
    requires w.Shape() && w.Standing() && InRange(rng) && !w.carrying
    modifies w.h, w.p, w.d, w`carrying, w`takes, w`deepPit
    ensures TakesOnce(old(w.Now()), w.hypot, rng, k0, w.Now(), k)
    ensures old(w.Kept()) ==> w.Kept()
    ensures w.takes == old(w.takes) + Carried(w.carrying)
  {
    hide Conserved, CanTake;
    k := k0;
    ghost var a := w.Now();
    for n := 0 to 2
      invariant w.Now() == a && w.deepPit == old(w.deepPit)
      invariant old(w.Kept()) ==> w.Kept()
      invariant k == if n == 0 then k0 else if n == 1 then AfterChance(rng, k0) else AfterChance(rng, AfterChance(rng, k0))
      invariant n > 0 ==> forall c :: !TakeChance(a, w.hypot, rng, k0, c)
      invariant n > 1 ==> forall c :: !TakeChance(a, w.hypot, rng, AfterChance(rng, k0), c)
    {
      ghost var from := k;
      k := k + 1;
      if rng.unit(k - 1) < 0.1 {
        ghost var at;
        var taken;
        taken, at := w.TryTake(rng.unit(k), rng.unit(k + 1), rng.unit(k + 2));
        k := k + 3;
        if taken {
          assert TakeChance(a, w.hypot, rng, from, at) && Takes(a, at, w.Now());
          return;
        }
      }
    }
  }

  /** A chance to leave the block in hand. */
  method LeaveOnce(w: World, rng: Rng, k: nat) returns (fits: bool)
    requires w.Kept() && w.Standing() && InRange(rng) && w.carrying
    modifies w.h, w.p, w`carrying, w`places, w`trapClose, w`trapCloseVillager
    ensures fits ==> w.Kept() && Leaves(old(w.Now()), w.villager, rng, k, w.Now())
    ensures w.loose <= 254 ==> fits
    ensures fits ==> w.places + Carried(w.carrying) == old(w.places) + 1
  {
    hide Conserved, IsDistance, TrappedAround, VillagerCaught, Placed, CanLeave, LeaveAim;
    var left, _, _ := w.TryLeave(rng.unit(k), rng.unit(k + 1), rng.unit(k + 2));
    fits := left != Overflow;
  }

  /** Empty-handed, a few ticks and two chances to take a block; otherwise the wait
      for a chance to leave it. */
  method Turn(w: World, uniform: bool, rng: Rng, k0: nat, rounds: nat) returns (dt: nat, fits: bool, k: nat)
    requires w.Kept() && w.Standing() && InRange(rng)
    modifies w, w.h, w.p, w.d
    ensures w.Standing() && (fits ==> w.Kept())
    ensures fits ==> Turned(w.hypot, w.villager, rng, uniform, rounds, old(w.Now()), k0, dt, w.Now(), k)
    ensures !fits ==> old(w.carrying)
    ensures dt == if old(w.carrying) then 2 * (1 + rng.hold(k0)) else 4
    ensures w.loose <= 254 ==> fits
    ensures old(w.carrying) ==>
      w.takes == old(w.takes) && (fits ==> w.places + Carried(w.carrying) == old(w.places) + 1)
    ensures !old(w.carrying) ==> w.places == old(w.places) && w.takes == old(w.takes) + Carried(w.carrying)
  {
    hide Conserved, IsDistance, Moved, Leaves, TakesOnce, OnlyMoved;
    fits := true;
    ghost var a := w.Now();
    if !w.carrying {
      dt := 4;
      k := Move(w, dt, uniform, rng, k0, rounds);
      ghost var m, k1 := w.Now(), k;
      k := TakeTwice(w, rng, k);
      assert TurnedTaking(w.hypot, w.villager, rng, uniform, rounds, a, k0, dt, m, k1, w.Now(), k);
    } else {
      dt := 2 * (1 + rng.hold(k0));
      k := Move(w, dt, uniform, rng, k0 + 1, rounds);
      ghost var m, k1 := w.Now(), k;
      fits := LeaveOnce(w, rng, k);
      k := k + 3;
      if fits {
        assert TurnedLeaving(w.hypot, w.villager, rng, uniform, rounds, a, k0, dt, m, k1, w.Now(), k);
      }
    }
  }

  // ----- a run ----------------------------------------------------------------

  datatype Summary =
    | Summary(takes: nat, places: nat, deepPit: nat, holes: nat, minH: int, trapClose: nat)
    | ByteOverflow

  /** A run between two turns. */
  datatype Moment = Moment(scene: Scene, t: int, k: nat, rain: bool, nextScan: int)

  /** A run begins: one block on every column of the sample, nothing in hand, and both
      mobs where the draws put them. */
  ghost predicate Begins(m: Moment, sample: seq<int>, rng: Rng, scanEvery: nat) {
    var s := m.scene;
    && |s.h| == |s.p| == |s.d| == NN
    && (forall c :: 0 <= c < NN ==> s.p[c] == (if c in sample then 1 else 0) && s.h[c] == BASE + s.p[c] && s.d[c] == 0)
    && (s.x, s.z) == (rng.cell(0) as real + 0.5, rng.cell(1) as real + 0.5) && s.target.None?
    && s.villager == Cell(rng.cell(2), rng.cell(3)) && !s.carrying && s.takes == s.places == s.trapClose == 0
    && m.t == 0 && m.rain == rng.coin(4) && m.k == 5 && m.nextScan == DAY * scanEvery
  }

  /** The first half of a day, and a rainy one, teleports the enderman about unless it
      is under a roof. */
  predicate Unsettled(m: Moment, roofed: bool) {
    !roofed && (m.t % DAY < DAY / 2 || m.rain)
  }

  /** A turn, and the weather of the next day if a scan is due after it. */
  ghost predicate Follows(a: Moment, b: Moment, hypot: (real, real) -> real, watching: bool, rng: Rng, roofed: bool, rounds: nat,
                          scanEvery: nat)
  {
    |a.scene.h| == |a.scene.p| == NN && exists dt, k :: FollowsIn(a, b, hypot, watching, rng, roofed, rounds, scanEvery, dt, k)
  }

  ghost predicate FollowsIn(a: Moment, b: Moment, hypot: (real, real) -> real, watching: bool, rng: Rng, roofed: bool, rounds: nat,
                            scanEvery: nat, dt: nat, k: nat)
    requires |a.scene.h| == |a.scene.p| == NN
  {
    && Turned(hypot, watching, rng, Unsettled(a, roofed), rounds, a.scene, a.k, dt, b.scene, k) && b.t == a.t + dt
    && if b.t >= a.nextScan then b.nextScan == a.nextScan + DAY * scanEvery && b.rain == rng.coin(k) && b.k == k + 1
       else b.nextScan == a.nextScan && b.rain == a.rain && b.k == k
  }

  /** The moments of a run, from its beginning to the first past its end. */
  ghost predicate IsRun(log: seq<Moment>, totalTicks: int, sample: seq<int>, roofed: bool, watching: bool,
                        hypot: (real, real) -> real, rng: Rng, scanEvery: nat, rounds: nat)
  {
    && log != [] && Begins(log[0], sample, rng, scanEvery)
    && (forall i :: 1 <= i < |log| ==> Follows(log[i - 1], log[i], hypot, watching, rng, roofed, rounds, scanEvery))
    && (forall i :: 0 <= i < |log| - 1 ==> log[i].t < totalTicks)
  }

  lemma RunGoesOn(log: seq<Moment>, m: Moment, dt: nat, k: nat, totalTicks: int, sample: seq<int>, roofed: bool, watching: bool,
                  hypot: (real, real) -> real, rng: Rng, scanEvery: nat, rounds: nat)
    requires IsRun(log, totalTicks, sample, roofed, watching, hypot, rng, scanEvery, rounds)
    requires log[|log| - 1].t < totalTicks && |log[|log| - 1].scene.h| == |log[|log| - 1].scene.p| == NN
    requires FollowsIn(log[|log| - 1], m, hypot, watching, rng, roofed, rounds, scanEvery, dt, k)
    ensures IsRun(log + [m], totalTicks, sample, roofed, watching, hypot, rng, scanEvery, rounds)
  {
    hide Begins, FollowsIn;
    assert Follows(log[|log| - 1], m, hypot, watching, rng, roofed, rounds, scanEvery);
    hide Follows;
  }

  lemma RunBegins(w: World, sample: seq<int>, roofed: bool, rng: Rng, scanEvery: nat, rounds: nat, totalTicks: int)
    requires w.Kept() && w.x == rng.cell(0) as real + 0.5 && w.z == rng.cell(1) as real + 0.5 && w.target.None? && !w.carrying
    requires forall c :: 0 <= c < NN ==> w.p[c] == if c in sample then 1 else 0
    requires w.vx == rng.cell(2) && w.vz == rng.cell(3) && w.takes == w.places == w.trapClose == 0
    ensures IsRun([Moment(w.Now(), 0, 5, rng.coin(4), DAY * scanEvery)], totalTicks, sample, roofed, w.villager, w.hypot, rng, scanEvery,
                  rounds)
  {
  }

  /** One run: take, carry and leave blocks, and scan once a day.  However long it
      is and whatever is drawn, no pit is dug, no hole is ever marked, no column
      falls below the slab, and takes and places differ by the block in hand; and
      the byte arrays cannot overflow if there are at most 254 loose blocks. */
  method RunOne(totalTicks: int, sample: seq<int>, roofed: bool, villager: bool, hypot: (real, real) -> real, rng: Rng,
                scanEvery: nat, rounds: nat) returns (res: Summary, ghost log: seq<Moment>)
    requires forall k :: 0 <= k < |sample| ==> 0 <= sample[k] < NN
    requires forall j, k :: 0 <= j < k < |sample| ==> sample[j] != sample[k]
    requires IsDistance(hypot) && InRange(rng)
    ensures IsRun(log, totalTicks, sample, roofed, villager, hypot, rng, scanEvery, rounds)
    ensures
      var last := log[|log| - 1];
      if res.Summary? then
        last.t >= totalTicks && res.takes == last.scene.takes && res.places == last.scene.places
        && res.trapClose == last.scene.trapClose && |last.scene.h| == NN
        && (forall c :: 0 <= c < NN ==> res.minH <= last.scene.h[c]) && (exists c :: 0 <= c < NN && res.minH == last.scene.h[c])
      else last.t < totalTicks && last.scene.carrying
    ensures |sample| <= 254 ==> res.Summary?
    ensures res.Summary? ==>
      res.deepPit == 0 && res.holes == 0 && res.minH >= BASE && res.places <= res.takes <= res.places + 1
  {
    hide Conserved, HoleMarks, IsDistance, InRange, IsRun, Turned, FollowsIn, Begins, Unsettled, World.Kept, World.Standing,
      World.Shape, World.Now;
    DrawsOnSlab(rng);
    var w := new World(sample, villager, hypot, rng.cell(0), rng.cell(1), rng.cell(2), rng.cell(3));
    KeptMeans(w);
    var t, k, holes := 0, 4, 0;
    var nextScan := DAY * scanEvery;
    var prev := HoleMarks(w.h[..], w.d[..]);
    var rain := rng.coin(k);
    k := k + 1;
    RunBegins(w, sample, roofed, rng, scanEvery, rounds, totalTicks);
    log := [Moment(w.Now(), t, k, rain, nextScan)];
    while t < totalTicks
      invariant fresh(w) && fresh(w.h) && fresh(w.p) && fresh(w.d)
      invariant w.Kept() && w.Standing() && w.loose == |sample| && holes == 0
      invariant w.villager == villager && w.hypot == hypot
      invariant log != [] && log[|log| - 1] == Moment(w.Now(), t, k, rain, nextScan)
      invariant IsRun(log, totalTicks, sample, roofed, villager, hypot, rng, scanEvery, rounds)
      decreases totalTicks - t
    {
      ghost var from := log[|log| - 1];
      KeptMeans(w);
      UnsettledIf(from, roofed);
      var uniform := !roofed && (t % DAY < DAY / 2 || rain);
      var dt, fits;
      dt, fits, k := Turn(w, uniform, rng, k, rounds);
      t := t + dt;
      if !fits {
        return ByteOverflow, log;
      }
      KeptMeans(w);
      ghost var drawn := k;
      if t >= nextScan {
        NoHoles(w.h[..], w.p[..], w.d[..], w.carrying, w.loose);
        var cur := HoleMarks(w.h[..], w.d[..]);
        holes := holes + |cur - prev|;
        prev := cur;
        nextScan := nextScan + DAY * scanEvery;
        rain := rng.coin(k);
        k := k + 1;
      }
      ghost var m := Moment(w.Now(), t, k, rain, nextScan);
      FollowsIs(from, m, hypot, villager, rng, roofed, rounds, scanEvery, dt, drawn);
      RunGoesOn(log, m, dt, drawn, totalTicks, sample, roofed, villager, hypot, rng, scanEvery, rounds);
      log := log + [m];
    }
    var low := w.Lowest();
    KeptMeans(w);
    SlabIsLowest(w);
    res := Summary(w.takes, w.places, w.deepPit, holes, low, w.trapClose);
  }

  lemma KeptMeans(w: World)
    requires w.Kept()
    ensures w.Shape() && w.h.Length == w.p.Length == w.d.Length == NN && Conserved(w.h[..], w.p[..], w.d[..], w.carrying, w.loose)
    ensures w.deepPit == 0 && w.places <= w.takes <= w.places + 1
    ensures
      var s := w.Now();
      s.h == w.h[..] && s.p == w.p[..] && s.takes == w.takes && s.places == w.places && s.trapClose == w.trapClose
      && s.carrying == w.carrying
  {
    hide Conserved;
  }

  lemma UnsettledIf(m: Moment, roofed: bool)
    ensures Unsettled(m, roofed) <==> !roofed && (m.t % DAY < DAY / 2 || m.rain)
  {
  }

  lemma FollowsIs(a: Moment, b: Moment, hypot: (real, real) -> real, watching: bool, rng: Rng, roofed: bool, rounds: nat,
                  scanEvery: nat, dt: nat, k: nat)
    requires |a.scene.h| == |a.scene.p| == NN
    requires Turned(hypot, watching, rng, Unsettled(a, roofed), rounds, a.scene, a.k, dt, b.scene, k) && b.t == a.t + dt
    requires if b.t >= a.nextScan then b.nextScan == a.nextScan + DAY * scanEvery && b.rain == rng.coin(k) && b.k == k + 1
             else b.nextScan == a.nextScan && b.rain == a.rain && b.k == k
    ensures FollowsIn(a, b, hypot, watching, rng, roofed, rounds, scanEvery, dt, k)
  {
    hide Turned, Unsettled;
  }

  lemma DrawsOnSlab(rng: Rng)
    requires InRange(rng)
    ensures OnSlab(rng.cell(0), rng.cell(1)) && OnSlab(rng.cell(2), rng.cell(3))
  {
  }

  lemma SlabIsLowest(w: World)
    requires w.Kept()
    ensures forall c :: 0 <= c < NN ==> w.h[c] >= BASE
  {
  }
}
