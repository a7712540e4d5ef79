// The detectors at run time (run.py): what one tick does to the detector scores,
// and what a whole run of ticks does, for any evolution of the world.

module DetectorWatch {
  import opened Options
  import opened Division
  import opened Mcfunction
  import opened Patterns
  import opened PatternPack
  import opened PatternCorrectness
  import opened DetectorPack

  /** The detector scores.  None is a holder without a score. */
  datatype Watch = Watch(
    armed: Option<int>,
    tick: Option<int>,
    loaded: Option<int>,
    any: Option<int>,
    first: Option<int>,
    hits: map<string, int>,
    gts: map<string, int>)

  /** `n` blocks stand on top of each other, the lowest at the window's corner. */
  predicate Stands(g: Grid, w: Window, n: int) {
    forall y :: w.y <= y < w.y + n ==> Pos(w.x, y, w.z) in g
  }

  /** What a detector looks for is there. */
  predicate Present(g: Grid, d: Detector) {
    match d.kind
    case ColumnStack(a, base, height) => exists w :: w in Columns(a, base) && Stands(g, w, height)
    case PatternScan(p, a, low, levels) => exists w :: w in Windows(a, p.size, ScanLevels(low, levels)) && Passes(g, p, w)
    case _ => false
  }

  // ----- one tick -------------------------------------------------------------

  function Fired(v: Watch, name: string, t: int): Watch {
    v.(hits := v.hits[name := 1],
       gts := v.gts[name := t],
       first := if v.any == Some(0) then Some(t) else v.first,
       any := Some(1))
  }

  predicate Clear(v: Watch, name: string) {
    name in v.hits && v.hits[name] == 0
  }

  predicate Hit(v: Watch, name: string) {
    name in v.hits && v.hits[name] == 1
  }

  /** The detector's own check runs: it has not fired and all it requires has. */
  predicate Ready(v: Watch, d: Detector) {
    Clear(v, d.name) && forall r :: r in d.needs ==> Hit(v, r)
  }

  function CheckOne(v: Watch, d: Detector, g: Grid, t: int): Watch {
    if Ready(v, d) && Present(g, d) then Fired(v, d.name, t) else v
  }

  /** The first `k` lines of the check function. */
  function CheckUpTo(v: Watch, dets: seq<Detector>, k: nat, g: Grid, t: int): Watch
    requires k <= |dets|
  {
    if k == 0 then v else CheckOne(CheckUpTo(v, dets, k - 1, g, t), dets[k - 1], g, t)
  }

  function Ticked(v: Watch, every: int): Watch {
    if every > 1 then v.(tick := Some((if v.tick.Some? then v.tick.value else 0) + 1)) else v
  }

  /** The counter lets this tick through to the checks. */
  predicate Due(v: Watch, every: int) {
    every > 1 ==> Ticked(v, every).tick.value >= every
  }

  function TickStep(v: Watch, dets: seq<Detector>, every: int, g: Grid, t: int): Watch {
    var counted := Ticked(v, every);
    if v.armed == Some(1) && Due(v, every)
    then CheckUpTo(if every > 1 then counted.(tick := Some(0)) else counted, dets, |dets|, g, t)
    else counted
  }

  /** The load function: it only gives `#armed` a value when it has none. */
  function Load(v: Watch, dets: seq<Detector>): Watch {
    Watch(if v.armed.Some? && v.armed.value >= MIN_INT then v.armed else Some(0),
          Some(0), Some(1), Some(0), Some(-1),
          ResetTo(v.hits, dets, 0), ResetTo(v.gts, dets, -1))
  }

  function ResetTo(m: map<string, int>, dets: seq<Detector>, x: int): (r: map<string, int>)
    ensures forall n :: n in r <==> n in m || n in Names(dets)
    ensures forall n :: n in r ==> r[n] == if n in Names(dets) then x else m[n]
    decreases |dets|
  {
    if dets == [] then m
    else
      assert forall n :: n in Names(dets) <==> n == dets[0].name || n in Names(dets[1..]);
      ResetTo(m[dets[0].name := x], dets[1..], x)
  }

  // ----- a run of ticks -------------------------------------------------------

  /** The scores after `n` ticks that started at gametime `t`, the functions of
      tick `i` seeing the world `world(i)`. */
  function After(v: Watch, dets: seq<Detector>, every: int, world: nat -> Grid, t: int, n: nat): Watch {
    if n == 0 then v else TickStep(After(v, dets, every, world, t, n - 1), dets, every, world(n - 1), t + n - 1)
  }

  /** A session on a loaded world: the load function runs inside the first tick. */
  function Session(v: Watch, dets: seq<Detector>, every: int, world: nat -> Grid, t: int, n: nat): Watch {
    if n == 0 then v else After(Load(v, dets), dets, every, world, t, n)
  }

  /** No detector has fired, and the detectors are armed. */
  ghost predicate Fresh(v: Watch, dets: seq<Detector>) {
    && v.armed == Some(1) && v.any == Some(0) && v.first == Some(-1)
    && forall d :: d in dets ==> Clear(v, d.name) && d.name in v.gts && v.gts[d.name] == -1
  }

  lemma LoadIsFresh(v: Watch, dets: seq<Detector>)
    requires v.armed == Some(1)
    ensures Fresh(Load(v, dets), dets) && Load(v, dets).tick == Some(0)
  {
    assert forall d :: d in dets ==> d.name in Names(dets);
  }

  // ----- arming ---------------------------------------------------------------

  lemma {:induction false} ChecksKeep(v: Watch, dets: seq<Detector>, k: nat, g: Grid, t: int)
    requires k <= |dets|
    ensures
      var after := CheckUpTo(v, dets, k, g, t);
      after.armed == v.armed && after.tick == v.tick && after.loaded == v.loaded
  {
    if k > 0 {
      ChecksKeep(v, dets, k - 1, g, t);
    }
  }

  /** Ticks leave the arming alone, whatever it is. */
  lemma {:induction false} TicksKeepArmed(v: Watch, dets: seq<Detector>, every: int, world: nat -> Grid, t: int, n: nat)
    ensures After(v, dets, every, world, t, n).armed == v.armed
    ensures After(v, dets, every, world, t, n).loaded == v.loaded
  {
    if n > 0 {
      TicksKeepArmed(v, dets, every, world, t, n - 1);
      var before := After(v, dets, every, world, t, n - 1);
      var counted := Ticked(before, every);
      ChecksKeep(if every > 1 then counted.(tick := Some(0)) else counted, dets, |dets|, world(n - 1), t + n - 1);
    }
  }

  /** A world armed while frozen is armed at every tick of the session, the one
      whose load function is late included, and at its end. */
  lemma ResumedStaysArmed(v: Watch, dets: seq<Detector>, every: int, world: nat -> Grid, t: int, n: nat)
    requires v.armed == Some(1)
    ensures Session(v, dets, every, world, t, n).armed == Some(1)
  {
    if n > 0 {
      TicksKeepArmed(Load(v, dets), dets, every, world, t, n);
    }
  }

  /** Disarmed detectors are blind: nothing fires, whatever is there. */
  lemma {:induction false} DisarmedIsBlind(v: Watch, dets: seq<Detector>, every: int, world: nat -> Grid, t: int, n: nat)
    requires v.armed != Some(1)
    ensures
      var after := After(v, dets, every, world, t, n);
      after.hits == v.hits && after.gts == v.gts && after.any == v.any && after.first == v.first
  {
    if n > 0 {
      DisarmedIsBlind(v, dets, every, world, t, n - 1);
      TicksKeepArmed(v, dets, every, world, t, n - 1);
    }
  }

  // ----- when the checks run --------------------------------------------------

  function StartCount(v: Watch): int {
    if v.tick.Some? then v.tick.value else 0
  }

  /** The tick of the first check, counted from the start of the run. */
  function FirstCheck(count: int, every: int): nat {
    if every > 1 then Max(every - 1 - count, 0) else 0
  }

  /** Tick `i` of a run that starts with `#tick` at `count` reaches the checks. */
  predicate CheckTick(count: int, every: int, i: nat) {
    every <= 1 || (i >= FirstCheck(count, every) && (i - FirstCheck(count, every)) % every == 0)
  }

  /** `#tick` after `n` ticks. */
  function CountAfter(count: int, every: int, n: nat): int
    requires every > 1
  {
    var f := FirstCheck(count, every);
    if n <= f then count + n else (n - f - 1) % every
  }

  lemma CountStep(count: int, every: int, n: nat)
    requires every > 1
    ensures CheckTick(count, every, n) <==> CountAfter(count, every, n) + 1 >= every
    ensures CountAfter(count, every, n + 1) == if CheckTick(count, every, n) then 0 else CountAfter(count, every, n) + 1
  {
    var f := FirstCheck(count, every);
    if n > f {
      var a := n - f;
      ModStep(a - 1, every);
    } else if n == f {
      assert 0 % every == 0;
    }
  }

  /** The counter reaches the checks on exactly the `CheckTick`s, as long as the
      detectors are armed. */
  lemma {:induction false} ChecksRunOnTime(v: Watch, dets: seq<Detector>, every: int, world: nat -> Grid, t: int, n: nat)
    requires v.armed == Some(1)
    ensures Due(After(v, dets, every, world, t, n), every) <==> CheckTick(StartCount(v), every, n)
    ensures every > 1 ==> StartCount(After(v, dets, every, world, t, n)) == CountAfter(StartCount(v), every, n)
  {
    if every > 1 {
      if n > 0 {
        ChecksRunOnTime(v, dets, every, world, t, n - 1);
        TicksKeepArmed(v, dets, every, world, t, n - 1);
        CountStep(StartCount(v), every, n - 1);
        var before := After(v, dets, every, world, t, n - 1);
        ChecksKeep(Ticked(before, every).(tick := Some(0)), dets, |dets|, world(n - 1), t + n - 1);
      }
      CountStep(StartCount(v), every, n);
    }
  }

  /** Among `every` ticks in a row, one reaches the checks. */
  lemma SomeCheckTick(count: int, every: int, a: nat) returns (i: nat)
    requires count >= 0
    ensures a <= i < a + Max(every, 1) && CheckTick(count, every, i)
  {
    i := a;
    if every > 1 {
      var f := FirstCheck(count, every);
      if a <= f {
        i := f;
        assert 0 % every == 0;
      } else {
        var r := (a - f) % every;
        i := if r == 0 then a else a + every - r;
        if r != 0 {
          var q := (a - f) / every;
          assert a - f == q * every + r;
          assert i - f == (q + 1) * every + 0;
          DivMod(q + 1, 0, every);
        }
      }
    }
  }

  // ----- what fires, and when -------------------------------------------------

  /** Detector `p` had fired before detector `q`'s turn in the check of tick `i`. */
  predicate FiredBefore(v: Watch, dets: seq<Detector>, p: nat, q: nat, t: int, i: nat)
    requires p < |dets|
  {
    var name := dets[p].name;
    Hit(v, name) && name in v.gts && (v.gts[name] < t + i || (v.gts[name] == t + i && p < q))
  }

  /** At tick `i` the checks run, what detector `q` looks for is there, and all it
      requires has fired before its turn. */
  ghost predicate Eligible(v: Watch, dets: seq<Detector>, q: nat, count: int, every: int, world: nat -> Grid, t: int, i: nat)
    requires q < |dets|
  {
    && CheckTick(count, every, i)
    && Present(world(i), dets[q])
    && forall p :: 0 <= p < |dets| && dets[p].name in dets[q].needs ==> FiredBefore(v, dets, p, q, t, i)
  }

  /** Detector `q` has fired at the first tick of `n` at which it was eligible, or
      it has not fired and was never eligible. */
  ghost predicate Exact(v: Watch, dets: seq<Detector>, q: nat, count: int, every: int, world: nat -> Grid, t: int, n: nat)
    requires q < |dets|
  {
    var name := dets[q].name;
    && name in v.hits && name in v.gts
    && (v.hits[name] == 0 ==>
        v.gts[name] == -1 && forall i :: 0 <= i < n ==> !Eligible(v, dets, q, count, every, world, t, i))
    && (v.hits[name] != 0 ==>
        var i := v.gts[name] - t;
        v.hits[name] == 1 && 0 <= i < n && Eligible(v, dets, q, count, every, world, t, i)
        && forall j :: 0 <= j < i ==> !Eligible(v, dets, q, count, every, world, t, j))
  }

  /** The global hit records the first of them all. */
  ghost predicate FirstExact(v: Watch, dets: seq<Detector>) {
    && (v.any == Some(0) ==> v.first == Some(-1) && forall d :: d in dets ==> Clear(v, d.name))
    && (v.any != Some(0) ==>
        v.any == Some(1) && v.first.Some?
        && (exists d :: d in dets && Hit(v, d.name) && d.name in v.gts && v.gts[d.name] == v.first.value)
        && forall d :: d in dets && Hit(v, d.name) ==> d.name in v.gts && v.first.value <= v.gts[d.name])
  }

  /** A detector that fires at tick `n` changes no eligibility that came before. */
  lemma FiringKeepsEligible(v: Watch, dets: seq<Detector>, k: nat, q: nat, count: int, every: int, world: nat -> Grid, t: int,
                            n: nat, i: nat)
    requires k < |dets| && q < |dets| && DistinctNames(dets) && Clear(v, dets[k].name)
    requires i < n || (i == n && q <= k)
    ensures Eligible(Fired(v, dets[k].name, t + n), dets, q, count, every, world, t, i)
      <==> Eligible(v, dets, q, count, every, world, t, i)
  {
    var w := Fired(v, dets[k].name, t + n);
    hide Present, CheckTick;
    forall p | 0 <= p < |dets| ensures FiredBefore(w, dets, p, q, t, i) <==> FiredBefore(v, dets, p, q, t, i) {
      if p != k {
        assert dets[p].name != dets[k].name;
      }
    }
  }

  /** How many ticks detector `q` has seen when it is detector `k`'s turn. */
  function Seen(q: nat, k: nat, n: nat): nat {
    if q < k then n + 1 else n
  }

  /** The state inside the check of tick `n`, before detector `k`'s turn: the ones
      before it are up to date with tick `n`, the others with the ticks before. */
  ghost predicate Between(v: Watch, dets: seq<Detector>, k: nat, count: int, every: int, world: nat -> Grid, t: int, n: nat) {
    forall q :: 0 <= q < |dets| ==> Exact(v, dets, q, count, every, world, t, Seen(q, k, n))
  }

  lemma NeedsByIndex(v: Watch, dets: seq<Detector>, d: Detector)
    requires d in dets && NeedsKnown(d, dets)
    ensures (forall r :: r in d.needs ==> Hit(v, r)) <==>
      (forall p :: 0 <= p < |dets| && dets[p].name in d.needs ==> Hit(v, dets[p].name))
  {
    if forall p :: 0 <= p < |dets| && dets[p].name in d.needs ==> Hit(v, dets[p].name) {
      forall r | r in d.needs ensures Hit(v, r) {
        var e :| e in dets && e.name == r;
        var p :| 0 <= p < |dets| && dets[p] == e;
      }
    }
  }

  lemma TurnIsEligible(v: Watch, dets: seq<Detector>, k: nat, count: int, every: int, world: nat -> Grid, t: int, n: nat)
    requires Sound(dets) && k < |dets| && Between(v, dets, k, count, every, world, t, n) && CheckTick(count, every, n)
    requires Clear(v, dets[k].name)
    ensures Eligible(v, dets, k, count, every, world, t, n) <==> Ready(v, dets[k]) && Present(world(n), dets[k])
  {
    NeedsByIndex(v, dets, dets[k]);
    hide Present, CheckTick, Eligible;
    forall p | 0 <= p < |dets| ensures FiredBefore(v, dets, p, k, t, n) <==> Hit(v, dets[p].name) {
      assert Exact(v, dets, p, count, every, world, t, Seen(p, k, n));
    }
    EligibleMeans(v, dets, k, count, every, world, t, n);
  }

  lemma EligibleMeans(v: Watch, dets: seq<Detector>, q: nat, count: int, every: int, world: nat -> Grid, t: int, i: nat)
    requires q < |dets|
    ensures Eligible(v, dets, q, count, every, world, t, i) <==>
      (CheckTick(count, every, i) && Present(world(i), dets[q])
       && forall p :: 0 <= p < |dets| && dets[p].name in dets[q].needs ==> FiredBefore(v, dets, p, q, t, i))
  {
  }

  lemma TurnStep(v: Watch, dets: seq<Detector>, k: nat, count: int, every: int, world: nat -> Grid, t: int, n: nat)
    requires Sound(dets) && k < |dets| && Between(v, dets, k, count, every, world, t, n) && CheckTick(count, every, n)
    ensures Between(CheckOne(v, dets[k], world(n), t + n), dets, k + 1, count, every, world, t, n)
  {
    var name := dets[k].name;
    assert Exact(v, dets, k, count, every, world, t, Seen(k, k, n));
    var after := CheckOne(v, dets[k], world(n), t + n);
    if Clear(v, name) {
      TurnIsEligible(v, dets, k, count, every, world, t, n);
    }
    hide Present, CheckTick, Eligible;
    var next := k + 1;
    if after == v {
      forall q | 0 <= q < |dets| ensures Exact(after, dets, q, count, every, world, t, Seen(q, next, n)) {
        assert Exact(v, dets, q, count, every, world, t, Seen(q, k, n));
      }
    } else {
      assert after == Fired(v, name, t + n);
      forall q, i | 0 <= q < |dets| && (0 <= i < n || (i == n && q <= k))
        ensures Eligible(after, dets, q, count, every, world, t, i) <==> Eligible(v, dets, q, count, every, world, t, i)
      {
        FiringKeepsEligible(v, dets, k, q, count, every, world, t, n, i);
      }
      forall q | 0 <= q < |dets| ensures Exact(after, dets, q, count, every, world, t, Seen(q, next, n)) {
        assert Exact(v, dets, q, count, every, world, t, Seen(q, k, n));
        if q != k {
          assert dets[q].name != name;
        }
      }
    }
  }

  lemma {:induction false} CheckIsExact(v: Watch, dets: seq<Detector>, k: nat, count: int, every: int, world: nat -> Grid, t: int,
                                        n: nat)
    requires Sound(dets) && k <= |dets| && Between(v, dets, 0, count, every, world, t, n) && CheckTick(count, every, n)
    ensures Between(CheckUpTo(v, dets, k, world(n), t + n), dets, k, count, every, world, t, n)
  {
    if k > 0 {
      CheckIsExact(v, dets, k - 1, count, every, world, t, n);
      TurnStep(CheckUpTo(v, dets, k - 1, world(n), t + n), dets, k - 1, count, every, world, t, n);
    }
  }

  /** Hits and hit times never change once set, and the first hit stays first. */
  ghost predicate Latches(v: Watch, w: Watch, dets: seq<Detector>) {
    && (forall d :: d in dets && Hit(v, d.name) && d.name in v.gts ==>
        Hit(w, d.name) && d.name in w.gts && w.gts[d.name] == v.gts[d.name])
    && (v.any == Some(1) ==> w.any == Some(1) && w.first == v.first)
  }

  lemma {:induction false} ChecksLatch(v: Watch, dets: seq<Detector>, k: nat, g: Grid, t: int)
    requires k <= |dets|
    ensures Latches(v, CheckUpTo(v, dets, k, g, t), dets)
  {
    if k > 0 {
      ChecksLatch(v, dets, k - 1, g, t);
    }
  }

  /** Between two loads, a hit and its gametime stay what they are. */
  lemma {:induction false} HitsLatch(v: Watch, dets: seq<Detector>, every: int, world: nat -> Grid, t: int, a: nat, n: nat)
    requires a <= n
    ensures Latches(After(v, dets, every, world, t, a), After(v, dets, every, world, t, n), dets)
    decreases n
  {
    if a < n {
      HitsLatch(v, dets, every, world, t, a, n - 1);
      var counted := Ticked(After(v, dets, every, world, t, n - 1), every);
      ChecksLatch(if every > 1 then counted.(tick := Some(0)) else counted, dets, |dets|, world(n - 1), t + n - 1);
    }
  }

  /** Every hit so far is no later than `now`. */
  ghost predicate NoneAfter(v: Watch, dets: seq<Detector>, now: int) {
    forall d :: d in dets && Hit(v, d.name) ==> d.name in v.gts && v.gts[d.name] <= now
  }

  lemma FiringKeepsFirst(v: Watch, dets: seq<Detector>, k: nat, now: int)
    requires DistinctNames(dets) && k < |dets| && FirstExact(v, dets) && NoneAfter(v, dets, now) && Clear(v, dets[k].name)
    ensures FirstExact(Fired(v, dets[k].name, now), dets) && NoneAfter(Fired(v, dets[k].name, now), dets, now)
  {
    var w := Fired(v, dets[k].name, now);
    if v.any != Some(0) {
      var d :| d in dets && Hit(v, d.name) && d.name in v.gts && v.gts[d.name] == v.first.value;
      assert Hit(w, d.name) && w.gts[d.name] == w.first.value;
    } else {
      assert dets[k] in dets && Hit(w, dets[k].name);
    }
  }

  lemma {:induction false} ChecksKeepFirst(v: Watch, dets: seq<Detector>, k: nat, g: Grid, now: int)
    requires DistinctNames(dets) && k <= |dets| && FirstExact(v, dets) && NoneAfter(v, dets, now)
    ensures FirstExact(CheckUpTo(v, dets, k, g, now), dets) && NoneAfter(CheckUpTo(v, dets, k, g, now), dets, now)
  {
    if k > 0 {
      ChecksKeepFirst(v, dets, k - 1, g, now);
      if Ready(CheckUpTo(v, dets, k - 1, g, now), dets[k - 1]) {
        FiringKeepsFirst(CheckUpTo(v, dets, k - 1, g, now), dets, k - 1, now);
      }
    }
  }

  /** The scores of a run that starts fresh, exactly: each detector has fired at
      the first tick at which the checks ran, its predicate held and everything it
      requires had fired; if there was no such tick it has not fired. */
  lemma {:induction false} HitTimesExactly(v: Watch, dets: seq<Detector>, every: int, world: nat -> Grid, t: int, n: nat)
    requires Sound(dets) && Fresh(v, dets)
    ensures forall q :: 0 <= q < |dets| ==>
      Exact(After(v, dets, every, world, t, n), dets, q, StartCount(v), every, world, t, n)
  {
    hide Eligible, Load, Present, CheckTick;
    if n > 0 {
      var count, i := StartCount(v), n - 1;
      HitTimesExactly(v, dets, every, world, t, i);
      ChecksRunOnTime(v, dets, every, world, t, i);
      TicksKeepArmed(v, dets, every, world, t, i);
      var before := After(v, dets, every, world, t, i);
      var counted := Ticked(before, every);
      var start := if every > 1 then counted.(tick := Some(0)) else counted;
      assert start.hits == before.hits && start.gts == before.gts;
      SameHitsSameExact(before, start, dets, count, every, world, t, i);
      if CheckTick(count, every, i) {
        CheckIsExact(start, dets, |dets|, count, every, world, t, i);
        var after := CheckUpTo(start, dets, |dets|, world(i), t + i);
        assert after == After(v, dets, every, world, t, n);
        forall q | 0 <= q < |dets| ensures Exact(after, dets, q, count, every, world, t, n) {
          assert Exact(after, dets, q, count, every, world, t, Seen(q, |dets|, i));
        }
      } else {
        SameHitsSameExact(before, counted, dets, count, every, world, t, i);
        SkippedTick(counted, dets, count, every, world, t, i, n);
      }
    }
  }

  lemma SameHitsSameExact(v: Watch, w: Watch, dets: seq<Detector>, count: int, every: int, world: nat -> Grid, t: int, n: nat)
    requires v.hits == w.hits && v.gts == w.gts
    requires forall q :: 0 <= q < |dets| ==> Exact(v, dets, q, count, every, world, t, n)
    ensures Between(w, dets, 0, count, every, world, t, n)
    ensures forall q :: 0 <= q < |dets| ==> Exact(w, dets, q, count, every, world, t, n)
  {
    hide Present, CheckTick;
    forall q, i: nat | 0 <= q < |dets|
      ensures Eligible(w, dets, q, count, every, world, t, i) <==> Eligible(v, dets, q, count, every, world, t, i)
    {
      assert forall p :: 0 <= p < |dets| ==> (FiredBefore(w, dets, p, q, t, i) <==> FiredBefore(v, dets, p, q, t, i));
    }
    hide Eligible;
    forall q | 0 <= q < |dets| ensures Exact(w, dets, q, count, every, world, t, n) {
      assert Exact(v, dets, q, count, every, world, t, n);
    }
  }

  lemma SkippedTick(v: Watch, dets: seq<Detector>, count: int, every: int, world: nat -> Grid, t: int, n: nat, next: nat)
    requires next == n + 1 && !CheckTick(count, every, n)
    requires forall q :: 0 <= q < |dets| ==> Exact(v, dets, q, count, every, world, t, n)
    ensures forall q :: 0 <= q < |dets| ==> Exact(v, dets, q, count, every, world, t, next)
  {
    hide Present;
    forall q | 0 <= q < |dets| ensures Exact(v, dets, q, count, every, world, t, next) {
      assert Exact(v, dets, q, count, every, world, t, n);
      assert !Eligible(v, dets, q, count, every, world, t, n);
    }
  }

  /** `#hitgt` is the earliest of the detectors' own hit times. */
  lemma {:induction false} FirstHitExactly(v: Watch, dets: seq<Detector>, every: int, world: nat -> Grid, t: int, n: nat)
    requires Sound(dets) && Fresh(v, dets)
    ensures FirstExact(After(v, dets, every, world, t, n), dets)
    ensures NoneAfter(After(v, dets, every, world, t, n), dets, t + n)
  {
    if n == 0 {
      FreshIsExact(v, dets, t);
    } else {
      hide *;
      FirstHitExactly(v, dets, every, world, t, n - 1);
      SoundNames(dets);
      StepKeepsFirst(After(v, dets, every, world, t, n - 1), dets, every, world(n - 1), t + n - 1);
      AfterStep(v, dets, every, world, t, n);
    }
  }

  lemma AfterStep(v: Watch, dets: seq<Detector>, every: int, world: nat -> Grid, t: int, n: nat)
    requires n > 0
    ensures After(v, dets, every, world, t, n) == TickStep(After(v, dets, every, world, t, n - 1), dets, every, world(n - 1), t + n - 1)
  {
  }

  lemma StepKeepsFirst(v: Watch, dets: seq<Detector>, every: int, g: Grid, now: int)
    requires DistinctNames(dets) && FirstExact(v, dets) && NoneAfter(v, dets, now)
    ensures FirstExact(TickStep(v, dets, every, g, now), dets) && NoneAfter(TickStep(v, dets, every, g, now), dets, now + 1)
  {
    hide FirstExact, NoneAfter, Present, CheckUpTo, DistinctNames;
    var counted := Ticked(v, every);
    var start := if every > 1 then counted.(tick := Some(0)) else counted;
    SameFirst(v, start, dets, now, now);
    SameFirst(v, counted, dets, now, now + 1);
    ChecksKeepFirst(start, dets, |dets|, g, now);
    var checked := CheckUpTo(start, dets, |dets|, g, now);
    SameFirst(checked, checked, dets, now, now + 1);
  }

  lemma FreshIsExact(v: Watch, dets: seq<Detector>, now: int)
    requires Fresh(v, dets)
    ensures FirstExact(v, dets) && NoneAfter(v, dets, now)
  {
  }

  lemma SoundNames(dets: seq<Detector>)
    requires Sound(dets)
    ensures DistinctNames(dets)
  {
  }

  /** Arming and counting do not touch the hits. */
  lemma SameFirst(v: Watch, w: Watch, dets: seq<Detector>, now: int, later: int)
    requires FirstExact(v, dets) && NoneAfter(v, dets, now) && now <= later
    requires v.hits == w.hits && v.gts == w.gts && v.any == w.any && v.first == w.first
    ensures FirstExact(w, dets) && NoneAfter(w, dets, later)
  {
  }

  /** No detector's hit is earlier than the hit of one it requires. */
  lemma RequiredFiresFirst(v: Watch, dets: seq<Detector>, every: int, world: nat -> Grid, t: int, n: nat, q: nat, p: nat)
    requires Sound(dets) && Fresh(v, dets) && p < |dets| && q < |dets| && dets[p].name in dets[q].needs
    requires Hit(After(v, dets, every, world, t, n), dets[q].name)
    ensures
      var after := After(v, dets, every, world, t, n);
      && dets[p].name in after.gts && dets[q].name in after.gts
      && Hit(after, dets[p].name) && after.gts[dets[p].name] <= after.gts[dets[q].name]
  {
    HitTimesExactly(v, dets, every, world, t, n);
    var after := After(v, dets, every, world, t, n);
    hide Present, CheckTick, After;
    assert Exact(after, dets, q, StartCount(v), every, world, t, n);
    assert FiredBefore(after, dets, p, q, t, after.gts[dets[q].name] - t);
  }

  /** A predicate that holds at `every` armed ticks in a row, with everything the
      detector requires fired before them, is latched during them. */
  lemma HeldIsLatched(v: Watch, dets: seq<Detector>, every: int, world: nat -> Grid, t: int, q: nat, a: nat, n: nat)
    requires Sound(dets) && Fresh(v, dets) && StartCount(v) >= 0 && q < |dets|
    requires a + Max(every, 1) <= n
    requires forall i :: a <= i < a + Max(every, 1) ==> Present(world(i), dets[q])
    requires forall r :: r in dets[q].needs ==> Hit(After(v, dets, every, world, t, a), r)
    ensures
      var after := After(v, dets, every, world, t, n);
      Hit(after, dets[q].name) && dets[q].name in after.gts && after.gts[dets[q].name] < t + a + Max(every, 1)
  {
    var count := StartCount(v);
    var i := SomeCheckTick(count, every, a);
    HitTimesExactly(v, dets, every, world, t, a);
    HitTimesExactly(v, dets, every, world, t, n);
    HitsLatch(v, dets, every, world, t, a, n);
    var early, after := After(v, dets, every, world, t, a), After(v, dets, every, world, t, n);
    hide Present, CheckTick, After;
    forall p | 0 <= p < |dets| && dets[p].name in dets[q].needs ensures FiredBefore(after, dets, p, q, t, i) {
      assert Exact(early, dets, p, count, every, world, t, a);
      assert dets[p] in dets && Hit(early, dets[p].name);
    }
    assert Eligible(after, dets, q, count, every, world, t, i);
    assert Exact(after, dets, q, count, every, world, t, n);
  }

  // ----- sessions -------------------------------------------------------------

  /** Detection over a resumed session, whose load function runs late. */
  lemma ResumedWatches(v: Watch, dets: seq<Detector>, every: int, world: nat -> Grid, t: int, q: nat, a: nat, n: nat)
    requires Sound(dets) && v.armed == Some(1) && q < |dets| && a > 0 && a + Max(every, 1) <= n
    requires forall i :: a <= i < a + Max(every, 1) ==> Present(world(i), dets[q])
    requires forall r :: r in dets[q].needs ==> Hit(Session(v, dets, every, world, t, a), r)
    ensures Hit(Session(v, dets, every, world, t, n), dets[q].name)
  {
    LoadIsFresh(v, dets);
    HeldIsLatched(Load(v, dets), dets, every, world, t, q, a, n);
  }

  /** A new world's ticks before arming run no check: its load function disarms it. */
  lemma NewWorldIsSilent(v: Watch, dets: seq<Detector>, every: int, world: nat -> Grid, t: int, n: nat)
    requires v.armed.None? && n > 0
    ensures
      var after := Session(v, dets, every, world, t, n);
      after.armed == Some(0) && after.any == Some(0) && forall d :: d in dets ==> Clear(after, d.name)
  {
    var loaded := Load(v, dets);
    assert forall d :: d in dets ==> d.name in Names(dets);
    DisarmedIsBlind(loaded, dets, every, world, t, n);
    TicksKeepArmed(loaded, dets, every, world, t, n);
  }

  /** The load function as it was before it spared `#armed`. */
  function LoadDisarming(v: Watch, dets: seq<Detector>): Watch {
    Load(v, dets).(armed := Some(0))
  }

  /** With that load function a resumed session watched nothing: whatever the
      world held, and however long, no detector fired and the session ended
      disarmed. */
  lemma DisarmingLoadWatchesNothing(v: Watch, dets: seq<Detector>, every: int, world: nat -> Grid, t: int, n: nat)
    ensures
      var after := After(LoadDisarming(v, dets), dets, every, world, t, n);
      after.armed == Some(0) && after.any == Some(0) && forall d :: d in dets ==> Clear(after, d.name)
  {
    var loaded := LoadDisarming(v, dets);
    assert forall d :: d in dets ==> d.name in Names(dets);
    DisarmedIsBlind(loaded, dets, every, world, t, n);
    TicksKeepArmed(loaded, dets, every, world, t, n);
  }

  /** The late load function also forgets the parent's hits: in a resumed session
      a detector fires only if everything it requires is there again. */
  lemma CauseMustRecur(v: Watch, dets: seq<Detector>, every: int, world: nat -> Grid, t: int, n: nat, q: nat, p: nat)
    requires Sound(dets) && v.armed == Some(1) && n > 0
    requires p < |dets| && q < |dets| && dets[p].name in dets[q].needs
    requires forall i :: 0 <= i < n ==> !Present(world(i), dets[p])
    ensures Clear(Session(v, dets, every, world, t, n), dets[q].name)
  {
    LoadIsFresh(v, dets);
    var start := Load(v, dets);
    HitTimesExactly(start, dets, every, world, t, n);
    var after := After(start, dets, every, world, t, n);
    assert Exact(after, dets, q, StartCount(start), every, world, t, n);
    assert Exact(after, dets, p, StartCount(start), every, world, t, n);
    if !Clear(after, dets[q].name) {
      RequiredFiresFirst(start, dets, every, world, t, n, q, p);
    }
  }
}
