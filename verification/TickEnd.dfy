// The tick-end scheduler (MinecraftServerMixin.java): chunk work is polled before
// the command queue, and the end of a tick drains every queue to a fixpoint.
// Commands arrive from outside at arbitrary moments.

module TickEnd {
  import opened Sequences

  // ----- tasks and their effects ----------------------------------------------

  datatype Target = OnLevel(i: nat) | OnMain

  datatype Spawn<T> = Spawn(target: Target, task: T)

  /** What running a task does to the world, and what it enqueues, in order. */
  datatype Effect<W, T> = Effect(world: W, spawns: seq<Spawn<T>>)

  /** How tasks behave, how a level orders its queue, and a bound on what a task
      can still cause.  The world and the tasks are opaque to the scheduler. */
  datatype Program<!W, !T> = Program(
    exec: (W, T) -> Effect<W, T>,
    insert: (seq<T>, T) -> seq<T>,
    size: T -> nat
  )

  /** The server between two polls. */
  datatype State<W, T> = State(world: W, levels: seq<seq<T>>, main: seq<T>, ran: seq<T>)

  predicate SpawnsChunkWork<W, T>(p: Program<W, T>, w: W, t: T) {
    forall k :: 0 <= k < |p.exec(w, t).spawns| ==> p.exec(w, t).spawns[k].target.OnLevel?
  }

  /** Running a task enqueues chunk work only. */
  ghost predicate ChunkOnly<W(!new), T(!new)>(p: Program<W, T>) {
    forall w: W, t: T :: SpawnsChunkWork(p, w, t)
  }

  /** Every task has a finite successor tree, whatever the world, and inserting
      into a level queue neither drops nor invents tasks. */
  ghost predicate FiniteTrees<W(!new), T(!new)>(p: Program<W, T>) {
    && (forall w: W, t: T :: SpawnSize(p, p.exec(w, t).spawns) < p.size(t))
    && (forall q: seq<T>, t: T :: multiset(p.insert(q, t)) == multiset(q) + multiset{t})
  }

  function SpawnSize<W, T>(p: Program<W, T>, spawns: seq<Spawn<T>>): nat {
    if spawns == [] then 0 else p.size(spawns[0].task) + SpawnSize(p, spawns[1..])
  }

  // ----- steps ----------------------------------------------------------------

  function Enqueue<W, T>(p: Program<W, T>, s: State<W, T>, spawns: seq<Spawn<T>>): (r: State<W, T>)
    ensures |r.levels| == |s.levels|
    decreases |spawns|
  {
    if spawns == [] then s else
      var t := spawns[0].task;
      var s' := match spawns[0].target
        case OnMain => s.(main := s.main + [t])
        case OnLevel(i) => if i < |s.levels| then s.(levels := s.levels[i := p.insert(s.levels[i], t)]) else s;
      Enqueue(p, s', spawns[1..])
  }

  function RunTask<W, T>(p: Program<W, T>, s: State<W, T>, t: T): (r: State<W, T>)
    ensures |r.levels| == |s.levels|
  {
    var e := p.exec(s.world, t);
    Enqueue(p, s.(world := e.world, ran := s.ran + [t]), e.spawns)
  }

  /** One level's `pollTask`. */
  function PollLevel<W, T>(p: Program<W, T>, s: State<W, T>, i: nat): (r: State<W, T>)
    requires i < |s.levels|
    ensures |r.levels| == |s.levels|
  {
    if s.levels[i] == [] then s
    else RunTask(p, s.(levels := s.levels[i := s.levels[i][1..]]), s.levels[i][0])
  }

  /** The first level at or after `i` that has chunk work. */
  function Busy<T>(levels: seq<seq<T>>, i: nat): (k: nat)
    requires i <= |levels|
    ensures i <= k <= |levels|
    ensures forall j :: i <= j < k ==> levels[j] == []
    ensures k < |levels| ==> levels[k] != []
    decreases |levels| - i
  {
    if i == |levels| || levels[i] != [] then i else Busy(levels, i + 1)
  }

  predicate Idle<W, T>(s: State<W, T>) {
    Busy(s.levels, 0) == |s.levels| && s.main == []
  }

  /** `pollTask` with chunk work before commands, or vanilla's order. */
  function Poll<W, T>(p: Program<W, T>, commandFirst: bool, s: State<W, T>): (r: State<W, T>)
    ensures |r.levels| == |s.levels|
  {
    var k := Busy(s.levels, 0);
    if k < |s.levels| && (!commandFirst || s.main == []) then PollLevel(p, s, k)
    else if s.main != [] then RunTask(p, s.(main := s.main[1..]), s.main[0])
    else s
  }

  /** Commands `x` have arrived and wait at the end of the main queue. */
  function Arrived<W, T>(s: State<W, T>, x: seq<T>): State<W, T> {
    s.(main := s.main + x)
  }

  // ----- arrivals commute with polls ------------------------------------------

  lemma {:induction false} EnqueueArrived<W, T>(p: Program<W, T>, s: State<W, T>, spawns: seq<Spawn<T>>, x: seq<T>)
    requires forall a :: a in spawns ==> a.target.OnLevel?
    ensures Enqueue(p, Arrived(s, x), spawns) == Arrived(Enqueue(p, s, spawns), x)
    ensures Enqueue(p, s, spawns).main == s.main
    decreases |spawns|
  {
    if spawns != [] {
      var i, t := spawns[0].target.i, spawns[0].task;
      var s' := if i < |s.levels| then s.(levels := s.levels[i := p.insert(s.levels[i], t)]) else s;
      EnqueueArrived(p, s', spawns[1..], x);
    }
  }

  lemma RunTaskArrived<W(!new), T(!new)>(p: Program<W, T>, s: State<W, T>, t: T, x: seq<T>)
    requires ChunkOnly(p)
    ensures RunTask(p, Arrived(s, x), t) == Arrived(RunTask(p, s, t), x)
    ensures RunTask(p, s, t).main == s.main
  {
    var e := p.exec(s.world, t);
    assert SpawnsChunkWork(p, s.world, t);
    EnqueueArrived(p, s.(world := e.world, ran := s.ran + [t]), e.spawns, x);
  }

  lemma PollLevelArrived<W(!new), T(!new)>(p: Program<W, T>, s: State<W, T>, i: nat, x: seq<T>)
    requires ChunkOnly(p) && i < |s.levels|
    ensures PollLevel(p, Arrived(s, x), i) == Arrived(PollLevel(p, s, i), x)
    ensures PollLevel(p, s, i).main == s.main
  {
    if s.levels[i] != [] {
      RunTaskArrived(p, s.(levels := s.levels[i := s.levels[i][1..]]), s.levels[i][0], x);
    }
  }

  /** A poll that has something to do does the same thing whether further commands
      are already waiting or not. */
  lemma PollArrived<W(!new), T(!new)>(p: Program<W, T>, s: State<W, T>, x: seq<T>)
    requires ChunkOnly(p) && !Idle(s)
    ensures !Idle(Arrived(s, x))
    ensures Poll(p, false, Arrived(s, x)) == Arrived(Poll(p, false, s), x)
  {
    var k := Busy(s.levels, 0);
    if k < |s.levels| {
      PollLevelArrived(p, s, k, x);
    } else {
      assert (s.main + x)[1..] == s.main[1..] + x;
      RunTaskArrived(p, s.(main := s.main[1..]), s.main[0], x);
    }
  }

  // ----- any schedule of arrivals ---------------------------------------------

  datatype Move<T> = Arrive(command: T) | DoPoll

  function RunMoves<W, T>(p: Program<W, T>, commandFirst: bool, s: State<W, T>, moves: seq<Move<T>>): State<W, T>
    decreases |moves|
  {
    if moves == [] then s
    else match moves[0]
      case Arrive(c) => RunMoves(p, commandFirst, Arrived(s, [c]), moves[1..])
      case DoPoll => RunMoves(p, commandFirst, Poll(p, commandFirst, s), moves[1..])
  }

  function Commands<T>(moves: seq<Move<T>>): seq<T> {
    if moves == [] then []
    else (if moves[0].Arrive? then [moves[0].command] else []) + Commands(moves[1..])
  }

  function Polls<W, T>(p: Program<W, T>, s: State<W, T>, n: nat): State<W, T>
    decreases n
  {
    if n == 0 then s else Polls(p, Poll(p, false, s), n - 1)
  }

  lemma ArrivedTwice<W, T>(s: State<W, T>, x: seq<T>, y: seq<T>)
    ensures Arrived(Arrived(s, x), y) == Arrived(s, x + y)
    ensures Arrived(s, []) == s
  {
    assert (s.main + x) + y == s.main + (x + y);
    assert s.main + [] == s.main;
  }

  /** Any interleaving of arrivals and polls is a number of polls made after every
      command has arrived. */
  lemma {:induction false} ArrivalsMoveFirst<W(!new), T(!new)>(p: Program<W, T>, s: State<W, T>, moves: seq<Move<T>>)
    returns (n: nat)
    requires ChunkOnly(p)
    ensures RunMoves(p, false, s, moves) == Polls(p, Arrived(s, Commands(moves)), n)
    decreases |moves|
  {
    if moves == [] {
      ArrivedTwice(s, [], []);
      n := 0;
    } else {
      var rest := Commands(moves[1..]);
      match moves[0]
      case Arrive(c) =>
        n := ArrivalsMoveFirst(p, Arrived(s, [c]), moves[1..]);
        ArrivedTwice(s, [c], rest);
      case DoPoll =>
        n := ArrivalsMoveFirst(p, Poll(p, false, s), moves[1..]);
        assert [] + rest == rest;
        if !Idle(s) {
          PollArrived(p, s, rest);
          n := n + 1;
        }
    }
  }

  lemma {:induction false} IdleStays<W, T>(p: Program<W, T>, s: State<W, T>, n: nat)
    requires Idle(s)
    ensures Polls(p, s, n) == s
    decreases n
  {
    if n > 0 {
      IdleStays(p, s, n - 1);
    }
  }

  lemma {:induction false} PollsMeet<W, T>(p: Program<W, T>, s: State<W, T>, m: nat, n: nat)
    requires Idle(Polls(p, s, m)) && Idle(Polls(p, s, n))
    ensures Polls(p, s, m) == Polls(p, s, n)
    decreases m
  {
    if m == 0 {
      IdleStays(p, s, n);
    } else if n == 0 {
      IdleStays(p, s, m);
    } else {
      PollsMeet(p, Poll(p, false, s), m - 1, n - 1);
    }
  }

  /** Command-arrival independence: the same commands in the same order, arriving
      at any moments of two runs that both end with nothing left to do, leave the
      same world after the same tasks in the same order. */
  lemma ArrivalTimesDoNotMatter<W(!new), T(!new)>(p: Program<W, T>, s: State<W, T>, a: seq<Move<T>>, b: seq<Move<T>>)
    requires ChunkOnly(p) && Commands(a) == Commands(b)
    requires Idle(RunMoves(p, false, s, a)) && Idle(RunMoves(p, false, s, b))
    ensures RunMoves(p, false, s, a) == RunMoves(p, false, s, b)
  {
    var m := ArrivalsMoveFirst(p, s, a);
    var n := ArrivalsMoveFirst(p, s, b);
    PollsMeet(p, Arrived(s, Commands(a)), m, n);
  }

  // ----- termination ----------------------------------------------------------

  function QueueSize<W, T>(p: Program<W, T>, q: seq<T>): nat {
    if q == [] then 0 else p.size(q[0]) + QueueSize(p, q[1..])
  }

  function LevelsSize<W, T>(p: Program<W, T>, levels: seq<seq<T>>): nat {
    if levels == [] then 0 else QueueSize(p, levels[0]) + LevelsSize(p, levels[1..])
  }

  /** The tree size of everything that is queued. */
  function Total<W, T>(p: Program<W, T>, s: State<W, T>): nat {
    LevelsSize(p, s.levels) + QueueSize(p, s.main)
  }

  lemma {:induction false} QueueSizeConcat<W, T>(p: Program<W, T>, a: seq<T>, b: seq<T>)
    ensures QueueSize(p, a + b) == QueueSize(p, a) + QueueSize(p, b)
  {
    if a == [] {
      assert a + b == b;
    } else {
      assert (a + b)[1..] == a[1..] + b;
      QueueSizeConcat(p, a[1..], b);
    }
  }

  lemma RestPermuted<T>(a: seq<T>, b: seq<T>, i: nat)
    requires multiset(a) == multiset(b) && a != [] && i < |b| && b[i] == a[0]
    ensures multiset(a[1..]) == multiset(b[..i] + b[i + 1..])
  {
    assert a == [a[0]] + a[1..];
    assert b == b[..i] + ([b[i]] + b[i + 1..]);
    assert multiset(a[1..]) == multiset(a) - multiset{a[0]};
    assert multiset(b[..i] + b[i + 1..]) == multiset(b) - multiset{b[i]};
  }

  lemma {:induction false} QueueSizePermuted<W, T>(p: Program<W, T>, a: seq<T>, b: seq<T>)
    requires multiset(a) == multiset(b)
    ensures QueueSize(p, a) == QueueSize(p, b)
    decreases |a|
  {
    assert |a| == |multiset(a)| == |multiset(b)| == |b|;
    if a != [] {
      assert a[0] in multiset(b);
      var i :| 0 <= i < |b| && b[i] == a[0];
      var c := b[..i] + b[i + 1..];
      RestPermuted(a, b, i);
      assert b == b[..i] + ([b[i]] + b[i + 1..]);
      QueueSizePermuted(p, a[1..], c);
      QueueSizeConcat(p, b[..i], b[i + 1..]);
      QueueSizeConcat(p, b[..i], [b[i]] + b[i + 1..]);
    }
  }

  lemma {:induction false} LevelsSizeUpdate<W, T>(p: Program<W, T>, levels: seq<seq<T>>, i: nat, q: seq<T>)
    requires i < |levels|
    ensures LevelsSize(p, levels[i := q]) + QueueSize(p, levels[i]) == LevelsSize(p, levels) + QueueSize(p, q)
  {
    if i == 0 {
      assert levels[0 := q][1..] == levels[1..];
    } else {
      assert levels[i := q][1..] == levels[1..][i - 1 := q];
      LevelsSizeUpdate(p, levels[1..], i - 1, q);
    }
  }

  lemma InsertSize<W(!new), T(!new)>(p: Program<W, T>, q: seq<T>, t: T)
    requires FiniteTrees(p)
    ensures QueueSize(p, p.insert(q, t)) == QueueSize(p, q) + p.size(t)
  {
    assert multiset(p.insert(q, t)) == multiset(q + [t]);
    QueueSizePermuted(p, p.insert(q, t), q + [t]);
    QueueSizeConcat(p, q, [t]);
  }

  lemma {:induction false} EnqueueSize<W(!new), T(!new)>(p: Program<W, T>, s: State<W, T>, spawns: seq<Spawn<T>>)
    requires FiniteTrees(p)
    ensures Total(p, Enqueue(p, s, spawns)) <= Total(p, s) + SpawnSize(p, spawns)
    decreases |spawns|
  {
    if spawns != [] {
      var t := spawns[0].task;
      match spawns[0].target
      case OnMain =>
        QueueSizeConcat(p, s.main, [t]);
        EnqueueSize(p, s.(main := s.main + [t]), spawns[1..]);
      case OnLevel(i) =>
        if i < |s.levels| {
          InsertSize(p, s.levels[i], t);
          LevelsSizeUpdate(p, s.levels, i, p.insert(s.levels[i], t));
          EnqueueSize(p, s.(levels := s.levels[i := p.insert(s.levels[i], t)]), spawns[1..]);
        } else {
          EnqueueSize(p, s, spawns[1..]);
        }
    }
  }

  lemma RunTaskSize<W(!new), T(!new)>(p: Program<W, T>, s: State<W, T>, t: T)
    requires FiniteTrees(p)
    ensures Total(p, RunTask(p, s, t)) < Total(p, s) + p.size(t)
  {
    var e := p.exec(s.world, t);
    EnqueueSize(p, s.(world := e.world, ran := s.ran + [t]), e.spawns);
  }

  lemma PollLevelSize<W(!new), T(!new)>(p: Program<W, T>, s: State<W, T>, i: nat)
    requires FiniteTrees(p) && i < |s.levels| && s.levels[i] != []
    ensures Total(p, PollLevel(p, s, i)) < Total(p, s)
  {
    LevelsSizeUpdate(p, s.levels, i, s.levels[i][1..]);
    RunTaskSize(p, s.(levels := s.levels[i := s.levels[i][1..]]), s.levels[i][0]);
  }

  /** Every poll that runs something shrinks what is queued. */
  lemma PollSize<W(!new), T(!new)>(p: Program<W, T>, s: State<W, T>)
    requires FiniteTrees(p) && !Idle(s)
    ensures Total(p, Poll(p, false, s)) < Total(p, s)
  {
    var k := Busy(s.levels, 0);
    if k < |s.levels| {
      PollLevelSize(p, s, k);
    } else {
      RunTaskSize(p, s.(main := s.main[1..]), s.main[0]);
    }
  }

  /** Poll until nothing is left. */
  ghost function Serve<W(!new), T(!new)>(p: Program<W, T>, s: State<W, T>): State<W, T>
    requires FiniteTrees(p)
    decreases Total(p, s)
  {
    if Idle(s) then s else
      PollSize(p, s);
      Serve(p, Poll(p, false, s))
  }

  lemma {:induction false} ServeIsPolls<W(!new), T(!new)>(p: Program<W, T>, s: State<W, T>) returns (n: nat)
    requires FiniteTrees(p)
    ensures Serve(p, s) == Polls(p, s, n) && Idle(Polls(p, s, n))
    decreases Total(p, s)
  {
    if Idle(s) {
      n := 0;
    } else {
      PollSize(p, s);
      n := ServeIsPolls(p, Poll(p, false, s));
      n := n + 1;
    }
  }

  /** Serving, then taking late commands, is serving with the commands in hand. */
  lemma {:induction false} ServeArrived<W(!new), T(!new)>(p: Program<W, T>, s: State<W, T>, x: seq<T>)
    requires FiniteTrees(p) && ChunkOnly(p)
    ensures Serve(p, Arrived(Serve(p, s), x)) == Serve(p, Arrived(s, x))
    decreases Total(p, s)
  {
    if !Idle(s) {
      PollSize(p, s);
      ServeArrived(p, Poll(p, false, s), x);
      PollArrived(p, s, x);
    }
  }

  // ----- when arrival times matter --------------------------------------------

  /** On no server, that is, with at least one level, do arrival times matter. */
  ghost predicate ArrivalIndependent<W(!new), T(!new)>(p: Program<W, T>, commandFirst: bool) {
    forall s: State<W, T>, a: seq<Move<T>>, b: seq<Move<T>> ::
      s.levels != [] && Commands(a) == Commands(b) && Idle(RunMoves(p, commandFirst, s, a)) && Idle(RunMoves(p, commandFirst, s, b)) ==>
        RunMoves(p, commandFirst, s, a) == RunMoves(p, commandFirst, s, b)
  }

  lemma ChunkWorkFirstIsIndependent<W(!new), T(!new)>(p: Program<W, T>)
    requires ChunkOnly(p)
    ensures ArrivalIndependent(p, false)
  {
    forall s: State<W, T>, a: seq<Move<T>>, b: seq<Move<T>> |
      s.levels != [] && Commands(a) == Commands(b) && Idle(RunMoves(p, false, s, a)) && Idle(RunMoves(p, false, s, b))
      ensures RunMoves(p, false, s, a) == RunMoves(p, false, s, b)
    {
      ArrivalTimesDoNotMatter(p, s, a, b);
    }
  }

  /** Polling chunk work first is what makes arrival times irrelevant: with the
      command queue polled first, one chunk task and one command already show it. */
  lemma IndependentIffChunkWorkFirst(commandFirst: bool)
    ensures !commandFirst <==> forall p: Program<int, int> :: ChunkOnly(p) ==> ArrivalIndependent(p, commandFirst)
  {
    hide ArrivalIndependent;
    if !commandFirst {
      forall p: Program<int, int> | ChunkOnly(p) ensures ArrivalIndependent(p, false) {
        ChunkWorkFirstIsIndependent(p);
      }
    } else {
      var p := Program((w: int, t: int) => Effect(w, []), (q: seq<int>, t: int) => q + [t], (t: int) => 1);
      assert ChunkOnly(p);
      CommandOvertakes(p);
    }
  }

  lemma RunThree<W, T>(p: Program<W, T>, commandFirst: bool, s: State<W, T>, m: Move<T>, n: Move<T>, o: Move<T>)
    ensures RunMoves(p, commandFirst, s, [m, n, o]) ==
      RunMoves(p, commandFirst, RunMoves(p, commandFirst, RunMoves(p, commandFirst, s, [m]), [n]), [o])
    ensures Commands([m, n, o]) == Commands([m]) + Commands([n]) + Commands([o])
  {
    assert [m, n, o][1..] == [n, o] && [n, o][1..] == [o] && [o][1..] == [];
  }

  lemma QuietPolls(p: Program<int, int>, ran: seq<int>)
    requires forall w, t :: p.exec(w, t) == Effect(w, [])
    ensures Poll(p, true, State(0, [[1]], [], ran)) == State(0, [[]], [], ran + [1])
    ensures Poll(p, true, State(0, [[1]], [2], ran)) == State(0, [[1]], [], ran + [2])
    ensures Poll(p, true, State(0, [[]], [2], ran)) == State(0, [[]], [], ran + [2])
    ensures Idle(State(0, [[]], [], ran))
  {
    assert Busy<int>([[1]], 0) == 0 && Busy<int>([[]], 0) == 1;
    var levels: seq<seq<int>> := [[1]];
    assert levels[0][1..] == [];
    assert levels[0 := levels[0][1..]] == [[]];
    assert [2][1..] == [];
  }

  lemma RunOne(p: Program<int, int>, s: State<int, int>, c: int)
    ensures RunMoves(p, true, s, [Arrive(c)]) == Arrived(s, [c])
    ensures RunMoves(p, true, s, [DoPoll]) == Poll(p, true, s)
  {
    assert [Move<int>.DoPoll][1..] == [] && [Arrive(c)][1..] == [];
  }

  lemma CommandOvertakes(p: Program<int, int>)
    requires forall w, t :: p.exec(w, t) == Effect(w, [])
    ensures !ArrivalIndependent(p, true)
  {
    hide Poll, Idle;
    var s: State<int, int> := State(0, [[1]], [], []);
    var a: seq<Move<int>> := [Arrive(2), DoPoll, DoPoll];
    var b: seq<Move<int>> := [DoPoll, Arrive(2), DoPoll];
    QuietPolls(p, []);
    QuietPolls(p, [1]);
    QuietPolls(p, [2]);
    RunThree(p, true, s, Arrive(2), DoPoll, DoPoll);
    RunThree(p, true, s, DoPoll, Arrive(2), DoPoll);
    assert [] + [1] == [1] && [] + [2] == [2];
    RunOne(p, s, 2);
    RunOne(p, State(0, [[]], [], [1]), 2);
    RunOne(p, s.(main := [2]), 2);
    RunOne(p, State(0, [[]], [2], [1]), 2);
    RunOne(p, State(0, [[1]], [], [2]), 2);
    hide RunMoves;
    var x, y := State(0, [[]], [], [] + [2] + [1]), State(0, [[]], [], [] + [1] + [2]);
    assert RunMoves(p, true, s, a) == x && RunMoves(p, true, s, b) == y;
    assert x.ran[0] != y.ran[0];
    QuietPolls(p, x.ran);
    QuietPolls(p, y.ran);
  }

  // With chunk work first, what is left is that tasks may only enqueue chunk work.

  function PollMoves<T>(n: nat): seq<Move<T>> {
    if n == 0 then [] else [DoPoll] + PollMoves(n - 1)
  }

  lemma {:induction false} RunPollMoves<W, T>(p: Program<W, T>, s: State<W, T>, n: nat)
    ensures RunMoves(p, false, s, PollMoves(n)) == Polls(p, s, n)
    ensures Commands(PollMoves<T>(n)) == []
    decreases n
  {
    if n > 0 {
      assert PollMoves<T>(n)[1..] == PollMoves(n - 1);
      RunPollMoves(p, Poll(p, false, s), n - 1);
    }
  }

  lemma {:induction false} EnqueueKeepsRan<W, T>(p: Program<W, T>, s: State<W, T>, spawns: seq<Spawn<T>>)
    ensures Enqueue(p, s, spawns).ran == s.ran
    ensures s.main <= Enqueue(p, s, spawns).main
    decreases |spawns|
  {
    if spawns != [] {
      var t := spawns[0].task;
      var s' := match spawns[0].target
        case OnMain => s.(main := s.main + [t])
        case OnLevel(i) => if i < |s.levels| then s.(levels := s.levels[i := p.insert(s.levels[i], t)]) else s;
      EnqueueKeepsRan(p, s', spawns[1..]);
    }
  }

  function MainTasks<T>(spawns: seq<Spawn<T>>): seq<T> {
    if spawns == [] then []
    else (if spawns[0].target.OnMain? then [spawns[0].task] else []) + MainTasks(spawns[1..])
  }

  /** The state with more commands ahead of those in the main queue. */
  function Behind<W, T>(x: seq<T>, s: State<W, T>): State<W, T> {
    s.(main := x + s.main)
  }

  /** Enqueueing never reads the main queue. */
  lemma {:induction false} EnqueueBehind<W, T>(p: Program<W, T>, x: seq<T>, s: State<W, T>, spawns: seq<Spawn<T>>)
    ensures Enqueue(p, Behind(x, s), spawns) == Behind(x, Enqueue(p, s, spawns))
    decreases |spawns|
  {
    if spawns != [] {
      var t := spawns[0].task;
      match spawns[0].target
      case OnMain =>
        Associates(x, s.main, [t]);
        EnqueueBehind(p, x, s.(main := s.main + [t]), spawns[1..]);
      case OnLevel(i) =>
        EnqueueBehind(p, x, if i < |s.levels| then s.(levels := s.levels[i := p.insert(s.levels[i], t)]) else s, spawns[1..]);
    }
  }

  lemma {:induction false} EnqueueMain<W, T>(p: Program<W, T>, s: State<W, T>, spawns: seq<Spawn<T>>)
    ensures Enqueue(p, s, spawns).main == s.main + MainTasks(spawns)
    decreases |spawns|
  {
    if spawns != [] {
      var t := spawns[0].task;
      match spawns[0].target
      case OnMain =>
        Associates(s.main, [t], MainTasks(spawns[1..]));
        EnqueueMain(p, s.(main := s.main + [t]), spawns[1..]);
      case OnLevel(i) =>
        assert [] + MainTasks(spawns[1..]) == MainTasks(spawns[1..]);
        EnqueueMain(p, if i < |s.levels| then s.(levels := s.levels[i := p.insert(s.levels[i], t)]) else s, spawns[1..]);
    }
  }

  /** Neither does a poll that finds chunk work. */
  lemma ChunkPollBehind<W, T>(p: Program<W, T>, x: seq<T>, s: State<W, T>)
    requires Busy(s.levels, 0) < |s.levels|
    ensures Poll(p, false, Behind(x, s)) == Behind(x, Poll(p, false, s))
  {
    hide Enqueue;
    var k := Busy(s.levels, 0);
    var t := s.levels[k][0];
    var e := p.exec(s.world, t);
    EnqueueBehind(p, x, State(e.world, s.levels[k := s.levels[k][1..]], s.main, s.ran + [t]), e.spawns);
  }

  /** Poll until no level has chunk work. */
  ghost function ChunkWorkDone<W(!new), T(!new)>(p: Program<W, T>, s: State<W, T>): State<W, T>
    requires FiniteTrees(p)
    decreases Total(p, s)
  {
    if Busy(s.levels, 0) == |s.levels| then s else
      PollSize(p, s);
      ChunkWorkDone(p, Poll(p, false, s))
  }

  lemma {:induction false} MainTasksExist<T>(spawns: seq<Spawn<T>>, k: nat)
    requires k < |spawns| && spawns[k].target.OnMain?
    ensures MainTasks(spawns) != []
  {
    if k > 0 {
      MainTasksExist(spawns[1..], k - 1);
    }
  }

  /** Once the chunk work is done, whatever waited ahead in the main queue runs
      next: what ran is visible. */
  lemma {:induction false} RunsNextFromMain<W(!new), T(!new)>(p: Program<W, T>, x: seq<T>, s: State<W, T>, n: nat)
    requires FiniteTrees(p) && x != [] && Idle(Polls(p, Behind(x, s), n))
    ensures ChunkWorkDone(p, s).ran + [x[0]] <= Polls(p, Behind(x, s), n).ran
    decreases n
  {
    hide FiniteTrees, Enqueue;
    if Busy(s.levels, 0) < |s.levels| {
      ChunkPollBehind(p, x, s);
      RunsNextFromMain(p, x, Poll(p, false, s), n - 1);
    } else {
      var full := Behind(x, s);
      var e := p.exec(s.world, x[0]);
      EnqueueKeepsRan(p, State(e.world, s.levels, full.main[1..], s.ran + [x[0]]), e.spawns);
      PollsKeepRan(p, Poll(p, false, full), n - 1);
    }
  }

  lemma {:induction false} RunMovesConcat<W, T>(p: Program<W, T>, s: State<W, T>, a: seq<Move<T>>, b: seq<Move<T>>)
    ensures RunMoves(p, false, s, a + b) == RunMoves(p, false, RunMoves(p, false, s, a), b)
    decreases |a|
  {
    hide Poll, Arrived;
    if a == [] {
      assert a + b == b;
    } else {
      assert (a + b)[0] == a[0] && (a + b)[1..] == a[1..] + b;
      var s' := match a[0] case Arrive(c) => Arrived(s, [c]) case DoPoll => Poll(p, false, s);
      RunMovesConcat(p, s', a[1..], b);
    }
  }

  lemma {:induction false} CommandsConcat<T>(a: seq<Move<T>>, b: seq<Move<T>>)
    ensures Commands(a + b) == Commands(a) + Commands(b)
  {
    if a == [] {
      assert a + b == b;
    } else {
      assert (a + b)[0] == a[0] && (a + b)[1..] == a[1..] + b;
      CommandsConcat(a[1..], b);
      Associates(if a[0].Arrive? then [a[0].command] else [], Commands(a[1..]), Commands(b));
    }
  }

  lemma RunOneMove<W, T>(p: Program<W, T>, s: State<W, T>, c: T)
    ensures RunMoves(p, false, s, [Arrive(c)]) == Arrived(s, [c])
    ensures RunMoves(p, false, s, [DoPoll]) == Poll(p, false, s)
    ensures Commands([Arrive(c)]) == [c] && Commands([Move<T>.DoPoll]) == []
  {
    assert [Move<T>.DoPoll][1..] == [] && [Arrive(c)][1..] == [];
  }

  /** What `t` leaves behind on a server with one level, main queue aside. */
  function Ran<W, T>(p: Program<W, T>, w: W, t: T): State<W, T> {
    var e := p.exec(w, t);
    Enqueue(p, State(e.world, [[]], [], [t]), e.spawns).(main := [])
  }

  lemma PollMain<W, T>(p: Program<W, T>, w: W, t: T, x: seq<T>)
    ensures Poll(p, false, State(w, [[]], [t] + x, [])) == Behind(x + MainTasks(p.exec(w, t).spawns), Ran(p, w, t))
  {
    hide Enqueue, MainTasks;
    var e := p.exec(w, t);
    var none: seq<seq<T>> := [[]];
    assert Busy(none, 0) == 1;
    assert ([t] + x)[1..] == x && [] + [t] == [t] && x + [] == x;
    var bare := State(e.world, [[]], [], [t]);
    EnqueueBehind(p, x, bare, e.spawns);
    EnqueueMain(p, bare, e.spawns);
    assert [] + MainTasks(e.spawns) == MainTasks(e.spawns);
    Associates(x, MainTasks(e.spawns), []);
    assert x + MainTasks(e.spawns) + [] == x + MainTasks(e.spawns);
  }

  /** One command arrives before or after a poll of the main queue. */
  lemma ArriveBeforeOrAfter<W, T>(p: Program<W, T>, w: W, t: T, c: T)
    ensures
      var m := MainTasks(p.exec(w, t).spawns);
      var s: State<W, T> := State(w, [[]], [t], []);
      && RunMoves(p, false, s, [Arrive(c)] + [DoPoll]) == Behind([c] + m, Ran(p, w, t))
      && RunMoves(p, false, s, [DoPoll] + [Arrive(c)]) == Behind(m + [c], Ran(p, w, t))
      && Commands([Arrive(c)] + [Move<T>.DoPoll]) == [c] == Commands([Move<T>.DoPoll] + [Arrive(c)])
  {
    hide Poll, RunMoves, Commands, Ran;
    var m := MainTasks(p.exec(w, t).spawns);
    var s: State<W, T> := State(w, [[]], [t], []);
    assert [t] + [] == [t] && [] + m == m;
    assert [c] + [] == [c] == [] + [c];
    RunMovesConcat(p, s, [Arrive(c)], [DoPoll]);
    RunMovesConcat(p, s, [DoPoll], [Arrive(c)]);
    CommandsConcat([Arrive(c)], [Move<T>.DoPoll]);
    CommandsConcat([Move<T>.DoPoll], [Arrive(c)]);
    RunOneMove(p, s, c);
    RunOneMove(p, Arrived(s, [c]), c);
    RunOneMove(p, Poll(p, false, s), c);
    PollMain(p, w, t, [c]);
    PollMain(p, w, t, []);
    RanNothingElse(p, w, t);
    assert m + [] == m && [c] + m + [] == [c] + m && m + [c] + [] == m + [c];
  }

  lemma RanNothingElse<W, T>(p: Program<W, T>, w: W, t: T)
    ensures Ran(p, w, t).main == []
  {
  }

  /** The run goes on to serve everything; the first task from the main queue is `x[0]`. */
  lemma RunToIdle<W(!new), T(!new)>(p: Program<W, T>, s: State<W, T>, moves: seq<Move<T>>, x: seq<T>, r: State<W, T>)
    returns (all: seq<Move<T>>)
    requires FiniteTrees(p) && x != [] && RunMoves(p, false, s, moves) == Behind(x, r)
    ensures Commands(all) == Commands(moves)
    ensures Idle(RunMoves(p, false, s, all))
    ensures ChunkWorkDone(p, r).ran + [x[0]] <= RunMoves(p, false, s, all).ran
  {
    hide RunMoves, Poll, Idle, Commands, FiniteTrees;
    var n := ServeIsPolls(p, Behind(x, r));
    all := moves + PollMoves(n);
    RunMovesConcat(p, s, moves, PollMoves(n));
    CommandsConcat(moves, PollMoves(n));
    RunPollMoves(p, Behind(x, r), n);
    RunsNextFromMain(p, x, r, n);
    assert Commands(moves) + [] == Commands(moves);
  }

  lemma PrefixesDiffer<T>(ran: seq<T>, a: T, b: T, x: seq<T>, y: seq<T>)
    requires a != b && ran + [a] <= x && ran + [b] <= y
    ensures x != y
  {
    assert x[|ran|] == a && y[|ran|] == b;
  }

  /** A task that enqueues on the main queue lets a command overtake it or not. */
  lemma MainSpawnMakesTimesMatter<W(!new), T(!new)>(p: Program<W, T>, w: W, t: T, c: T)
    requires FiniteTrees(p) && MainTasks(p.exec(w, t).spawns) != [] && c != MainTasks(p.exec(w, t).spawns)[0]
    ensures !ArrivalIndependent(p, false)
  {
    var m := MainTasks(p.exec(w, t).spawns);
    var s: State<W, T> := State(w, [[]], [t], []);
    ArriveBeforeOrAfter(p, w, t, c);
    hide RunMoves, Commands, FiniteTrees, Idle, Ran, ChunkWorkDone;
    var a := RunToIdle(p, s, [Arrive(c)] + [DoPoll], [c] + m, Ran(p, w, t));
    var b := RunToIdle(p, s, [DoPoll] + [Arrive(c)], m + [c], Ran(p, w, t));
    PrefixesDiffer(ChunkWorkDone(p, Ran(p, w, t)).ran, c, m[0], RunMoves(p, false, s, a).ran, RunMoves(p, false, s, b).ran);
  }

  lemma SomeMainSpawn<W(!new), T(!new)>(p: Program<W, T>) returns (w: W, t: T)
    requires !ChunkOnly(p)
    ensures !SpawnsChunkWork(p, w, t)
  {
    w, t :| !SpawnsChunkWork(p, w, t);
  }

  /** For programs whose task trees are finite, arrival times are irrelevant
      exactly when no task enqueues on the main queue -- if there are two different
      tasks to tell apart. */
  lemma IndependentIffChunkOnly<W(!new), T(!new)>(p: Program<W, T>, c: T, d: T)
    requires FiniteTrees(p) && c != d
    ensures ArrivalIndependent(p, false) <==> ChunkOnly(p)
  {
    hide ArrivalIndependent, FiniteTrees;
    if ChunkOnly(p) {
      ChunkWorkFirstIsIndependent(p);
    } else {
      var w, t := SomeMainSpawn(p);
      var spawns := p.exec(w, t).spawns;
      var k :| 0 <= k < |spawns| && !spawns[k].target.OnLevel?;
      MainTasksExist(spawns, k);
      MainSpawnMakesTimesMatter(p, w, t, if MainTasks(spawns)[0] == c then d else c);
    }
  }

  lemma {:induction false} PollsKeepRan<W, T>(p: Program<W, T>, s: State<W, T>, n: nat)
    ensures s.ran <= Polls(p, s, n).ran
    decreases n
  {
    if n > 0 {
      var next := Poll(p, false, s);
      assert s.ran <= next.ran by {
        var k := Busy(s.levels, 0);
        if k < |s.levels| {
          var t := s.levels[k][0];
          var e := p.exec(s.world, t);
          EnqueueKeepsRan(p, State(e.world, s.levels[k := s.levels[k][1..]], s.main, s.ran + [t]), e.spawns);
        } else if s.main != [] {
          var e := p.exec(s.world, s.main[0]);
          EnqueueKeepsRan(p, State(e.world, s.levels, s.main[1..], s.ran + [s.main[0]]), e.spawns);
        }
      }
      PollsKeepRan(p, next, n - 1);
    }
  }
}
