// What the tick-end scheduler (MinecraftServerMixin.java) does with the work it is
// given: every task that is queued, arrives or is enqueued by another is run once,
// and the first that waits is the next to run.

module TickWork {
  import opened Sequences
  import opened TickEnd

  // ----- what is there to do ----------------------------------------------------

  /** Inserting into a level queue neither drops nor invents tasks. */
  ghost predicate InsertKeeps<W(!new), T(!new)>(p: Program<W, T>) {
    forall q: seq<T>, t: T :: multiset(p.insert(q, t)) == multiset(q) + multiset{t}
  }

  function InARow<T>(levels: seq<seq<T>>): seq<T> {
    if levels == [] then [] else levels[0] + InARow(levels[1..])
  }

  /** Everything that is queued: the levels one after the other, then the commands. */
  function Waiting<W, T>(s: State<W, T>): seq<T> {
    InARow(s.levels) + s.main
  }

  /** The tasks among `spawns` that are meant for one of `n` levels or the main queue. */
  function Meant<T>(spawns: seq<Spawn<T>>, n: nat): multiset<T> {
    if spawns == [] then multiset{} else Reaching(spawns[0], n) + Meant(spawns[1..], n)
  }

  function Reaching<T>(spawn: Spawn<T>, n: nat): multiset<T> {
    if spawn.target.OnMain? || spawn.target.i < n then multiset{spawn.task} else multiset{}
  }

  /** What running tasks one after the other enqueues on a server of `n` levels. */
  function Caused<W, T>(p: Program<W, T>, w: W, tasks: seq<T>, n: nat): multiset<T> {
    if tasks == [] then multiset{}
    else
      var e := p.exec(w, tasks[0]);
      Meant(e.spawns, n) + Caused(p, e.world, tasks[1..], n)
  }

  function WorldAfter<W, T>(p: Program<W, T>, w: W, tasks: seq<T>): W {
    if tasks == [] then w else WorldAfter(p, p.exec(w, tasks[0]).world, tasks[1..])
  }

  /** From `s` to `r` some tasks have run, on one another's worlds; with what is queued
      now they are what was queued, what came in and what they enqueued themselves. */
  ghost predicate Accounts<W, T>(p: Program<W, T>, s: State<W, T>, r: State<W, T>, came: seq<T>) {
    && s.ran <= r.ran && |r.levels| == |s.levels|
    && var tasks := r.ran[|s.ran|..];
    && r.world == WorldAfter(p, s.world, tasks)
    && multiset(tasks) + multiset(Waiting(r)) == multiset(Waiting(s)) + multiset(came) + Caused(p, s.world, tasks, |s.levels|)
  }

  // ----- bags ---------------------------------------------------------------------

  lemma Beside<T>(a: multiset<T>, b: multiset<T>, c: multiset<T>, d: multiset<T>, x: multiset<T>)
    requires a + b == c + d
    ensures x + a + b == x + c + d && a + x + b == c + x + d
  {
    assert x + (a + b) == x + (c + d);
    assert x + a + b == x + (a + b) && x + c + d == x + (c + d);
    assert a + x + b == x + a + b && c + x + d == x + c + d;
  }

  lemma Cancels<T>(a: multiset<T>, b: multiset<T>, x: multiset<T>)
    requires a + x == b + x
    ensures a == b
  {
    assert a == (a + x) - x && b == (b + x) - x;
  }

  lemma BagOfRow<T>(a: seq<T>, b: seq<T>)
    ensures multiset(a + b) == multiset(a) + multiset(b)
  {
  }

  // ----- one step -----------------------------------------------------------------

  lemma {:induction false} RowUpdate<T>(levels: seq<seq<T>>, i: nat, q: seq<T>)
    requires i < |levels|
    ensures multiset(InARow(levels[i := q])) + multiset(levels[i]) == multiset(InARow(levels)) + multiset(q)
  {
    BagOfRow(levels[0], InARow(levels[1..]));
    var after := levels[i := q];
    BagOfRow(after[0], InARow(after[1..]));
    if i == 0 {
      assert after[1..] == levels[1..];
    } else {
      assert after[1..] == levels[1..][i - 1 := q];
      RowUpdate(levels[1..], i - 1, q);
      Beside(multiset(InARow(after[1..])), multiset(levels[i]), multiset(InARow(levels[1..])), multiset(q), multiset(levels[0]));
    }
  }

  lemma LevelWaits<W, T>(s: State<W, T>, i: nat, q: seq<T>)
    requires i < |s.levels|
    ensures multiset(Waiting(s.(levels := s.levels[i := q]))) + multiset(s.levels[i]) == multiset(Waiting(s)) + multiset(q)
  {
    hide InARow;
    RowUpdate(s.levels, i, q);
    var after := s.levels[i := q];
    BagOfRow(InARow(s.levels), s.main);
    BagOfRow(InARow(after), s.main);
    Beside(multiset(InARow(after)), multiset(s.levels[i]), multiset(InARow(s.levels)), multiset(q), multiset(s.main));
  }

  /** A task more in a level's queue is a task more that waits. */
  lemma MoreWaits<W, T>(s: State<W, T>, i: nat, q: seq<T>, t: T)
    requires i < |s.levels| && multiset(q) == multiset(s.levels[i]) + multiset{t}
    ensures multiset(Waiting(s.(levels := s.levels[i := q]))) == multiset(Waiting(s)) + multiset{t}
  {
    LevelWaits(s, i, q);
    hide Waiting;
    var a, b, x := multiset(Waiting(s.(levels := s.levels[i := q]))), multiset(Waiting(s)) + multiset{t}, multiset(s.levels[i]);
    assert a + x == b + x;
    Cancels(a, b, x);
  }

  lemma FewerWaits<W, T>(s: State<W, T>, i: nat)
    requires i < |s.levels| && s.levels[i] != []
    ensures multiset(Waiting(s)) == multiset{s.levels[i][0]} + multiset(Waiting(s.(levels := s.levels[i := s.levels[i][1..]])))
  {
    LevelWaits(s, i, s.levels[i][1..]);
    HeadAndRest(s.levels[i]);
    hide Waiting;
    var a, b := multiset(Waiting(s)), multiset(Waiting(s.(levels := s.levels[i := s.levels[i][1..]])));
    var h, x := multiset{s.levels[i][0]}, multiset(s.levels[i][1..]);
    assert b + (h + x) == a + x;
    assert (h + b) + x == b + (h + x);
    Cancels(a, h + b, x);
  }

  lemma OneMoreMain<W, T>(s: State<W, T>, t: T)
    ensures multiset(Waiting(s.(main := s.main + [t]))) == multiset(Waiting(s)) + multiset{t}
  {
    BagOfRow(InARow(s.levels), s.main + [t]);
    BagOfRow(s.main, [t]);
    BagOfRow(InARow(s.levels), s.main);
  }

  lemma {:induction false} EnqueueKeeps<W(!new), T(!new)>(p: Program<W, T>, s: State<W, T>, spawns: seq<Spawn<T>>)
    requires InsertKeeps(p)
    ensures
      var r := Enqueue(p, s, spawns);
      r.ran == s.ran && r.world == s.world && multiset(Waiting(r)) == multiset(Waiting(s)) + Meant(spawns, |s.levels|)
    decreases |spawns|
  {
    hide Waiting;
    if spawns != [] {
      var t := spawns[0].task;
      var next := s;
      match spawns[0].target {
        case OnMain =>
          OneMoreMain(s, t);
          next := s.(main := s.main + [t]);
        case OnLevel(i) =>
          if i < |s.levels| {
            MoreWaits(s, i, p.insert(s.levels[i], t), t);
            next := s.(levels := s.levels[i := p.insert(s.levels[i], t)]);
          }
      }
      EnqueueKeeps(p, next, spawns[1..]);
      var m := multiset(Waiting(s));
      assert multiset(Waiting(next)) == m + Reaching(spawns[0], |s.levels|);
      assert m + (Reaching(spawns[0], |s.levels|) + Meant(spawns[1..], |s.levels|))
        == m + Reaching(spawns[0], |s.levels|) + Meant(spawns[1..], |s.levels|);
    }
  }

  lemma RunTaskKeeps<W(!new), T(!new)>(p: Program<W, T>, s: State<W, T>, t: T)
    requires InsertKeeps(p)
    ensures
      var r := RunTask(p, s, t);
      && r.ran == s.ran + [t] && r.world == p.exec(s.world, t).world
      && multiset(Waiting(r)) == multiset(Waiting(s)) + Meant(p.exec(s.world, t).spawns, |s.levels|)
  {
    var e := p.exec(s.world, t);
    EnqueueKeeps(p, s.(world := e.world, ran := s.ran + [t]), e.spawns);
  }

  lemma OneRun<W, T>(p: Program<W, T>, s: State<W, T>, r: State<W, T>, t: T)
    requires r.ran == s.ran + [t] && r.world == p.exec(s.world, t).world && |r.levels| == |s.levels|
    requires multiset{t} + multiset(Waiting(r)) == multiset(Waiting(s)) + Meant(p.exec(s.world, t).spawns, |s.levels|)
    ensures Accounts(p, s, r, [])
  {
    var e := p.exec(s.world, t);
    assert r.ran[|s.ran|..] == [t] && [t][1..] == [];
    assert Caused(p, e.world, [], |s.levels|) == multiset{};
    assert Caused(p, s.world, [t], |s.levels|) == Meant(e.spawns, |s.levels|);
    assert WorldAfter(p, s.world, [t]) == e.world;
  }

  lemma HeadAndRest<T>(q: seq<T>)
    requires q != []
    ensures multiset(q) == multiset{q[0]} + multiset(q[1..])
  {
    assert q == [q[0]] + q[1..];
  }

  lemma NothingRun<W, T>(p: Program<W, T>, s: State<W, T>)
    ensures Accounts(p, s, s, [])
  {
    assert s.ran[|s.ran|..] == [];
  }

  lemma PollLevelAccounts<W(!new), T(!new)>(p: Program<W, T>, s: State<W, T>, i: nat)
    requires InsertKeeps(p) && i < |s.levels|
    ensures Accounts(p, s, PollLevel(p, s, i), [])
  {
    if s.levels[i] == [] {
      NothingRun(p, s);
    } else {
      var t, rest := s.levels[i][0], s.(levels := s.levels[i := s.levels[i][1..]]);
      FewerWaits(s, i);
      RunTaskKeeps(p, rest, t);
      hide Waiting, RunTask, InsertKeeps;
      var m, k := multiset(Waiting(rest)), Meant(p.exec(s.world, t).spawns, |s.levels|);
      assert multiset{t} + (m + k) == multiset{t} + m + k;
      OneRun(p, s, PollLevel(p, s, i), t);
    }
  }

  /** A poll runs the first task that waits, and loses none. */
  lemma PollAccounts<W(!new), T(!new)>(p: Program<W, T>, commandFirst: bool, s: State<W, T>)
    requires InsertKeeps(p)
    ensures Accounts(p, s, Poll(p, commandFirst, s), [])
  {
    hide Accounts, InsertKeeps;
    var k := Busy(s.levels, 0);
    if k < |s.levels| && (!commandFirst || s.main == []) {
      PollLevelAccounts(p, s, k);
    } else if s.main != [] {
      PollMainAccounts(p, s);
    } else {
      NothingRun(p, s);
    }
  }

  lemma PollMainAccounts<W(!new), T(!new)>(p: Program<W, T>, s: State<W, T>)
    requires InsertKeeps(p) && s.main != []
    ensures Accounts(p, s, RunTask(p, s.(main := s.main[1..]), s.main[0]), [])
  {
    var rest := s.(main := s.main[1..]);
    HeadAndRest(s.main);
    RunTaskKeeps(p, rest, s.main[0]);
    BagOfRow(InARow(s.levels), s.main);
    BagOfRow(InARow(s.levels), s.main[1..]);
    assert multiset(Waiting(s)) == multiset{s.main[0]} + multiset(Waiting(rest));
    hide Waiting, RunTask, InsertKeeps;
    var m, k := multiset(Waiting(rest)), Meant(p.exec(s.world, s.main[0]).spawns, |s.levels|);
    assert multiset{s.main[0]} + (m + k) == multiset{s.main[0]} + m + k;
    OneRun(p, s, RunTask(p, rest, s.main[0]), s.main[0]);
  }

  lemma ArrivedAccounts<W, T>(p: Program<W, T>, s: State<W, T>, x: seq<T>)
    ensures Accounts(p, s, Arrived(s, x), x)
  {
    assert s.ran[|s.ran|..] == [];
  }

  // ----- many steps ---------------------------------------------------------------

  lemma {:induction false} CausedConcat<W, T>(p: Program<W, T>, w: W, a: seq<T>, b: seq<T>, n: nat)
    ensures WorldAfter(p, w, a + b) == WorldAfter(p, WorldAfter(p, w, a), b)
    ensures Caused(p, w, a + b, n) == Caused(p, w, a, n) + Caused(p, WorldAfter(p, w, a), b, n)
    decreases |a|
  {
    if a == [] {
      assert a + b == b;
    } else {
      assert (a + b)[0] == a[0] && (a + b)[1..] == a[1..] + b;
      CausedConcat(p, p.exec(w, a[0]).world, a[1..], b, n);
    }
  }

  lemma AccountsOn<W, T>(p: Program<W, T>, s: State<W, T>, r: State<W, T>, q: State<W, T>, came: seq<T>, more: seq<T>)
    requires Accounts(p, s, r, came) && Accounts(p, r, q, more)
    ensures Accounts(p, s, q, came + more)
  {
    var a, b := r.ran[|s.ran|..], q.ran[|r.ran|..];
    assert q.ran[|s.ran|..] == a + b;
    CausedConcat(p, s.world, a, b, |s.levels|);
    BagOfRow(a, b);
    BagOfRow(came, more);
    hide Waiting, Caused, WorldAfter;
    Totals(multiset(a), multiset(b), multiset(Waiting(s)), multiset(Waiting(r)), multiset(Waiting(q)), multiset(came),
           multiset(more), Caused(p, s.world, a, |s.levels|), Caused(p, r.world, b, |s.levels|));
  }

  lemma Totals<T>(a: multiset<T>, b: multiset<T>, s: multiset<T>, r: multiset<T>, q: multiset<T>, x: multiset<T>, y: multiset<T>,
                  c: multiset<T>, d: multiset<T>)
    requires a + r == s + x + c && b + q == r + y + d
    ensures a + b + q == s + (x + y) + (c + d)
  {
    forall t ensures (a + b + q)[t] == (s + (x + y) + (c + d))[t] {
      assert (a + r)[t] == (s + x + c)[t] && (b + q)[t] == (r + y + d)[t];
    }
  }

  lemma AccountsPoll<W, T>(p: Program<W, T>, s: State<W, T>, r: State<W, T>, q: State<W, T>, came: seq<T>)
    requires Accounts(p, s, r, came) && Accounts(p, r, q, [])
    ensures Accounts(p, s, q, came)
  {
    hide Accounts;
    AccountsOn(p, s, r, q, came, []);
    assert came + [] == came;
  }

  lemma TreesKeep<W(!new), T(!new)>(p: Program<W, T>)
    requires FiniteTrees(p)
    ensures InsertKeeps(p)
  {
  }

  // ----- which task, and where its own go -------------------------------------------

  lemma {:induction false} FirstInRow<T>(levels: seq<seq<T>>, k: nat)
    requires k < |levels| && levels[k] != [] && forall j :: 0 <= j < k ==> levels[j] == []
    ensures InARow(levels) != [] && InARow(levels)[0] == levels[k][0]
  {
    if k > 0 {
      FirstInRow(levels[1..], k - 1);
      assert [] + InARow(levels[1..]) == InARow(levels[1..]);
    }
  }

  lemma {:induction false} EmptyRow<T>(levels: seq<seq<T>>)
    requires forall j :: 0 <= j < |levels| ==> levels[j] == []
    ensures InARow(levels) == []
  {
    if levels != [] {
      EmptyRow(levels[1..]);
    }
  }

  /** The tasks among `spawns` meant for level `i`, in order. */
  function TasksOn<T>(spawns: seq<Spawn<T>>, i: nat): seq<T> {
    if spawns == [] then []
    else (if spawns[0].target == OnLevel(i) then [spawns[0].task] else []) + TasksOn(spawns[1..], i)
  }

  function Inserted<W, T>(p: Program<W, T>, q: seq<T>, tasks: seq<T>): seq<T>
    decreases |tasks|
  {
    if tasks == [] then q else Inserted(p, p.insert(q, tasks[0]), tasks[1..])
  }

  lemma {:induction false} EnqueuePlaces<W, T>(p: Program<W, T>, s: State<W, T>, spawns: seq<Spawn<T>>, i: nat)
    requires i < |s.levels|
    ensures Enqueue(p, s, spawns).levels[i] == Inserted(p, s.levels[i], TasksOn(spawns, i))
    decreases |spawns|
  {
    if spawns != [] {
      var t := spawns[0].task;
      var rest := TasksOn(spawns[1..], i);
      assert ([t] + rest)[1..] == rest && [] + rest == rest;
      match spawns[0].target
      case OnMain =>
        EnqueuePlaces(p, s.(main := s.main + [t]), spawns[1..], i);
      case OnLevel(k) =>
        EnqueuePlaces(p, if k < |s.levels| then s.(levels := s.levels[k := p.insert(s.levels[k], t)]) else s, spawns[1..], i);
    }
  }

  predicate FirstBusy<T>(levels: seq<seq<T>>, i: nat) {
    i < |levels| && levels[i] != [] && forall j :: 0 <= j < i ==> levels[j] == []
  }

  /** A poll with work to do runs the first task that waits.  That task leaves its
      queue, and what it enqueues goes in order into the queues it is meant for. */
  lemma PollRunsFirst<W, T>(p: Program<W, T>, s: State<W, T>)
    requires !Idle(s)
    ensures Waiting(s) != []
    ensures
      var r, t := Poll(p, false, s), Waiting(s)[0];
      var spawns := p.exec(s.world, t).spawns;
      && r.ran == s.ran + [t] && r.world == p.exec(s.world, t).world
      && (forall i: nat :: i < |s.levels| ==>
            r.levels[i] == Inserted(p, if FirstBusy(s.levels, i) then s.levels[i][1..] else s.levels[i], TasksOn(spawns, i)))
      && r.main == (if exists i: nat :: FirstBusy(s.levels, i) then s.main else s.main[1..]) + MainTasks(spawns)
  {
    hide Enqueue, Inserted, TasksOn, MainTasks, InARow;
    var k := Busy(s.levels, 0);
    if k < |s.levels| {
      FirstInRow(s.levels, k);
      assert FirstBusy(s.levels, k);
      var t := s.levels[k][0];
      var e := p.exec(s.world, t);
      Placed(p, State(e.world, s.levels[k := s.levels[k][1..]], s.main, s.ran + [t]), e.spawns);
    } else {
      EmptyRow(s.levels);
      assert [] + s.main == s.main;
      assert forall i: nat :: !FirstBusy(s.levels, i);
      var e := p.exec(s.world, s.main[0]);
      Placed(p, State(e.world, s.levels, s.main[1..], s.ran + [s.main[0]]), e.spawns);
    }
  }

  lemma Placed<W, T>(p: Program<W, T>, s: State<W, T>, spawns: seq<Spawn<T>>)
    ensures
      var r := Enqueue(p, s, spawns);
      && r.ran == s.ran && r.world == s.world && r.main == s.main + MainTasks(spawns)
      && forall i: nat :: i < |s.levels| ==> r.levels[i] == Inserted(p, s.levels[i], TasksOn(spawns, i))
  {
    EnqueueKeepsRan(p, s, spawns);
    EnqueueKeepsWorld(p, s, spawns);
    EnqueueMain(p, s, spawns);
    forall i: nat | i < |s.levels| ensures Enqueue(p, s, spawns).levels[i] == Inserted(p, s.levels[i], TasksOn(spawns, i)) {
      EnqueuePlaces(p, s, spawns, i);
    }
  }

  lemma {:induction false} EnqueueKeepsWorld<W, T>(p: Program<W, T>, s: State<W, T>, spawns: seq<Spawn<T>>)
    ensures Enqueue(p, s, spawns).world == s.world
    decreases |spawns|
  {
    if spawns != [] {
      var t := spawns[0].task;
      match spawns[0].target
      case OnMain => EnqueueKeepsWorld(p, s.(main := s.main + [t]), spawns[1..]);
      case OnLevel(i) =>
        EnqueueKeepsWorld(p, if i < |s.levels| then s.(levels := s.levels[i := p.insert(s.levels[i], t)]) else s, spawns[1..]);
    }
  }
}
