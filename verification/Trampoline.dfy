// The same-thread executors (DetExecutors.java).  `runHere` is a trampoline: the
// first submission on a thread becomes the drain loop, and a submission made from
// inside that loop is only queued.  The direct service runs a submission in place.

module Trampoline {
  import opened Sequences

  /** A task: what it submits while it runs, in order, and whether it then throws. */
  datatype Task = Task(id: int, children: seq<Task>, throws: bool)

  function Size(t: Task): (n: nat)
    ensures n >= 1
    decreases t, 0
  {
    1 + Sizes(t.children)
  }

  function Sizes(ts: seq<Task>): nat
    decreases ts, 1
  {
    if ts == [] then 0 else Size(ts[0]) + Sizes(ts[1..])
  }

  lemma {:induction false} SizesConcat(a: seq<Task>, b: seq<Task>)
    ensures Sizes(a + b) == Sizes(a) + Sizes(b)
    decreases |a|
  {
    if a == [] {
      assert a + b == b;
    } else {
      assert (a + b)[0] == a[0] && (a + b)[1..] == a[1..] + b;
      SizesConcat(a[1..], b);
    }
  }

  // ----- orders ---------------------------------------------------------------

  /** The order in which a first-in first-out queue that starts as `q` runs. */
  function Fifo(q: seq<Task>): seq<Task>
    decreases Sizes(q)
  {
    if q == [] then [] else
      SizesConcat(q[1..], q[0].children);
      assert Sizes(q) == 1 + Sizes(q[0].children) + Sizes(q[1..]);
      [q[0]] + Fifo(q[1..] + q[0].children)
  }

  lemma FifoUnfold(q: seq<Task>)
    requires q != []
    ensures Fifo(q) == [q[0]] + Fifo(q[1..] + q[0].children)
    ensures Sizes(q[1..] + q[0].children) < Sizes(q)
  {
    SizesConcat(q[1..], q[0].children);
  }

  lemma FifoEmpty()
    ensures Fifo([]) == []
  {
  }

  function Children(ts: seq<Task>): seq<Task> {
    if ts == [] then [] else ts[0].children + Children(ts[1..])
  }

  lemma {:induction false} ChildrenSmaller(ts: seq<Task>)
    ensures Sizes(Children(ts)) + |ts| == Sizes(ts)
  {
    if ts != [] {
      ChildrenSmaller(ts[1..]);
      SizesConcat(ts[0].children, Children(ts[1..]));
    }
  }

  /** Breadth-first order, generation by generation. */
  function LevelOrder(ts: seq<Task>): seq<Task>
    decreases Sizes(ts)
  {
    if ts == [] then [] else
      ChildrenSmaller(ts);
      ts + LevelOrder(Children(ts))
  }

  /** Depth-first order: each task before what it submits. */
  function PreOrder(ts: seq<Task>): seq<Task>
    decreases ts
  {
    if ts == [] then [] else [ts[0]] + PreOrder(ts[0].children) + PreOrder(ts[1..])
  }

  /** A queue runs its present members first and then their children. */
  lemma {:induction false} FifoAhead(q: seq<Task>, r: seq<Task>)
    ensures Fifo(q + r) == q + Fifo(r + Children(q))
    decreases |q|
  {
    if q == [] {
      assert q + r == r && r + Children(q) == r;
    } else {
      var c := q[0].children;
      assert (q + r)[0] == q[0] && (q + r)[1..] + c == q[1..] + (r + c);
      FifoAhead(q[1..], r + c);
      FifoUnfold(q + r);
      assert (r + c) + Children(q[1..]) == r + Children(q);
      hide Fifo;
      assert Fifo(q + r) == [q[0]] + (q[1..] + Fifo(r + Children(q)));
    }
  }

  /** First in, first out is breadth-first. */
  lemma {:induction false} FifoIsLevelOrder(q: seq<Task>)
    ensures Fifo(q) == LevelOrder(q)
    decreases Sizes(q)
  {
    if q != [] {
      FifoAhead(q, []);
      assert q + [] == q && [] + Children(q) == Children(q);
      ChildrenSmaller(q);
      FifoIsLevelOrder(Children(q));
    }
  }

  lemma {:induction false} PreOrderConcat(a: seq<Task>, b: seq<Task>)
    ensures PreOrder(a + b) == PreOrder(a) + PreOrder(b)
    decreases |a|
  {
    if a == [] {
      assert a + b == b;
    } else {
      assert (a + b)[0] == a[0] && (a + b)[1..] == a[1..] + b;
      PreOrderConcat(a[1..], b);
      assert PreOrder(a + b) == [a[0]] + PreOrder(a[0].children) + (PreOrder(a[1..]) + PreOrder(b));
    }
  }

  /** Breadth-first and depth-first run the same tasks, each exactly once, and
      as many as the forest holds. */
  lemma {:induction false} SameTasks(q: seq<Task>)
    ensures multiset(Fifo(q)) == multiset(PreOrder(q))
    ensures |Fifo(q)| == Sizes(q)
    decreases Sizes(q)
  {
    if q != [] {
      var rest, c := q[1..], q[0].children;
      SizesConcat(rest, c);
      assert Sizes(q) == 1 + Sizes(c) + Sizes(rest);
      SameTasks(rest + c);
      PreOrderConcat(rest, c);
      assert Fifo(q) == [q[0]] + Fifo(rest + c);
    }
  }

  // ----- the direct service ---------------------------------------------------

  /** What running submissions in place does: the tasks started, and whether an
      exception reached the submitter.  An exception ends every enclosing task. */
  datatype Outcome = Outcome(started: seq<Task>, threw: bool)

  function InPlace(t: Task): Outcome
    decreases t, 0
  {
    var inner := InPlaceAll(t.children);
    Outcome([t] + inner.started, inner.threw || t.throws)
  }

  function InPlaceAll(ts: seq<Task>): Outcome
    decreases ts, 1
  {
    if ts == [] then Outcome([], false) else
      var first := InPlace(ts[0]);
      if first.threw then first else
        var rest := InPlaceAll(ts[1..]);
        Outcome(first.started + rest.started, rest.threw)
  }

  /** No task of the forest throws, except on its very last branch. */
  predicate ThrowsOnlyLast(ts: seq<Task>)
    decreases ts
  {
    ts == [] || (
      && ThrowsOnlyLast(ts[0].children)
      && ThrowsOnlyLast(ts[1..])
      && (ts[1..] != [] ==> !ts[0].throws && NoThrow(ts[0].children)))
  }

  predicate NoThrow(ts: seq<Task>)
    decreases ts
  {
    ts == [] || (!ts[0].throws && NoThrow(ts[0].children) && NoThrow(ts[1..]))
  }

  /** In place, tasks start in depth-first order; the run is cut short by a throw. */
  lemma {:induction false} InPlaceIsPreOrder(ts: seq<Task>)
    ensures InPlaceAll(ts).started <= PreOrder(ts)
    ensures InPlaceAll(ts).started == PreOrder(ts) <==> ThrowsOnlyLast(ts)
    ensures !InPlaceAll(ts).threw <==> NoThrow(ts)
    ensures NoThrow(ts) ==> ThrowsOnlyLast(ts)
    decreases ts
  {
    if ts != [] {
      var t, rest := ts[0], ts[1..];
      InPlaceIsPreOrder(t.children);
      InPlaceIsPreOrder(rest);
      assert InPlace(t).started <= [t] + PreOrder(t.children);
      PreOrderNonEmpty(rest);
    }
  }

  /** The direct service runs what the trampoline runs exactly when a throw can
      only end the last branch; the trampoline runs everything whatever throws. */
  lemma ExecutorsRunTheSameTasks(ts: seq<Task>)
    ensures multiset(InPlaceAll(ts).started) == multiset(Fifo(ts)) <==> ThrowsOnlyLast(ts)
  {
    InPlaceIsPreOrder(ts);
    SameTasks(ts);
    var started, all := InPlaceAll(ts).started, PreOrder(ts);
    if multiset(started) == multiset(all) {
      assert |multiset(started)| == |started| && |multiset(all)| == |all|;
      assert started == all;
    }
  }

  lemma PreOrderNonEmpty(ts: seq<Task>)
    ensures ts != [] ==> |PreOrder(ts)| > 0
  {
  }

  /** `sameThreadService()`: every submission runs before `execute` returns. */
  class SameThreadService {
    var ran: seq<Task>

    method Execute(t: Task) returns (threw: bool)
      modifies this
      ensures ran == old(ran) + InPlace(t).started
      ensures threw == InPlace(t).threw
      decreases t
    {
      ran := ran + [t];
      InPlaceNone(t.children);
      assert InPlace(t) == Outcome([t] + InPlaceAll(t.children).started, InPlaceAll(t.children).threw || t.throws);
      hide InPlaceAll, InPlace;
      ghost var done: seq<Task> := [];
      for i := 0 to |t.children|
        invariant InPlaceAll(t.children[..i]) == Outcome(done, false)
        invariant ran == old(ran) + ([t] + done)
      {
        InPlaceStep(t.children, i);
        var failed := Execute(t.children[i]);
        Associates(old(ran), [t] + done, InPlace(t.children[i]).started);
        Associates([t], done, InPlace(t.children[i]).started);
        done := done + InPlace(t.children[i]).started;
        if failed {
          return true;
        }
      }
      assert t.children[..|t.children|] == t.children;
      return t.throws;
    }
  }

  lemma {:induction false} InPlaceExtend(ts: seq<Task>, t: Task)
    requires !InPlaceAll(ts).threw
    ensures InPlaceAll(ts + [t]) == Outcome(InPlaceAll(ts).started + InPlace(t).started, InPlace(t).threw)
    decreases |ts|
  {
    if ts == [] {
      assert (ts + [t])[1..] == [];
    } else {
      assert (ts + [t])[0] == ts[0] && (ts + [t])[1..] == ts[1..] + [t];
      InPlaceExtend(ts[1..], t);
    }
  }

  lemma {:induction false} InPlacePrefix(ts: seq<Task>, rest: seq<Task>)
    requires InPlaceAll(ts).threw
    ensures InPlaceAll(ts + rest) == InPlaceAll(ts)
    decreases |ts|
  {
    assert (ts + rest)[0] == ts[0] && (ts + rest)[1..] == ts[1..] + rest;
    if !InPlace(ts[0]).threw {
      InPlacePrefix(ts[1..], rest);
    }
  }

  lemma InPlaceNone(ts: seq<Task>)
    ensures InPlaceAll(ts[..0]) == Outcome([], false)
  {
  }

  lemma InPlaceStep(ts: seq<Task>, i: nat)
    requires i < |ts| && !InPlaceAll(ts[..i]).threw
    ensures InPlaceAll(ts[..i + 1]) ==
      Outcome(InPlaceAll(ts[..i]).started + InPlace(ts[i]).started, InPlace(ts[i]).threw)
    ensures InPlace(ts[i]).threw ==> InPlaceAll(ts) == InPlaceAll(ts[..i + 1])
  {
    hide InPlaceAll;
    assert ts[..i + 1] == ts[..i] + [ts[i]];
    InPlaceExtend(ts[..i], ts[i]);
    if InPlace(ts[i]).threw {
      assert ts == ts[..i + 1] + ts[i + 1..];
      InPlacePrefix(ts[..i + 1], ts[i + 1..]);
    }
  }

  // ----- the trampoline -------------------------------------------------------

  function Thrown(ts: seq<Task>): seq<Task> {
    if ts == [] then [] else Thrown(ts[..|ts| - 1]) + (if ts[|ts| - 1].throws then [ts[|ts| - 1]] else [])
  }

  lemma ThrownExtend(ts: seq<Task>, t: Task)
    ensures Thrown(ts + [t]) == Thrown(ts) + (if t.throws then [t] else [])
  {
    assert (ts + [t])[..|ts|] == ts;
  }

  /** One thread's queue and draining flag, with the history of what was submitted,
      what ran, what was logged as thrown, and how deeply tasks were nested. */
  class SameThreadExecutor {
    var pending: seq<Task>
    var draining: bool
    var errors: seq<Task>
    ghost var submitted: seq<Task>
    ghost var ran: seq<Task>
    ghost var depth: nat
    ghost var deepest: nat

    /** Tasks run in submission order, and never one inside another. */
    ghost predicate Valid()
      reads this
    {
      && submitted == ran + pending
      && (depth == 0 ==> errors == Thrown(ran))
      && depth <= deepest <= 1
      && (!draining ==> pending == [] && depth == 0)
    }

    constructor ()
      ensures Valid() && !draining && ran == [] && submitted == []
    {
      pending, draining, errors, submitted, ran, depth, deepest := [], false, [], [], [], 0, 0;
    }

    /** `runHere`. */
    method RunHere(task: Task)
      requires Valid()
      modifies this
      ensures Valid() && draining == old(draining) && depth == old(depth)
      ensures old(draining) ==> pending == old(pending) + [task] && ran == old(ran) && errors == old(errors)
      ensures !old(draining) ==> pending == [] && ran == old(ran) + Fifo([task])
      decreases if draining then 0 else 2
    {
      pending := pending + [task];
      submitted := submitted + [task];
      if draining {
        return;
      }
      draining := true;
      hide Fifo, Sizes, Thrown;
      ghost var done: seq<Task> := [];
      while pending != []
        invariant draining && depth == 0 && deepest <= 1
        invariant submitted == ran + pending
        invariant errors == Thrown(ran)
        invariant ran == old(ran) + done
        invariant done + Fifo(pending) == Fifo([task])
        decreases Sizes(pending)
      {
        var next := pending[0];
        FifoUnfold(pending);
        ThrownExtend(ran, next);
        pending := pending[1..];
        var threw := RunTask(next);
        if threw {
          errors := errors + [next];
        }
        Associates(done, [next], Fifo(pending));
        Associates(old(ran), done, [next]);
        done := done + [next];
      }
      FifoEmpty();
      draining := false;
    }

    /** `next.run()`: the task submits its children through the executor. */
    method RunTask(task: Task) returns (threw: bool)
      requires draining && depth == 0 && deepest <= 1
      requires submitted == ran + [task] + pending
      requires errors == Thrown(ran)
      modifies this
      ensures draining && depth == 0 && deepest <= 1 && errors == old(errors)
      ensures ran == old(ran) + [task]
      ensures pending == old(pending) + task.children
      ensures submitted == ran + pending
      ensures threw == task.throws
      decreases 1
    {
      ran := ran + [task];
      depth := depth + 1;
      deepest := if deepest < depth then depth else deepest;
      ghost var logged := errors;
      for i := 0 to |task.children|
        invariant draining && depth == 1 == deepest && errors == logged
        invariant ran == old(ran) + [task]
        invariant pending == old(pending) + task.children[..i]
        invariant submitted == ran + pending
      {
        RunHere(task.children[i]);
        assert task.children[..i + 1] == task.children[..i] + [task.children[i]];
      }
      depth := depth - 1;
      threw := task.throws;
    }
  }
}
