// The chunk task queue (ChunkTaskPriorityQueueMixin.java): one insertion-ordered
// map of chunk positions per priority level, and a `pop` that takes the lowest
// position of the first level with work.

module ChunkQueue {

  const LONG_MIN: int := -0x8000_0000_0000_0000
  const LONG_MAX: int := 0x7fff_ffff_ffff_ffff

  /** A linked hash map from packed chunk position to its tasks: the table, and
      the positions in insertion order. */
  datatype Level<T> = Level(order: seq<int>, table: map<int, seq<T>>) {

    ghost predicate Valid() {
      && (forall p :: p in order <==> p in table)
      && (forall i, j :: 0 <= i < j < |order| ==> order[i] != order[j])
      && (forall p :: p in table ==> LONG_MIN <= p <= LONG_MAX)
    }

    function Remove(p: int): Level<T> {
      Level(Without(order, p), table - {p})
    }

    function Add(p: int, task: T): Level<T> {
      if p in table then Level(order, table[p := table[p] + [task]])
      else Level(order + [p], table[p := [task]])
    }
  }

  function Without(s: seq<int>, p: int): seq<int> {
    if s == [] then [] else if s[0] == p then Without(s[1..], p) else [s[0]] + Without(s[1..], p)
  }

  lemma {:induction false} WithoutMembers(s: seq<int>, p: int)
    requires forall i, j :: 0 <= i < j < |s| ==> s[i] != s[j]
    ensures forall q :: q in Without(s, p) <==> q in s && q != p
    ensures forall i, j :: 0 <= i < j < |Without(s, p)| ==> Without(s, p)[i] != Without(s, p)[j]
  {
    if s != [] {
      assert forall i, j :: 0 <= i < j < |s[1..]| ==> s[1..][i] != s[1..][j];
      WithoutMembers(s[1..], p);
      assert forall q :: q in s <==> q == s[0] || q in s[1..];
      assert s[0] !in s[1..];
    }
  }

  // ----- content --------------------------------------------------------------

  /** A priority level and a packed chunk position. */
  datatype Key = Key(level: int, pos: int)

  predicate Precedes(a: Key, b: Key) {
    a.level < b.level || (a.level == b.level && a.pos < b.pos)
  }

  /** What is queued where, with the insertion order forgotten. */
  type Content<T> = map<Key, seq<T>>

  ghost predicate Holds<T>(levels: seq<Level<T>>, k: Key) {
    0 <= k.level < |levels| && k.pos in levels[k.level].table
  }

  ghost function KeysOf<T>(levels: seq<Level<T>>): (keys: set<Key>)
    ensures forall k :: k in keys <==> Holds(levels, k)
  {
    set l, p | 0 <= l < |levels| && p in levels[l].table :: Key(l, p)
  }

  ghost function ContentOf<T>(levels: seq<Level<T>>): (c: Content<T>)
    ensures forall k :: k in c <==> Holds(levels, k)
    ensures forall k :: Holds(levels, k) ==> c[k] == levels[k.level].table[k.pos]
  {
    map k | k in KeysOf(levels) :: levels[k.level].table[k.pos]
  }

  ghost predicate IsFirst(k: Key, keys: set<Key>) {
    k in keys && forall q :: q in keys && q != k ==> Precedes(k, q)
  }

  lemma {:induction false} FirstExists(keys: set<Key>)
    requires keys != {}
    ensures exists k :: IsFirst(k, keys)
  {
    var k :| k in keys;
    var rest := keys - {k};
    if rest == {} {
      assert keys == {k};
      assert IsFirst(k, keys);
    } else {
      FirstExists(rest);
      var m :| IsFirst(m, rest);
      var f := if Precedes(k, m) then k else m;
      forall q | q in keys && q != f ensures Precedes(f, q) {
        assert q == k || q in rest;
      }
      assert IsFirst(f, keys);
    }
  }

  ghost function First(keys: set<Key>): (k: Key)
    requires keys != {}
    ensures IsFirst(k, keys)
  {
    FirstExists(keys);
    var k :| IsFirst(k, keys);
    k
  }

  lemma NoContent<T>(levels: seq<Level<T>>)
    requires forall l :: 0 <= l < |levels| ==> levels[l].Valid() && levels[l].order == []
    ensures ContentOf(levels) == map[]
  {
    assert forall k :: Holds(levels, k) ==> k.pos in levels[k.level].order;
  }

  lemma RemoveContent<T>(levels: seq<Level<T>>, l: nat, p: int)
    requires l < |levels|
    ensures ContentOf(levels[l := levels[l].Remove(p)]) == ContentOf(levels) - {Key(l, p)}
  {
    var after := levels[l := levels[l].Remove(p)];
    hide ContentOf;
    forall k ensures Holds(after, k) <==> Holds(levels, k) && k != Key(l, p) {
    }
  }

  lemma AddContent<T>(levels: seq<Level<T>>, l: nat, p: int, task: T)
    requires l < |levels|
    ensures ContentOf(levels[l := levels[l].Add(p, task)]) == Queued(ContentOf(levels), Submission(task, p, l))
  {
    var after := levels[l := levels[l].Add(p, task)];
    var k0 := Key(l, p);
    hide ContentOf;
    assert forall k :: Holds(after, k) <==> Holds(levels, k) || k == k0;
    assert k0 in ContentOf(levels) <==> p in levels[l].table;
    forall k | Holds(after, k)
      ensures ContentOf(after)[k] == Queued(ContentOf(levels), Submission(task, p, l))[k]
    {
    }
  }

  lemma AddKeepsValid<T>(level: Level<T>, p: int, task: T)
    requires level.Valid() && LONG_MIN <= p <= LONG_MAX
    ensures level.Add(p, task).Valid() && level.Add(p, task).order != []
  {
    assert p in level.table ==> level.order != [];
  }

  lemma RemoveKeepsValid<T>(level: Level<T>, p: int)
    requires level.Valid()
    ensures level.Remove(p).Valid()
  {
    WithoutMembers(level.order, p);
  }

  lemma FirstIsUnique(k: Key, keys: set<Key>)
    requires IsFirst(k, keys)
    ensures k == First(keys)
  {
  }

  // ----- what a pop picks within its level ------------------------------------

  ghost predicate IsLeast(p: int, table: set<int>) {
    p in table && forall q :: q in table ==> p <= q
  }

  /** The position a pop takes from a level with work. */
  ghost function Picked<T>(level: Level<T>, sortedPop: bool): int
    requires level.order != []
  {
    if !sortedPop then level.order[0]
    else if exists p :: IsLeast(p, level.table.Keys) then (var p :| IsLeast(p, level.table.Keys); p)
    else 0
  }

  lemma LeastIsPicked<T>(level: Level<T>, p: int)
    requires level.Valid() && p in level.order && forall q :: q in level.order ==> p <= q
    ensures p == Picked(level, true)
  {
    assert IsLeast(p, level.table.Keys);
  }

  /** The sorted pop forgets insertion order; the unsorted one does not. */
  lemma PickedByContentIffSorted(sortedPop: bool)
    ensures sortedPop <==>
      forall a: Level<int>, b: Level<int> ::
        a.Valid() && b.Valid() && a.table == b.table && a.order != [] && b.order != [] ==>
          Picked(a, sortedPop) == Picked(b, sortedPop)
  {
    var a := Level([1, 2], map[1 := [0], 2 := [0]]);
    var b := Level([2, 1], map[1 := [0], 2 := [0]]);
    assert a.Valid() && b.Valid();
    assert Picked(a, false) == 1 && Picked(b, false) == 2;
  }

  /** The least of the positions, as the scan leaves it: the largest long only if
      that is itself queued. */
  lemma LeastIsQueued<T>(level: Level<T>, p: int)
    requires level.Valid() && level.order != []
    requires (p in level.order || p == LONG_MAX) && forall q :: q in level.order ==> p <= q
    ensures p in level.order
  {
    var q := level.order[0];
    assert q in level.order && q in level.table;
    assert q <= LONG_MAX && p <= q;
  }

  /** Taking the least position of the first level with work takes the first key. */
  lemma PopEffect<T>(levels: seq<Level<T>>, l: nat, p: int, sortedPop: bool)
    requires l < |levels| && forall i :: 0 <= i < |levels| ==> levels[i].Valid()
    requires forall i :: 0 <= i < l ==> levels[i].order == []
    requires levels[l].order != []
    requires if sortedPop
      then (p in levels[l].order || p == LONG_MAX) && forall q :: q in levels[l].order ==> p <= q
      else p == levels[l].order[0]
    ensures p in levels[l].table && Key(l, p) in ContentOf(levels)
    ensures ContentOf(levels[l := levels[l].Remove(p)]) == ContentOf(levels) - {Key(l, p)}
    ensures levels[l].Remove(p).Valid()
    ensures forall q :: q in ContentOf(levels) ==> l <= q.level
    ensures p == Picked(levels[l], sortedPop)
    ensures sortedPop ==> Key(l, p) == First(ContentOf(levels).Keys)
  {
    if sortedPop {
      LeastIsQueued(levels[l], p);
    } else {
      assert p in levels[l].order;
    }
    RemoveContent(levels, l, p);
    RemoveKeepsValid(levels[l], p);
    hide ContentOf, Level.Remove;
    forall k | Holds(levels, k) ensures l <= k.level {
      assert k.pos in levels[k.level].order;
    }
    if sortedPop {
      LeastIsPicked(levels[l], p);
      forall q | q in ContentOf(levels).Keys && q != Key(l, p) ensures Precedes(Key(l, p), q) {
        assert q.pos in levels[q.level].order;
      }
      FirstIsUnique(Key(l, p), ContentOf(levels).Keys);
    }
  }

  // ----- histories of submissions ---------------------------------------------

  datatype Submission<T> = Submission(task: T, pos: int, level: nat)

  function Queued<T>(c: Content<T>, s: Submission<T>): Content<T> {
    var k := Key(s.level, s.pos);
    c[k := (if k in c then c[k] else []) + [s.task]]
  }

  /** The content after a history of submissions to an empty queue. */
  function QueuedAll<T>(history: seq<Submission<T>>): Content<T> {
    if history == [] then map[]
    else Queued(QueuedAll(history[..|history| - 1]), history[|history| - 1])
  }

  /** The tasks a history submits for one key, in order. */
  function TasksFor<T>(history: seq<Submission<T>>, k: Key): seq<T> {
    if history == [] then []
    else
      var last := history[|history| - 1];
      TasksFor(history[..|history| - 1], k) + (if k == Key(last.level, last.pos) then [last.task] else [])
  }

  lemma {:induction false} QueuedByKey<T>(history: seq<Submission<T>>, k: Key)
    ensures k in QueuedAll(history) <==> TasksFor(history, k) != []
    ensures k in QueuedAll(history) ==> QueuedAll(history)[k] == TasksFor(history, k)
  {
    if history != [] {
      QueuedByKey(history[..|history| - 1], k);
    }
  }

  /** Everything the content holds, first key first. */
  ghost function Drained<T>(c: Content<T>): seq<(Key, seq<T>)>
    decreases |c|
  {
    if c == map[] then [] else
      var k := First(c.Keys);
      [(k, c[k])] + Drained(c - {k})
  }

  lemma DrainedUnfold<T>(c: Content<T>)
    ensures c == map[] ==> Drained(c) == []
    ensures c != map[] ==>
      var k := First(c.Keys);
      k in c && Drained(c) == [(k, c[k])] + Drained(c - {k}) && |c - {k}| < |c|
  {
    if c != map[] {
      assert (c - {First(c.Keys)}).Keys == c.Keys - {First(c.Keys)};
    }
  }

  /** Two histories that agree on what each key is given, in whatever order they
      visit the keys, are drained in the same order with the same tasks. */
  lemma DrainIgnoresInsertionOrder<T>(h: seq<Submission<T>>, g: seq<Submission<T>>)
    requires forall k :: TasksFor(h, k) == TasksFor(g, k)
    ensures Drained(QueuedAll(h)) == Drained(QueuedAll(g))
  {
    forall k ensures (k in QueuedAll(h) <==> k in QueuedAll(g))
      && (k in QueuedAll(h) ==> QueuedAll(h)[k] == QueuedAll(g)[k])
    {
      QueuedByKey(h, k);
      QueuedByKey(g, k);
    }
    assert QueuedAll(h) == QueuedAll(g);
  }

  predicate Ascending<T>(d: seq<(Key, seq<T>)>) {
    forall i, j :: 0 <= i < j < |d| ==> Precedes(d[i].0, d[j].0)
  }

  /** `d` lists the entries of `c` and nothing else. */
  predicate Lists<T(==)>(d: seq<(Key, seq<T>)>, c: Content<T>) {
    && |d| == |c|
    && (forall i :: 0 <= i < |d| ==> d[i].0 in c && d[i].1 == c[d[i].0])
    && (forall k :: k in c ==> (k, c[k]) in d)
  }

  lemma ListsPrepend<T>(k: Key, d: seq<(Key, seq<T>)>, c: Content<T>)
    requires k in c && Lists(d, c - {k})
    ensures Lists([(k, c[k])] + d, c)
  {
    var e := [(k, c[k])] + d;
    forall q | q in c ensures (q, c[q]) in e {
      if q == k {
        assert e[0] == (q, c[q]);
      } else {
        assert (q, (c - {k})[q]) in d;
      }
    }
  }

  /** The drain lists every entry of the content once, sorted by (level, position). */
  lemma {:induction false} DrainedIsSorted<T>(c: Content<T>)
    ensures Lists(Drained(c), c) && Ascending(Drained(c))
    decreases |c|
  {
    if c != map[] {
      var f := First(c.Keys);
      var rest := c - {f};
      DrainedIsSorted(rest);
      ListsPrepend(f, Drained(rest), c);
      DrainedUnfold(c);
      hide Lists, First, Drained, Ascending;
      var d := Drained(rest);
      forall i | 0 <= i < |d| ensures Precedes(f, d[i].0) {
        DrainedKeys(rest, i);
      }
      AscendingPrepend((f, c[f]), d);
    }
  }

  lemma AscendingPrepend<T>(e: (Key, seq<T>), d: seq<(Key, seq<T>)>)
    requires Ascending(d) && forall i :: 0 <= i < |d| ==> Precedes(e.0, d[i].0)
    ensures Ascending([e] + d)
  {
  }

  lemma DrainedKeys<T>(c: Content<T>, i: nat)
    requires Lists(Drained(c), c) && i < |Drained(c)|
    ensures Drained(c)[i].0 in c
  {
  }

  // ----- the queue ------------------------------------------------------------

  datatype Popped<T> = NoWork | TasksForChunk(key: Key, tasks: seq<T>)

  class ChunkTaskPriorityQueue<T> {
    var levels: seq<Level<T>>
    var top: nat
    const sortedPop: bool

    predicate HasWork()
      reads this
    {
      top < |levels|
    }

    /** Every level below the top index is empty, and the top level has work. */
    ghost predicate Valid()
      reads this
    {
      && top <= |levels|
      && (forall l :: 0 <= l < |levels| ==> levels[l].Valid())
      && (forall l :: 0 <= l < top ==> levels[l].order == [])
      && (HasWork() ==> levels[top].order != [])
    }

    ghost function Content(): Content<T>
      reads this
    {
      ContentOf(levels)
    }

    constructor (levelCount: nat, sorted: bool)
      ensures Valid() && Content() == map[] && |levels| == levelCount && sortedPop == sorted
    {
      levels := seq(levelCount, _ => Level([], map[]));
      top := levelCount;
      sortedPop := sorted;
    }

    /** `submit`: add a task to its level and lower the top index to it. */
    method Submit(task: T, pos: int, level: nat)
      requires Valid() && level < |levels| && LONG_MIN <= pos <= LONG_MAX
      modifies this`levels, this`top
      ensures Valid() && |levels| == |old(levels)|
      ensures Content() == Queued(old(Content()), Submission(task, pos, level))
    {
      AddContent(levels, level, pos, task);
      AddKeepsValid(levels[level], pos, task);
      hide ContentOf, Level.Add, Queued;
      levels := levels[level := levels[level].Add(pos, task)];
      if level < top {
        top := level;
      }
    }

    /** Raise the top index to the first level with work. */
    method SkipEmptyLevels()
      requires top <= |levels| && forall l :: 0 <= l < top ==> levels[l].order == []
      modifies this`top
      ensures old(top) <= top <= |levels| && forall l :: 0 <= l < top ==> levels[l].order == []
      ensures HasWork() ==> levels[top].order != []
    {
      while HasWork() && levels[top].order == []
        invariant old(top) <= top <= |levels|
        invariant forall l :: 0 <= l < top ==> levels[l].order == []
        decreases |levels| - top
      {
        top := top + 1;
      }
    }

    /** `pop`: in sorted mode, the tasks of the first key of the content, which is
        all that leaves the queue. */
    method Pop() returns (r: Popped<T>)
      requires Valid()
      modifies this`levels, this`top
      ensures Valid() && |levels| == |old(levels)|
      ensures r.NoWork? <==> old(Content()) == map[]
      ensures r.NoWork? ==> Content() == old(Content())
      ensures r.TasksForChunk? ==>
        && r.key in old(Content())
        && r.tasks == old(Content())[r.key]
        && Content() == old(Content()) - {r.key}
        && (forall q :: q in old(Content()) ==> r.key.level <= q.level)
        && old(levels)[r.key.level].order != []
        && r.key.pos == Picked(old(levels)[r.key.level], sortedPop)
      ensures r.TasksForChunk? && sortedPop ==> r.key == First(old(Content()).Keys)
    {
      hide ContentOf, Picked, Without, Level.Remove;
      if !HasWork() {
        NoContent(levels);
        return NoWork;
      }
      ghost var before := levels;
      var queue := levels[top];
      var chunkPos := LONG_MAX;
      if sortedPop {
        for i := 0 to |queue.order|
          invariant forall j :: 0 <= j < i ==> chunkPos <= queue.order[j]
          invariant chunkPos in queue.order[..i] || chunkPos == LONG_MAX
        {
          var key := queue.order[i];
          if key < chunkPos {
            chunkPos := key;
          }
        }
        assert queue.order[0] in queue.table;
      } else {
        chunkPos := queue.order[0];
      }
      PopEffect(before, top, chunkPos, sortedPop);
      var tasks := queue.table[chunkPos];
      var level := top;
      levels := levels[top := queue.Remove(chunkPos)];
      SkipEmptyLevels();
      return TasksForChunk(Key(level, chunkPos), tasks);
    }

    /** A whole history of submissions. */
    method SubmitAll(history: seq<Submission<T>>)
      requires Valid() && Content() == map[]
      requires forall s :: s in history ==> s.level < |levels| && LONG_MIN <= s.pos <= LONG_MAX
      modifies this`levels, this`top
      ensures Valid() && Content() == QueuedAll(history)
    {
      hide ContentOf, Queued;
      for i := 0 to |history|
        invariant Valid() && |levels| == |old(levels)| && Content() == QueuedAll(history[..i])
      {
        var s := history[i];
        assert history[..i + 1][..i] == history[..i];
        Submit(s.task, s.pos, s.level);
      }
      assert history[..|history|] == history;
    }

    /** Pop until nothing is left: the order is a function of the content alone. */
    method PopAll() returns (out: seq<(Key, seq<T>)>)
      requires Valid() && sortedPop
      modifies this`levels, this`top
      ensures Valid() && Content() == map[]
      ensures out == Drained(old(Content()))
    {
      hide *;
      out := [];
      DrainedUnfold(Content());
      while true
        invariant Valid()
        invariant Drained(old(Content())) == out + Drained(Content())
        decreases |Content()|
      {
        ghost var c := Content();
        DrainedUnfold(c);
        var r := Pop();
        match r
        case NoWork => return;
        case TasksForChunk(key, tasks) =>
          out := out + [(key, tasks)];
      }
    }
  }

  /** Two queues, however many levels they have and whatever order their keys came
      in: if each key was given the same tasks in the same order, they hand out the
      same tasks in the same order. */
  method DrainBoth<T(!new)>(a: ChunkTaskPriorityQueue<T>, b: ChunkTaskPriorityQueue<T>, h: seq<Submission<T>>, g: seq<Submission<T>>)
    returns (outA: seq<(Key, seq<T>)>, outB: seq<(Key, seq<T>)>)
    requires a != b && a.Valid() && b.Valid() && a.sortedPop && b.sortedPop
    requires a.Content() == map[] && b.Content() == map[]
    requires forall s :: s in h ==> s.level < |a.levels| && LONG_MIN <= s.pos <= LONG_MAX
    requires forall s :: s in g ==> s.level < |b.levels| && LONG_MIN <= s.pos <= LONG_MAX
    requires forall k :: TasksFor(h, k) == TasksFor(g, k)
    modifies a, b
    ensures outA == outB && Ascending(outA)
    ensures HandsOut(outA, h)
    ensures a.Content() == map[] == b.Content()
  {
    hide *;
    a.SubmitAll(h);
    b.SubmitAll(g);
    DrainIgnoresInsertionOrder(h, g);
    DrainHoldsTasks(h);
    outA := a.PopAll();
    outB := b.PopAll();
  }

  /** Every key that was given tasks, with all of them in order, and no other. */
  ghost predicate HandsOut<T(!new)>(out: seq<(Key, seq<T>)>, h: seq<Submission<T>>) {
    forall k, ts :: (k, ts) in out <==> TasksFor(h, k) == ts != []
  }

  lemma DrainHoldsTasks<T(!new)>(h: seq<Submission<T>>)
    ensures Ascending(Drained(QueuedAll(h))) && HandsOut(Drained(QueuedAll(h)), h)
  {
    var c := QueuedAll(h);
    DrainedIsSorted(c);
    hide Drained, QueuedAll, Ascending;
    forall k, ts ensures (k, ts) in Drained(c) <==> TasksFor(h, k) == ts != [] {
      QueuedByKey(h, k);
      ListsMeans(Drained(c), c, k, ts);
    }
  }

  lemma ListsMeans<T>(d: seq<(Key, seq<T>)>, c: Content<T>, k: Key, ts: seq<T>)
    requires Lists(d, c)
    ensures (k, ts) in d <==> k in c && c[k] == ts
  {
    if (k, ts) in d {
      var i :| 0 <= i < |d| && d[i] == (k, ts);
      assert d[i].0 == k && d[i].1 == ts;
    }
  }
}
