// The loops of MinecraftServerMixin.java: `pollTask` with chunk work first, the
// drain at the end of a tick, and the autosave that is placed by the world clock.

module ServerTick {
  import opened Sequences
  import opened TickEnd
  import opened TickWork

  // ----- one sweep over the levels --------------------------------------------

  /** Every level below `i` polled once, in order. */
  function SweepTo<W, T>(p: Program<W, T>, s: State<W, T>, i: nat): (r: State<W, T>)
    requires i <= |s.levels|
    ensures |r.levels| == |s.levels|
  {
    if i == 0 then s else PollLevel(p, SweepTo(p, s, i - 1), i - 1)
  }

  function Sweep<W, T>(p: Program<W, T>, s: State<W, T>): State<W, T> {
    SweepTo(p, s, |s.levels|)
  }

  /** The first task of every level that has one. */
  function Heads<T>(levels: seq<seq<T>>): seq<T> {
    if levels == [] then []
    else
      var last := levels[|levels| - 1];
      Heads(levels[..|levels| - 1]) + if last == [] then [] else [last[0]]
  }

  function Tail<T>(q: seq<T>): seq<T> {
    if q == [] then [] else q[1..]
  }

  /** Tasks that enqueue nothing are run one a level, in the order of the levels. */
  lemma {:induction false} SweepOfQuiet<W(!new), T(!new)>(p: Program<W, T>, s: State<W, T>, i: nat)
    requires i <= |s.levels| && forall w: W, t: T :: p.exec(w, t).spawns == []
    ensures
      var r := SweepTo(p, s, i);
      && r.ran == s.ran + Heads(s.levels[..i]) && r.main == s.main
      && forall j :: 0 <= j < |s.levels| ==> r.levels[j] == if j < i then Tail(s.levels[j]) else s.levels[j]
  {
    if i == 0 {
      assert s.ran + [] == s.ran;
    } else {
      SweepOfQuiet(p, s, i - 1);
      assert s.levels[..i][..i - 1] == s.levels[..i - 1];
      Associates(s.ran, Heads(s.levels[..i - 1]), if s.levels[i - 1] == [] then [] else [s.levels[i - 1][0]]);
      assert s.ran + Heads(s.levels[..i - 1]) + [] == s.ran + Heads(s.levels[..i - 1]);
    }
  }

  predicate NoChunkWork<T>(levels: seq<seq<T>>) {
    forall i :: 0 <= i < |levels| ==> levels[i] == []
  }

  lemma {:induction false} SweepIdle<W, T>(p: Program<W, T>, s: State<W, T>, i: nat)
    requires i <= |s.levels| && NoChunkWork(s.levels)
    ensures SweepTo(p, s, i) == s
  {
    if i > 0 {
      SweepIdle(p, s, i - 1);
    }
  }

  lemma {:induction false} BusyNone<T>(levels: seq<seq<T>>, i: nat)
    requires i <= |levels|
    ensures Busy(levels, i) == |levels| <==> forall j :: i <= j < |levels| ==> levels[j] == []
    decreases |levels| - i
  {
    if i < |levels| {
      BusyNone(levels, i + 1);
    }
  }

  lemma IdleMeansEmpty<W, T>(s: State<W, T>)
    ensures Idle(s) <==> NoChunkWork(s.levels) && s.main == []
  {
    BusyNone(s.levels, 0);
  }

  /** The commands of the batches from number `i` up to number `j`. */
  function Between<T>(inbox: seq<seq<T>>, i: nat, j: nat): seq<T>
    requires i <= j <= |inbox|
    decreases j
  {
    if i == j then [] else Between(inbox, i, j - 1) + inbox[j - 1]
  }

  lemma {:induction false} BetweenConcat<T>(inbox: seq<seq<T>>, i: nat, j: nat, k: nat)
    requires i <= j <= k <= |inbox|
    ensures Between(inbox, i, k) == Between(inbox, i, j) + Between(inbox, j, k)
    decreases k
  {
    if j < k {
      BetweenConcat(inbox, i, j, k - 1);
    } else {
      assert Between(inbox, i, j) + [] == Between(inbox, i, j);
    }
  }

  lemma BetweenNone<T>(inbox: seq<seq<T>>, i: nat)
    requires i <= |inbox|
    ensures Between(inbox, i, i) == []
  {
  }

  lemma IdlePoll<W, T>(p: Program<W, T>, s: State<W, T>)
    requires Idle(s)
    ensures Poll(p, false, s) == s
  {
  }

  lemma NoneArrived<W, T>(p: Program<W, T>, s: State<W, T>, inbox: seq<seq<T>>, i: nat)
    requires i <= |inbox|
    ensures Arrived(s, Between(inbox, i, i)) == s == Arrived(SweepTo(p, s, 0), Between(inbox, i, i))
  {
    ArrivedTwice(s, [], []);
  }

  lemma MoreArrived<W, T>(s: State<W, T>, inbox: seq<seq<T>>, i: nat, j: nat, k: nat)
    requires i <= j <= k <= |inbox|
    ensures Arrived(Arrived(s, Between(inbox, i, j)), Between(inbox, j, k)) == Arrived(s, Between(inbox, i, k))
    ensures Arrived(s, Between(inbox, i, k)).levels == s.levels
  {
    BetweenConcat(inbox, i, j, k);
    ArrivedTwice(s, Between(inbox, i, j), Between(inbox, j, k));
  }

  /** Nothing is lost over two parts of a drain if nothing is lost over either. */
  lemma AccountsMore<W, T>(p: Program<W, T>, s: State<W, T>, r: State<W, T>, q: State<W, T>, inbox: seq<seq<T>>, i: nat, j: nat,
                           k: nat)
    requires i <= j <= k <= |inbox| && Accounts(p, s, r, Between(inbox, i, j)) && Accounts(p, r, q, Between(inbox, j, k))
    ensures Accounts(p, s, q, Between(inbox, i, k))
  {
    hide Accounts, Between;
    AccountsOn(p, s, r, q, Between(inbox, i, j), Between(inbox, j, k));
    BetweenConcat(inbox, i, j, k);
  }

  lemma AccountsRound<W, T>(p: Program<W, T>, s: State<W, T>, r: State<W, T>, t: State<W, T>, q: State<W, T>, inbox: seq<seq<T>>,
                            i: nat, j: nat, k: nat)
    requires i <= j <= k <= |inbox| && Accounts(p, s, r, Between(inbox, i, j)) && Accounts(p, r, t, Between(inbox, j, k))
    requires Accounts(p, t, q, [])
    ensures Accounts(p, s, q, Between(inbox, i, k))
  {
    hide *;
    AccountsMore(p, s, r, t, inbox, i, j, k);
    AccountsPoll(p, s, t, q, Between(inbox, i, k));
  }

  /** Commands that land between two polls of a sweep land after both of them. */
  lemma SweepStep<W(!new), T(!new)>(p: Program<W, T>, s: State<W, T>, l: nat, inbox: seq<seq<T>>, i: nat, j: nat, k: nat)
    requires ChunkOnly(p) && l < |s.levels| && i <= j <= k <= |inbox|
    ensures
      PollLevel(p, Arrived(Arrived(SweepTo(p, s, l), Between(inbox, i, j)), Between(inbox, j, k)), l) ==
      Arrived(SweepTo(p, s, l + 1), Between(inbox, i, k))
  {
    MoreArrived(SweepTo(p, s, l), inbox, i, j, k);
    PollLevelArrived(p, SweepTo(p, s, l), l, Between(inbox, i, k));
  }

  /** What a drain that starts from `s` and receives `commands` comes to. */
  ghost function DrainResult<W(!new), T(!new)>(p: Program<W, T>, s: State<W, T>, commands: seq<T>): State<W, T>
    requires FiniteTrees(p)
  {
    Serve(p, Arrived(Sweep(p, s), commands))
  }

  /** Whatever arrives from now on, serving `s` comes to what serving `s0` with the
      commands `c` in hand comes to. */
  ghost predicate ServesAs<W(!new), T(!new)>(p: Program<W, T>, s0: State<W, T>, c: seq<T>, s: State<W, T>)
    requires FiniteTrees(p)
  {
    forall x: seq<T> :: Serve(p, Arrived(s, x)) == Serve(p, Arrived(s0, c + x))
  }

  lemma ServesAsItself<W(!new), T(!new)>(p: Program<W, T>, s: State<W, T>)
    requires FiniteTrees(p)
    ensures ServesAs(p, s, [], s)
  {
    assert forall x: seq<T> :: [] + x == x;
  }

  lemma ReceiveThenServe<W(!new), T(!new)>(p: Program<W, T>, s0: State<W, T>, s: State<W, T>, c: seq<T>, batch: seq<T>)
    requires FiniteTrees(p) && ServesAs(p, s0, c, s)
    ensures ServesAs(p, s0, c + batch, Arrived(s, batch))
  {
    hide Arrived, Serve;
    forall x: seq<T> ensures Serve(p, Arrived(Arrived(s, batch), x)) == Serve(p, Arrived(s0, (c + batch) + x)) {
      ArrivedTwice(s, batch, x);
      Associates(c, batch, x);
    }
  }

  lemma ServesReceived<W(!new), T(!new)>(p: Program<W, T>, s0: State<W, T>, s: State<W, T>, inbox: seq<seq<T>>, i: nat, j: nat, k: nat)
    requires i <= j <= k <= |inbox| && FiniteTrees(p) && ServesAs(p, s0, Between(inbox, i, j), s)
    ensures ServesAs(p, s0, Between(inbox, i, k), Arrived(s, Between(inbox, j, k)))
  {
    hide *;
    BetweenConcat(inbox, i, j, k);
    ReceiveThenServe(p, s0, s, Between(inbox, i, j), Between(inbox, j, k));
  }

  lemma PollThenServe<W(!new), T(!new)>(p: Program<W, T>, s0: State<W, T>, s: State<W, T>, c: seq<T>)
    requires FiniteTrees(p) && ChunkOnly(p) && !Idle(s) && ServesAs(p, s0, c, s)
    ensures ServesAs(p, s0, c, Poll(p, false, s))
  {
    hide ChunkOnly, FiniteTrees, Poll, Total;
    forall x: seq<T> ensures Serve(p, Arrived(Poll(p, false, s), x)) == Serve(p, Arrived(s0, c + x)) {
      PollArrived(p, s, x);
      PollSize(p, Arrived(s, x));
    }
  }

  lemma ServedWhenIdle<W(!new), T(!new)>(p: Program<W, T>, s0: State<W, T>, c: seq<T>, s: State<W, T>)
    requires FiniteTrees(p) && ServesAs(p, s0, c, s) && Idle(s)
    ensures s == Serve(p, Arrived(s0, c))
  {
    ArrivedTwice(s, [], []);
    assert c + [] == c;
    assert Serve(p, Arrived(s, [])) == Serve(p, Arrived(s0, c + []));
  }

  /** A round that starts from where the drain stands leaves it where a drain with
      the round's commands in hand would stand. */
  lemma DrainRound<W(!new), T(!new)>(p: Program<W, T>, s0: State<W, T>, s: State<W, T>, c: seq<T>, x: seq<T>, y: seq<T>, first: bool)
    requires FiniteTrees(p)
    requires first ==> s == s0 && c == []
    requires !first && ChunkOnly(p) ==> s == DrainResult(p, s0, c) && NoChunkWork(s.levels)
    ensures ChunkOnly(p) ==>
      Serve(p, Arrived(Arrived(Sweep(p, s), x), y)) == DrainResult(p, s0, c + x + y)
  {
    ArrivedTwice(Sweep(p, s), x, y);
    if first {
      assert [] + x + y == x + y;
    } else if ChunkOnly(p) {
      SweepIdle(p, s, |s.levels|);
      ServeArrived(p, Arrived(Sweep(p, s0), c), x + y);
      ArrivedTwice(Sweep(p, s0), c, x + y);
      assert c + (x + y) == c + x + y;
    }
  }

  lemma RunTaskRuns<W, T>(p: Program<W, T>, s: State<W, T>, t: T)
    ensures RunTask(p, s, t).ran == s.ran + [t]
  {
    var e := p.exec(s.world, t);
    EnqueueKeepsRan(p, s.(world := e.world, ran := s.ran + [t]), e.spawns);
  }

  lemma PollLevelRuns<W, T>(p: Program<W, T>, s: State<W, T>, i: nat)
    requires i < |s.levels|
    ensures |PollLevel(p, s, i).ran| == |s.ran| + if s.levels[i] == [] then 0 else 1
  {
    if s.levels[i] != [] {
      RunTaskRuns(p, s.(levels := s.levels[i := s.levels[i][1..]]), s.levels[i][0]);
    }
  }

  /** When nothing is left, everything has run. */
  lemma AllRan<W, T>(p: Program<W, T>, s: State<W, T>, r: State<W, T>, came: seq<T>)
    requires Accounts(p, s, r, came) && Idle(r)
    ensures
      var ran := r.ran[|s.ran|..];
      multiset(ran) == multiset(Waiting(s)) + multiset(came) + Caused(p, s.world, ran, |s.levels|)
  {
    IdleMeansEmpty(r);
    EmptyRow(r.levels);
    assert Waiting(r) == [];
  }

  /** The server's queues, and the commands that come in from outside: one batch
      lands just before each poll, whenever the outside world chose to send it. */
  class Server<W(!new), T(!new)> {
    const program: Program<W, T>
    const syncChunks: bool
    const syncTasks: bool
    const cap: nat
    const inbox: seq<seq<T>>
    var state: State<W, T>
    var received: nat

    constructor (program: Program<W, T>, syncChunks: bool, syncTasks: bool, cap: nat, state: State<W, T>, inbox: seq<seq<T>>)
      ensures this.program == program && this.syncChunks == syncChunks && this.syncTasks == syncTasks
      ensures this.cap == cap && this.state == state && this.inbox == inbox && received == 0
    {
      this.program, this.syncChunks, this.syncTasks, this.cap := program, syncChunks, syncTasks, cap;
      this.state, this.inbox, this.received := state, inbox, 0;
    }

    method Receive()
      requires received <= |inbox|
      modifies this`state, this`received
      ensures old(received) <= received <= |inbox|
      ensures state == Arrived(old(state), Between(inbox, old(received), received)) && state.ran == old(state).ran
      ensures old(received) < |inbox| ==> received == old(received) + 1
      ensures Accounts(program, old(state), state, Between(inbox, old(received), received))
    {
      ghost var s := state;
      ArrivedTwice(state, [], []);
      if received < |inbox| {
        state := Arrived(state, inbox[received]);
        received := received + 1;
        assert Between(inbox, received - 1, received) == [] + inbox[received - 1] == inbox[received - 1];
      }
      ArrivedAccounts(program, s, Between(inbox, old(received), received));
    }

    /** `getChunkSource().pollTask()` of one level. */
    method PollChunkSource(i: nat) returns (did: bool)
      requires i < |state.levels|
      modifies this`state
      ensures state == PollLevel(program, old(state), i)
      ensures did <==> old(state).levels[i] != []
      ensures InsertKeeps(program) ==> Accounts(program, old(state), state, [])
      ensures |state.ran| == |old(state).ran| + if did then 1 else 0
    {
      PollLevelRuns(program, state, i);
      if InsertKeeps(program) {
        PollLevelAccounts(program, state, i);
      }
      did := state.levels[i] != [];
      state := PollLevel(program, state, i);
    }

    /** `pollTask`: with `syncTasks` on, every level is asked for chunk work before
        the command queue; with it off, vanilla's command queue goes first. */
    method PollTask() returns (did: bool)
      modifies this`state
      ensures state == Poll(program, !syncTasks, old(state))
      ensures did <==> !Idle(old(state))
      ensures InsertKeeps(program) ==> Accounts(program, old(state), state, [])
      ensures |state.ran| == |old(state).ran| + if did then 1 else 0
    {
      hide Accounts, InsertKeeps;
      if state.main != [] {
        RunTaskRuns(program, state.(main := state.main[1..]), state.main[0]);
      }
      if InsertKeeps(program) {
        PollAccounts(program, !syncTasks, state);
      }
      if syncTasks {
        for i := 0 to |state.levels|
          invariant state == old(state)
          invariant Busy(state.levels, 0) == Busy(state.levels, i)
        {
          did := PollChunkSource(i);
          if did {
            return true;
          }
        }
      }
      if state.main != [] {
        state := TickEnd.RunTask(program, state.(main := state.main[1..]), state.main[0]);
        return true;
      }
      for i := 0 to |state.levels|
        invariant state == old(state) && state.main == []
        invariant Busy(state.levels, 0) == Busy(state.levels, i)
      {
        did := PollChunkSource(i);
        if did {
          return true;
        }
      }
      return false;
    }

    /** The `for` loop of a drain round: each level polled once. */
    method PollEachLevel() returns (more: bool)
      requires received <= |inbox|
      modifies this`state, this`received
      ensures |state.levels| == |old(state).levels|
      ensures old(received) <= received <= |inbox|
      ensures !more ==> NoChunkWork(state.levels)
      ensures NoChunkWork(old(state).levels) ==>
        !more && state == Arrived(old(state), Between(inbox, old(received), received))
      ensures ChunkOnly(program) ==>
        state == Arrived(Sweep(program, old(state)), Between(inbox, old(received), received))
      ensures InsertKeeps(program) ==> Accounts(program, old(state), state, Between(inbox, old(received), received))
      ensures if more then |state.ran| > |old(state).ran| else |state.ran| == |old(state).ran|
    {
      hide Between, SweepTo, ChunkOnly, RunTask, Accounts, InsertKeeps;
      more := false;
      NothingRun(program, state);
      BetweenNone(inbox, received);
      NoneArrived(program, state, inbox, received);
      for i := 0 to |state.levels|
        invariant |state.levels| == |old(state).levels|
        invariant old(received) <= received <= |inbox|
        invariant !more ==> forall j :: 0 <= j < i ==> state.levels[j] == []
        invariant if more then |state.ran| > |old(state).ran| else |state.ran| == |old(state).ran|
        invariant NoChunkWork(old(state).levels) ==>
          !more && state == Arrived(old(state), Between(inbox, old(received), received))
        invariant ChunkOnly(program) ==>
          state == Arrived(SweepTo(program, old(state), i), Between(inbox, old(received), received))
        invariant InsertKeeps(program) ==> Accounts(program, old(state), state, Between(inbox, old(received), received))
      {
        ghost var s, k := state, received;
        Receive();
        ghost var t := state;
        MoreArrived(old(state), inbox, old(received), k, received);
        if ChunkOnly(program) {
          SweepStep(program, old(state), i, inbox, old(received), k, received);
        }
        var did := PollChunkSource(i);
        if InsertKeeps(program) {
          AccountsRound(program, old(state), s, t, state, inbox, old(received), k, received);
        }
        if did {
          more := true;
        }
      }
    }

    /** The inner `while (this.pollTask())` of a drain round. */
    method PollUntilIdle() returns (more: bool)
      requires syncTasks && FiniteTrees(program) && received <= |inbox|
      modifies this`state, this`received
      ensures Idle(state) && |state.levels| == |old(state).levels|
      ensures old(received) <= received <= |inbox|
      ensures more && Idle(old(state)) ==> received > old(received)
      ensures ChunkOnly(program) ==>
        state == Serve(program, Arrived(old(state), Between(inbox, old(received), received)))
      ensures Accounts(program, old(state), state, Between(inbox, old(received), received))
      ensures if more then |state.ran| > |old(state).ran| else |state.ran| == |old(state).ran|
    {
      hide *;
      TreesKeep(program);
      more := false;
      NothingRun(program, state);
      ServesAsItself(program, state);
      NoneArrived(program, state, inbox, received);
      BetweenNone(inbox, received);
      while true
        invariant |state.levels| == |old(state).levels|
        invariant if more then |state.ran| > |old(state).ran| else |state.ran| == |old(state).ran|
        invariant old(received) <= received <= |inbox|
        invariant Idle(old(state)) && received == old(received) ==> state == old(state) && !more
        invariant ChunkOnly(program) ==> ServesAs(program, old(state), Between(inbox, old(received), received), state)
        invariant Accounts(program, old(state), state, Between(inbox, old(received), received))
        decreases |inbox| - received, Total(program, state)
      {
        ghost var s, k := state, received;
        Receive();
        NoneArrived(program, s, inbox, k);
        ghost var c := Between(inbox, old(received), received);
        if ChunkOnly(program) {
          ServesReceived(program, old(state), s, inbox, old(received), k, received);
        }
        ghost var t := state;
        var did := PollTask();
        AccountsRound(program, old(state), s, t, state, inbox, old(received), k, received);
        if !did {
          IdlePoll(program, t);
          if ChunkOnly(program) {
            ServedWhenIdle(program, old(state), c, t);
          }
          return;
        }
        PollSize(program, t);
        if ChunkOnly(program) {
          PollThenServe(program, old(state), t, c);
        }
        more := true;
      }
    }

    /** The tick-end drain: rounds of sweeps and polls until a round finds nothing.
        With `syncTasks` on it always ends with every queue empty, in at most two
        rounds more than there were arrivals; the world it leaves and what it ran
        depend on which commands arrived, never on when.  Nothing is lost: what it ran,
        and what is queued after it, is what was queued before it, the commands that
        arrived, and what the tasks it ran enqueued. */
    method DrainAtTickEnd() returns (guard: nat)
      requires FiniteTrees(program) && cap > 0 && received <= |inbox|
      modifies this`state, this`received
      ensures old(received) <= received <= |inbox|
      ensures !syncChunks ==> state == old(state) && received == old(received)
      ensures syncChunks && syncTasks ==> Idle(state) && guard <= received - old(received) + 2
      ensures syncChunks && guard < cap ==> NoChunkWork(state.levels)
      ensures syncChunks && syncTasks && ChunkOnly(program) ==>
        state == DrainResult(program, old(state), Between(inbox, old(received), received))
      ensures guard <= cap && |state.ran| >= |old(state).ran| + guard - 1
      ensures Accounts(program, old(state), state, Between(inbox, old(received), received))
      ensures syncChunks && syncTasks ==>
        var ran := state.ran[|old(state).ran|..];
        multiset(ran) == multiset(Waiting(old(state))) + multiset(Between(inbox, old(received), received))
          + Caused(program, old(state).world, ran, |old(state).levels|)
    {
      hide Accounts, InsertKeeps;
      TreesKeep(program);
      NothingRun(program, state);
      BetweenNone(inbox, received);
      guard := 0;
      if !syncChunks {
        return;
      }
      var more := true;
      while more && guard < cap
        invariant old(received) <= received <= |inbox|
        invariant guard == 0 ==> more && received == old(received) && state == old(state)
        invariant !more ==> NoChunkWork(state.levels)
        invariant Accounts(program, old(state), state, Between(inbox, old(received), received))
        invariant guard <= cap && |state.ran| >= |old(state).ran| + guard - if more then 0 else 1
        invariant guard > 0 && syncTasks ==> Idle(state)
        invariant guard > 0 && syncTasks ==> guard <= received - old(received) + (if more then 1 else 2)
        invariant guard > 0 && syncTasks && ChunkOnly(program) ==>
          state == DrainResult(program, old(state), Between(inbox, old(received), received))
        decreases cap - guard
      {
        ghost var s, k := state, received;
        IdleMeansEmpty(s);
        guard := guard + 1;
        more := PollEachLevel();
        AccountsMore(program, old(state), s, state, inbox, old(received), k, received);
        ghost var m, t := received, state;
        if syncTasks {
          var polled := PollUntilIdle();
          IdleMeansEmpty(state);
          more := more || polled;
          DrainRound(program, old(state), s, Between(inbox, old(received), k),
                     Between(inbox, k, m), Between(inbox, m, received), guard == 1);
          BetweenConcat(inbox, old(received), k, m);
          BetweenConcat(inbox, old(received), m, received);
          AccountsMore(program, old(state), t, state, inbox, old(received), m, received);
        }
      }
      if syncTasks {
        AllRan(program, old(state), state, Between(inbox, old(received), received));
      }
    }
  }

  // ----- autosave -------------------------------------------------------------

  const AUTOSAVE_TICKS: int := 6000
  const LONG_MIN: int := -0x8000_0000_0000_0000
  const INT_MAX: int := 0x7fff_ffff

  predicate AutosaveDue(gameTime: int) {
    gameTime > 0 && gameTime % AUTOSAVE_TICKS == 0
  }

  /** One gametime in six thousand is due, and 0 is not. */
  lemma DueIs(gameTime: int)
    ensures AutosaveDue(gameTime) <==> exists k: nat :: k > 0 && gameTime == 6000 * k
  {
    if AutosaveDue(gameTime) {
      assert gameTime == 6000 * (gameTime / 6000);
    }
  }

  class Autosave {
    var ticksUntilAutosave: int
    var lastAutosaveGameTime: int

    constructor ()
      ensures lastAutosaveGameTime == LONG_MIN
    {
      ticksUntilAutosave, lastAutosaveGameTime := AUTOSAVE_TICKS, LONG_MIN;
    }

    /** The autosave decision at the tail of a tick. */
    method OnTickEnd(hasOverworld: bool, gameTime: int) returns (save: bool)
      modifies this
      ensures !hasOverworld ==> !save && unchanged(this)
      ensures hasOverworld ==> ticksUntilAutosave == INT_MAX && lastAutosaveGameTime == gameTime
      ensures hasOverworld ==> save == (gameTime != old(lastAutosaveGameTime) && AutosaveDue(gameTime))
    {
      if !hasOverworld {
        return false;
      }
      ticksUntilAutosave := INT_MAX;
      if gameTime == lastAutosaveGameTime {
        return false;
      }
      lastAutosaveGameTime := gameTime;
      return gameTime > 0 && gameTime % AUTOSAVE_TICKS == 0;
    }

    /** The gametimes at which a run of ticks saves. */
    method RunTicks(times: seq<int>) returns (saves: seq<int>)
      modifies this
      ensures saves == SavesOf(old(lastAutosaveGameTime), times)
    {
      hide SavesOf, AutosaveDue;
      saves := [];
      SavesOfAll(lastAutosaveGameTime, times);
      for i := 0 to |times|
        invariant lastAutosaveGameTime == (if i == 0 then old(lastAutosaveGameTime) else times[i - 1])
        invariant saves + SavesOf(lastAutosaveGameTime, times[i..]) == SavesOf(old(lastAutosaveGameTime), times)
      {
        SavesOfStep(saves, lastAutosaveGameTime, times, i);
        var save := OnTickEnd(true, times[i]);
        if save {
          saves := saves + [times[i]];
        }
      }
      assert times[|times|..] == [];
      SavesOfNone(saves, lastAutosaveGameTime);
    }
  }

  function SavesOf(last: int, times: seq<int>): seq<int>
    decreases |times|
  {
    if times == [] then []
    else (if times[0] != last && AutosaveDue(times[0]) then [times[0]] else []) + SavesOf(times[0], times[1..])
  }

  lemma SavesOfAll(last: int, times: seq<int>)
    ensures [] + SavesOf(last, times[0..]) == SavesOf(last, times)
  {
    assert times[0..] == times;
  }

  lemma SavesOfNone(saves: seq<int>, last: int)
    ensures saves + SavesOf(last, []) == saves
  {
  }

  lemma SavesOfStep(saves: seq<int>, last: int, times: seq<int>, i: nat)
    requires i < |times|
    ensures saves + SavesOf(last, times[i..]) ==
      (if times[i] != last && AutosaveDue(times[i]) then saves + [times[i]] else saves) + SavesOf(times[i], times[i + 1..])
  {
    assert times[i..][0] == times[i] && times[i..][1..] == times[i + 1..];
  }

  /** The gametimes of a run with the repeats of frozen ticks struck out. */
  function Thawed(last: int, times: seq<int>): seq<int>
    decreases |times|
  {
    if times == [] then []
    else (if times[0] != last then [times[0]] else []) + Thawed(times[0], times[1..])
  }

  function DueOf(times: seq<int>): seq<int> {
    if times == [] then [] else (if AutosaveDue(times[0]) then [times[0]] else []) + DueOf(times[1..])
  }

  lemma {:induction false} SavesAreDueThawed(last: int, times: seq<int>)
    ensures SavesOf(last, times) == DueOf(Thawed(last, times))
    decreases |times|
  {
    if times != [] {
      var rest := Thawed(times[0], times[1..]);
      assert Thawed(last, times) == (if times[0] != last then [times[0]] + rest else rest);
      SavesAreDueThawed(times[0], times[1..]);
    }
  }

  /** Two replicas that are frozen for different numbers of ticks autosave at the
      same gametimes, once each, and exactly at the due ones. */
  lemma FrozenTicksDoNotMoveAutosaves(last: int, a: seq<int>, b: seq<int>)
    requires Thawed(last, a) == Thawed(last, b)
    ensures SavesOf(last, a) == SavesOf(last, b) == DueOf(Thawed(last, a))
  {
    SavesAreDueThawed(last, a);
    SavesAreDueThawed(last, b);
  }
}
