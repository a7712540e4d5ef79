// Searches that were killed and resumed twice (branch.py): what becomes of names
// that are used again.

module BranchResumes {
  import opened Options
  import opened BranchWorlds
  import opened BranchBeam
  import opened BranchSearch

  /** Every attempt works and every leg lands on its target; the first node of a
      generation ranks highest. */
  function Smooth(): Oracle {
    Oracle(_ => 1, (g, i) => Luck(true, true, Completes(OnTarget, 10 - i)), (g, w) => Lives, _ => false)
  }

  lemma SmoothMoves(gap: nat)
    ensures Moves(Smooth(), gap)
  {
  }

  // ----- the records ----------------------------------------------------------

  function Founder(i: nat): Record {
    Record(Plan(Searched(0, i), 0, 1, None, None, [], None), Some(10), 10 - i, false)
  }

  /** The first node of generation 1, by the ordinal of its reseed. */
  function Child(o: nat): Record {
    Record(ChildPlan(Founder(0).plan, 10, 0, o), Some(20), 10, false)
  }

  /** A child of the first of those. */
  function Grandchild(): Record {
    Record(ChildPlan(Child(3).plan, 20, 0, 5), Some(30), 10, false)
  }

  lemma ChildIs(o: nat)
    ensures Child(o).plan.id == Searched(1, 0) && Child(o).plan.gen == 1 && Child(o).plan.base == 1
    ensures Child(o).plan.schedule == [Stop(10, ChildSeed(o))]
    ensures Child(o).plan.parent == Some(Searched(0, 0)) && Child(o).plan.resumeAt == Some(10)
    ensures Child(o) == Record(Child(o).plan, Some(20), 10, false)
    ensures HasOrdinal(Child(o)) && OrdinalOf(Child(o).plan.reseed.value) == o
  {
    OrdinalRecovered(o);
  }

  lemma GrandchildIs()
    ensures Grandchild().plan.id == Searched(2, 0) && Grandchild().plan.parent == Some(Searched(1, 0))
    ensures Grandchild().plan.schedule == [Stop(10, ChildSeed(3)), Stop(20, ChildSeed(5))]
    ensures Grandchild().plan.resumeAt == Some(20) && Grandchild().plan.base == 1 && ChildOf(Grandchild().plan, Child(3))
  {
    ChildIs(3);
  }

  /** The lineage the grandchild's record describes can be followed. */
  lemma GrandchildIsPossible()
    ensures Possible(Rememberer(), 1, Grandchild().plan.schedule, 30) && Replayable(Grandchild().plan.schedule, 30)
  {
    GrandchildIs();
    var s := Grandchild().plan.schedule;
    assert s[..1] == [Stop(10, ChildSeed(3))] && s[..1][..0] == [];
    assert Possible(Rememberer(), 1, [], 10);
    assert Possible(Rememberer(), 1, s[..1], 20);
  }

  // ----- which generation a resume goes back to --------------------------------

  lemma UsableOfTwo(gen: nat, cps: map<Id, Checkpoint<History>>)
    requires FirstThree(cps)
    ensures Usable([Founder(0), Founder(1)], gen, cps) == if gen == 0 then [Founder(0), Founder(1)] else []
  {
    var none: seq<Record> := [];
    UsableSnoc(none, Founder(0), gen, cps);
    UsableSnoc([Founder(0)], Founder(1), gen, cps);
    assert none + [Founder(0)] == [Founder(0)] && [Founder(0)] + [Founder(1)] == [Founder(0), Founder(1)];
  }

  predicate FirstThree(cps: map<Id, Checkpoint<History>>) {
    Searched(0, 0) in cps && Searched(0, 1) in cps && Searched(1, 0) in cps
  }

  lemma UsableOfThree(gen: nat, cps: map<Id, Checkpoint<History>>)
    requires FirstThree(cps)
    ensures Usable([Founder(0), Founder(1), Child(3)], gen, cps) ==
      if gen == 0 then [Founder(0), Founder(1)] else if gen == 1 then [Child(3)] else []
  {
    ChildIs(3);
    assert !Child(3).error;
    hide Child, Usable, Founder;
    UsableOfTwo(gen, cps);
    UsableSnoc([Founder(0), Founder(1)], Child(3), gen, cps);
    assert [] + [Child(3)] == [Child(3)];
    assert [Founder(0), Founder(1)] + [] == [Founder(0), Founder(1)];
    assert [Founder(0), Founder(1)] + [Child(3)] == [Founder(0), Founder(1), Child(3)];
  }

  lemma UsableOfFour(gen: nat, cps: map<Id, Checkpoint<History>>)
    requires FirstThree(cps)
    ensures Usable([Founder(0), Founder(1), Child(3), Child(4)], gen, cps) ==
      if gen == 0 then [Founder(0), Founder(1)] else if gen == 1 then [Child(3), Child(4)] else []
  {
    ChildIs(4);
    assert !Child(4).error;
    hide Child, Usable, Founder;
    UsableOfThree(gen, cps);
    UsableSnoc([Founder(0), Founder(1), Child(3)], Child(4), gen, cps);
    assert [] + [Child(4)] == [Child(4)] && [Child(3)] + [Child(4)] == [Child(3), Child(4)];
    assert [Founder(0), Founder(1)] + [] == [Founder(0), Founder(1)] && [Child(3)] + [] == [Child(3)];
    assert [Founder(0), Founder(1), Child(3)] + [Child(4)] == [Founder(0), Founder(1), Child(3), Child(4)];
  }

  // ----- sessions -------------------------------------------------------------

  /** Run the first node of a generation; the search is killed after it. */
  method RunFirst(run: BranchRun<History>, next: seq<Node>, gen: nat)
    requires run.Valid() && run.segment == 10 && next != [] && AllNew(next) && Planned(next, gen)
    requires run.LineageLawful(Plans(next)) && Startable(run.server, run.checkpoints, next[0].plan)
    modifies run, next[0]
    ensures
      var p, w := next[0].plan, LegStart(run.server, old(run.checkpoints), next[0].plan);
      var end := run.server.time(w) + 10;
      && run.lineage == old(run.lineage) + [Record(p, Some(end), 10, false)]
      && run.made == old(run.made) + [Some(run.server.run(w, end))]
      && p.id in run.checkpoints
      && run.checkpoints[p.id] == Checkpoint(run.server.run(w, end), end, p.base, p.schedule)
      && SameBut(p.id, old(run.checkpoints), run.checkpoints)
    ensures run.LineageLawful([]) && run.ordinal == old(run.ordinal)
    ensures old(run.WorldsAreTrue()) && Grounded(next[0].plan, old(run.checkpoints)) ==> run.WorldsAreTrue()
  {
    hide Truthful, Lawful, Startable, LegStart, Grounded, Told, AsDecided, Landed, NewTold, NewLanded, Moves, Smooth,
      BranchRun.LegsDecided, BranchRun.WorldsOf, BranchRun.WorldsAreTrue;
    var n := next[0];
    ghost var rest := Plans(next)[1..];
    assert Plans([n]) + rest == Plans(next);
    SmoothMoves(run.gap);
    assert Planned([n], gen) && AllNew([n]);
    ghost var before := run.checkpoints;
    var killed := run.RunWave([n], gen, 0, Smooth(), Lives, rest);
    run.ForgetAll(rest);
    WaveOfOne(run, n, gen, before);
    assert run.lineage == old(run.lineage) + [n.Entry()];
  }

  lemma WaveOfOne(run: BranchRun<History>, n: Node, gen: nat, before: map<Id, Checkpoint<History>>)
    requires run.segment == 10 && Startable(run.server, before, n.plan)
    requires run.LegsDecided([n], 1, gen, 0, Smooth(), before) && Untouched([n], before, run.checkpoints)
    ensures
      var p, w := n.plan, LegStart(run.server, before, n.plan);
      var end := run.server.time(w) + 10;
      && Entries([n]) == [Record(p, Some(end), 10, false)]
      && run.WorldsOf([n], 1) == [Some(run.server.run(w, end))]
      && p.id in run.checkpoints
      && run.checkpoints[p.id] == Checkpoint(run.server.run(w, end), end, p.base, p.schedule)
      && SameBut(p.id, before, run.checkpoints)
  {
    hide Startable, LegStart;
    assert AsDecided(run.server, before, [n][0].Entry(), Smooth().luck(gen, 0), 10, run.checkpoints);
    assert run.WorldsOf([n], 1)[0] == run.WorldOf(n.Entry());
  }

  predicate IsFounded(cps: map<Id, Checkpoint<History>>, i: nat) {
    Searched(0, i) in cps && cps[Searched(0, i)] == Checkpoint(Ticked(Began(1), 10), 10, 1, [])
  }

  /** A new search, two nodes wide, keeping both. */
  method Launch(keepTop: nat) returns (run: BranchRun<History>)
    ensures fresh(run) && run.Valid() && run.server == Rememberer() && run.segment == 10 && run.gap == 1
    ensures run.replicas == 2 && run.keepTop == keepTop && run.children == 1 && run.rngSeeds == [1]
    ensures run.lineage == [] && run.made == [] && run.live == [] && run.ordinal == 0 && run.checkpoints == map[]
    ensures run.LineageLawful([]) && run.WorldsAreTrue()
  {
    RemembererIsPhysical();
    run := new BranchRun(Rememberer(), 2, keepTop, 1, 10, 9, [1], 1);
  }

  /** A search on the remembering server that was killed after the first node of
      generation 1, whose checkpoint is that of `last`. */
  ghost predicate Session(run: BranchRun<History>, lineage: seq<Record>, last: Record)
    reads run
  {
    && run.Valid() && run.server == Rememberer() && run.segment == 10 && run.gap == 1
    && run.replicas == 2 && run.keepTop == 2 && run.children == 1
    && run.lineage == lineage && run.LineageLawful([]) && run.WorldsAreTrue()
    && IsFounded(run.checkpoints, 0) && IsFounded(run.checkpoints, 1)
    && Searched(1, 0) in run.checkpoints && Matches(last.plan, last.final, run.checkpoints[Searched(1, 0)])
  }

  lemma FoundersStart(run: BranchRun<History>, nodes: seq<Node>)
    requires run.server == Rememberer() && run.segment == 10 && Founding(nodes, [1]) && |nodes| == 2
    ensures nodes[0].plan == Founder(0).plan && nodes[1].plan == Founder(1).plan
  {
  }

  lemma FoundersRan(run: BranchRun<History>, nodes: seq<Node>, before: map<Id, Checkpoint<History>>)
    requires run.server == Rememberer() && run.segment == 10 && |nodes| == 2
    requires nodes[0].plan == Founder(0).plan && nodes[1].plan == Founder(1).plan
    requires run.LegsDecided(nodes, 2, 0, 0, Smooth(), before)
    ensures nodes[0].Entry() == Founder(0) && nodes[1].Entry() == Founder(1) && Entries(nodes) == [Founder(0), Founder(1)]
    ensures IsFounded(run.checkpoints, 0) && IsFounded(run.checkpoints, 1)
  {
    assert AsDecided(run.server, before, nodes[0].Entry(), Smooth().luck(0, 0), 10, run.checkpoints);
    assert AsDecided(run.server, before, nodes[1].Entry(), Smooth().luck(0, 1), 10, run.checkpoints);
  }

  /** The first child planned is the best parent's. */
  lemma BestFirst(run: BranchRun<History>, ranked: seq<Node>, next: seq<Node>, from: seq<nat>, o: nat, r: Record)
    requires run.children >= 1 && run.keepTop >= 1 && ranked != [] && ranked[0].Entry() == r && r.final.Some?
    requires AreChildren(Plans(next), Entries(run.Kept(ranked)), from, o) && InOrder(from)
    requires forall a :: 0 <= a < |run.Kept(ranked)| ==> ChildCount(from, a) >= run.children
    ensures next != [] && next[0].plan == ChildPlan(r.plan, r.final.value, 0, o + 1)
  {
    hide ChildCount, ChildPlan, InOrder;
    BestHasFirst(from);
    assert Entries(run.Kept(ranked))[0] == ranked[0].Entry();
    assert Plans(next)[0] == next[0].plan;
  }

  lemma FoundersChosen(run: BranchRun<History>, nodes: seq<Node>, ranked: seq<Node>, next: seq<Node>, from: seq<nat>)
    requires run.children == 1 && run.keepTop == 2 && |nodes| == 2
    requires nodes[0].Entry() == Founder(0) && nodes[1].Entry() == Founder(1)
    requires run.Chosen(nodes, ranked, next, from, 2)
    ensures |ranked| == 2 && next != [] && next[0].plan == Child(3).plan
  {
    hide ChildPlan, AreChildren, InOrder, ChildCount;
    assert |multiset(ranked)| == |ranked| && |multiset(nodes)| == 2;
    assert ranked[0] in multiset(nodes) && ranked[1] in multiset(nodes);
    assert RankedBefore(ranked[0].Entry(), ranked[1].Entry());
    assert nodes[0] in multiset(ranked);
    BestFirst(run, ranked, next, from, 2, Founder(0));
  }

  lemma NonePruned(run: BranchRun<History>, ranked: seq<Node>, cps: map<Id, Checkpoint<History>>)
    requires run.keepTop == |ranked|
    ensures cps - NamesIn(ranked[|run.Kept(ranked)|..]) == cps
  {
  }

  /** Generation 0 runs. */
  method RunFounders() returns (run: BranchRun<History>, nodes: seq<Node>)
    ensures fresh(run) && run.Valid() && run.server == Rememberer() && run.segment == 10 && run.gap == 1
    ensures run.replicas == 2 && run.keepTop == 2 && run.children == 1 && run.ordinal == 2
    ensures |nodes| == 2 && nodes[0].Entry() == Founder(0) && nodes[1].Entry() == Founder(1)
    ensures run.lineage == [Founder(0), Founder(1)] && run.LineageLawful([]) && run.WorldsAreTrue()
    ensures IsFounded(run.checkpoints, 0) && IsFounded(run.checkpoints, 1)
    ensures Candidates(nodes, 0, run.ordinal, run.gap)
  {
    hide Truthful, Lawful, Rememberer, Smooth, AsDecided, Founding, AllGrounded, BranchRun.Standing, BranchRun.LegsDecided,
      BranchRun.WorldsAreTrue, BranchRun.LineageLawful, NewTold, NewLanded, Untouched, AllLanded, Founder, IsFounded, Plans, Entries,
      AllNew, Planned, Moves, Candidates, AddsOnly, BranchRun.WorldsOf;
    run := Launch(2);
    nodes := run.InitialNodes();
    FoundersStart(run, nodes);
    SmoothMoves(run.gap);
    assert Plans(nodes) + [] == Plans(nodes);
    ghost var before := run.checkpoints;
    var killed := run.RunWave(nodes, 0, 0, Smooth(), Lives, []);
    FoundersRan(run, nodes, before);
    FoundersAreCandidates(run, nodes);
  }

  lemma FoundersAreCandidates(run: BranchRun<History>, nodes: seq<Node>)
    requires |nodes| == 2 && nodes[0].Entry() == Founder(0) && nodes[1].Entry() == Founder(1)
    requires run.LineageLawful([]) && run.lineage == [Founder(0), Founder(1)]
    ensures Candidates(nodes, 0, run.ordinal, run.gap)
  {
    hide GoodRecord;
    assert run.lineage[0] in run.lineage && run.lineage[1] in run.lineage;
  }

  /** Generation 1 is planned, and its first node runs. */
  method FirstSession() returns (run: BranchRun<History>)
    ensures fresh(run) && Session(run, [Founder(0), Founder(1), Child(3)], Child(3))
  {
    hide Truthful, Lawful, Candidates, AreChildren, Ordered, InOrder, ChildCount, ChildPlan, AllGrounded, Rememberer, Founder, Child,
      Startable, LegStart, Grounded, NamesIn, BranchRun.Standing, BranchRun.NothingLost, BranchRun.LineageLawful,
      BranchRun.WorldsAreTrue, BranchRun.Chosen, AllNew, Planned;
    var nodes;
    run, nodes := RunFounders();
    ghost var ranked, from;
    ghost var disk := run.checkpoints;
    var next;
    next, ranked, from := run.NextGeneration(nodes, 0);
    FoundersChosen(run, nodes, ranked, next, from);
    NonePruned(run, ranked, disk);
    ChildStarts(run, 3);
    RunFirst(run, next, 1);
    ChildIs(3);
    assert run.lineage == [Founder(0), Founder(1), Child(3)];
  }

  lemma ChildStarts(run: BranchRun<History>, o: nat)
    requires run.server == Rememberer() && IsFounded(run.checkpoints, 0)
    ensures
      var p := Child(o).plan;
      && Startable(run.server, run.checkpoints, p) && Grounded(p, run.checkpoints)
      && run.server.time(LegStart(run.server, run.checkpoints, p)) == 10
  {
    var p, c := Child(o).plan, run.checkpoints[Searched(0, 0)];
    assert c.schedule + [Stop(10, ChildSeed(o))] == p.schedule;
    assert run.server.resume(c.world, p.reseed) == Reseeded(c.world, p.reseed) && TimeOf(c.world) == 10;
  }

  // ----- the second session ---------------------------------------------------

  /** A resume may rank by other scores than the search did. */
  function Rerank(): Record -> int {
    (r: Record) => if r.plan.reseed == Some(ChildSeed(4)) then 0 else r.rank
  }

  /** Of two adopted records the one that ranks higher is bred from first. */
  lemma BetterOfTwo(run: BranchRun<History>, ok: seq<Record>, a: Record, b: Record, ranked: seq<Node>, next: seq<Node>,
                    from: seq<nat>, o: nat)
    requires ok == [a, b] && Rerank()(a) > Rerank()(b) && Rerank()(a) == a.rank && a.final.Some?
    requires run.Selected(ok, Rerank(), ranked, next, from, o) && run.children >= 1 && run.keepTop >= 1
    ensures |ranked| == 2 && ranked[0].Entry() == a && ranked[1].Entry() == b.(rank := Rerank()(b))
    ensures next != [] && next[0].plan == ChildPlan(a.plan, a.final.value, 0, o + 1)
  {
    hide ChildPlan, AreChildren, InOrder, ChildCount, IsRecovered, Rerank;
    assert FromUsable(ranked[0].Entry(), ok, Rerank()) && FromUsable(ranked[1].Entry(), ok, Rerank());
    assert RankedBefore(ranked[0].Entry(), ranked[1].Entry());
    assert a in ok && b in ok;
    assert a.(rank := Rerank()(a)) == a;
    assert a in Entries(ranked);
    assert b.(rank := Rerank()(b)) in Entries(ranked);
    BestFirst(run, ranked, next, from, o, a);
  }

  lemma ResumesAtZero(cps: map<Id, Checkpoint<History>>, g: nat)
    requires FirstThree(cps)
    ensures IsLastUsable(g, [Founder(0), Founder(1), Child(3)], cps) <==> g == 0
  {
    hide Child, Founder;
    forall h: nat ensures Usable([Founder(0), Founder(1), Child(3)], h, cps) ==
      if h == 0 then [Founder(0), Founder(1)] else if h == 1 then [Child(3)] else []
    {
      UsableOfThree(h, cps);
    }
    hide Usable;
  }

  lemma ResumesAtOne(cps: map<Id, Checkpoint<History>>, g: nat)
    requires FirstThree(cps)
    ensures IsLastUsable(g, [Founder(0), Founder(1), Child(3), Child(4)], cps) <==> g == 1
  {
    hide Child, Founder;
    forall h: nat ensures Usable([Founder(0), Founder(1), Child(3), Child(4)], h, cps) ==
      if h == 0 then [Founder(0), Founder(1)] else if h == 1 then [Child(3), Child(4)] else []
    {
      UsableOfFour(h, cps);
    }
    UsableOfFour(1, cps);
    UsableOfFour(g, cps);
    hide Usable;
  }

  lemma OnlyOrdinals(o: nat, lineage: seq<Record>, n: nat)
    requires IsRecovered(o, lineage) && |lineage| <= n
    requires exists r :: r in lineage && HasOrdinal(r) && OrdinalOf(r.plan.reseed.value) == n
    requires forall r :: r in lineage && HasOrdinal(r) ==> OrdinalOf(r.plan.reseed.value) <= n
    ensures o == n
  {
  }

  lemma NextOrdinals(o: nat)
    ensures IsRecovered(o, [Founder(0), Founder(1), Child(3)]) ==> o == 3
    ensures IsRecovered(o, [Founder(0), Founder(1), Child(3), Child(4)]) ==> o == 4
  {
    ChildIs(3);
    ChildIs(4);
    assert !HasOrdinal(Founder(0)) && !HasOrdinal(Founder(1));
    hide OrdinalOf, Child, Founder, HasOrdinal, IsRecovered;
    var three, four := [Founder(0), Founder(1), Child(3)], [Founder(0), Founder(1), Child(3), Child(4)];
    assert three[2] in three && four[3] in four;
    if IsRecovered(o, three) {
      OnlyOrdinals(o, three, 3);
    }
    if IsRecovered(o, four) {
      OnlyOrdinals(o, four, 4);
    }
  }

  /** The search is resumed, goes back to generation 0, uses the name of generation
      1's first node again, and is killed once more. */
  method SecondSession(run: BranchRun<History>)
    requires Session(run, [Founder(0), Founder(1), Child(3)], Child(3))
    modifies run
    ensures Session(run, [Founder(0), Founder(1), Child(3), Child(4)], Child(4))
  {
    hide Truthful, Lawful, ChildPlan, AllGrounded, Usable, IsLastUsable, BranchRun.Resumed, BranchRun.Selected, Rememberer, Founder,
      Child, Startable, LegStart, Grounded, NamesIn, BranchRun.AdoptedMatch, BranchRun.AdoptedStand, BranchRun.Standing,
      BranchRun.NothingLost, BranchRun.LineageLawful, BranchRun.WorldsAreTrue, Rerank, AllNew, Planned;
    var next, gen;
    ghost var ranked, from, o;
    ghost var disk, live := run.checkpoints, run.live;
    next, gen, ranked, from, o := run.ResumeNodes(Rerank());
    ResumedFromZero(run, next, gen, ranked, from, o, disk, live);
    NonePruned(run, ranked, disk);
    ChildStarts(run, 4);
    RunFirst(run, next, 1);
    ChildIs(4);
    assert run.lineage == [Founder(0), Founder(1), Child(3), Child(4)];
  }

  lemma ResumedFromZero(run: BranchRun<History>, next: seq<Node>, gen: Option<nat>, ranked: seq<Node>, from: seq<nat>, o: nat,
                        disk: map<Id, Checkpoint<History>>, live: seq<Record>)
    requires run.lineage == [Founder(0), Founder(1), Child(3)] && FirstThree(disk) && run.children == 1 && run.keepTop == 2
    requires gen.None? ==> forall g: nat :: !IsLastUsable(g, run.lineage, disk)
    requires gen.Some? ==> run.Resumed(gen.value, next, disk, live)
    requires gen.Some? ==> run.Selected(Usable(run.lineage, gen.value, disk), Rerank(), ranked, next, from, o)
    ensures gen == Some(0) && |ranked| == 2 && next != [] && next[0].plan == Child(4).plan
  {
    hide IsLastUsable, BranchRun.Selected;
    ResumesAtZero(disk, 0);
    if gen.Some? {
      ResumesAtZero(disk, gen.value);
      UsableOfThree(0, disk);
      SelectedMeans(run, Usable(run.lineage, 0, disk), ranked, next, from, o);
      NextOrdinals(o);
      BetterOfTwo(run, [Founder(0), Founder(1)], Founder(0), Founder(1), ranked, next, from, o);
    }
  }

  lemma SelectedMeans(run: BranchRun<History>, ok: seq<Record>, ranked: seq<Node>, next: seq<Node>, from: seq<nat>, o: nat)
    requires run.Selected(ok, Rerank(), ranked, next, from, o)
    ensures IsRecovered(o, run.lineage)
  {
  }

  // ----- the third session ----------------------------------------------------

  lemma ResumedFromOne(run: BranchRun<History>, next: seq<Node>, gen: Option<nat>, ranked: seq<Node>, from: seq<nat>, o: nat,
                       disk: map<Id, Checkpoint<History>>, live: seq<Record>)
    requires run.lineage == [Founder(0), Founder(1), Child(3), Child(4)] && FirstThree(disk) && run.children == 1 && run.keepTop >= 1
    requires gen.None? ==> forall g: nat :: !IsLastUsable(g, run.lineage, disk)
    requires gen.Some? ==> run.Resumed(gen.value, next, disk, live)
    requires gen.Some? ==> run.Selected(Usable(run.lineage, gen.value, disk), Rerank(), ranked, next, from, o)
    ensures gen == Some(1) && next != [] && next[0].plan == Grandchild().plan
    ensures |ranked| == 2 && ranked[0].plan.id == ranked[1].plan.id == Searched(1, 0)
  {
    hide IsLastUsable, BranchRun.Selected;
    ResumesAtOne(disk, 1);
    if gen.Some? {
      ResumesAtOne(disk, gen.value);
      UsableOfFour(1, disk);
      SelectedMeans(run, Usable(run.lineage, 1, disk), ranked, next, from, o);
      NextOrdinals(o);
      ChildIs(3);
      ChildIs(4);
      BetterOfTwo(run, [Child(3), Child(4)], Child(3), Child(4), ranked, next, from, o);
      assert ranked[0].Entry().plan == Child(3).plan && ranked[1].Entry().plan == Child(4).plan;
    }
  }

  /** Node `g1n0` has two records and one checkpoint, the second one's.  A child of
      the first can start from it all the same. */
  lemma GrandchildStarts(run: BranchRun<History>)
    requires run.server == Rememberer() && run.WorldsAreTrue()
    requires Searched(1, 0) in run.checkpoints && Matches(Child(4).plan, Some(20), run.checkpoints[Searched(1, 0)])
    ensures
      var p, c := Grandchild().plan, run.checkpoints[Searched(1, 0)];
      && Startable(run.server, run.checkpoints, p) && run.server.time(LegStart(run.server, run.checkpoints, p)) == 20
      && Honest(run.server, c) && !Matches(Child(3).plan, Some(20), c)
  {
    GrandchildIs();
    ChildIs(3);
    ChildIs(4);
    var p, c := Grandchild().plan, run.checkpoints[Searched(1, 0)];
    RemembererIsPhysical();
    assert Honest(run.server, c);
    RebuiltTime(run.server, c.base, c.schedule, c.gametime);
    hide Rebuild, Possible, ChildPlan, Truthful, Honest;
    assert run.server.resume(c.world, p.reseed) == Reseeded(c.world, p.reseed);
    assert Child(3).plan.schedule[0] != Child(4).plan.schedule[0];
  }

  /** The grandchild's record does not describe the world it was written over. */
  lemma GrandchildIsUntrue(s: Server<History>, cps: map<Id, Checkpoint<History>>, r: Record, world: Option<History>)
    requires s == Rememberer() && r == Grandchild() && Told(s, cps, r, world)
    requires Searched(1, 0) in cps && Honest(s, cps[Searched(1, 0)]) && !Matches(Child(3).plan, Some(20), cps[Searched(1, 0)])
    ensures world.Some? && world.value != Rebuild(s, 1, r.plan.schedule, 30)
    ensures Possible(s, 1, r.plan.schedule, 30) && Replayable(r.plan.schedule, 30)
  {
    GrandchildIs();
    GrandchildIsPossible();
    ChildIs(3);
    RemembererIsPhysical();
    RemembererRemembers();
    ChildIsTrueExactly(s, cps, Child(3), r, world);
  }

  /** Killed and resumed once more, the search adopts a record whose checkpoint is
      another node's: the child is recorded as something it is not. */
  method ThirdSession(run: BranchRun<History>)
    requires Session(run, [Founder(0), Founder(1), Child(3), Child(4)], Child(4))
    modifies run
    ensures run.Valid() && run.LineageLawful([]) && run.server == Rememberer() && |run.made| == |run.lineage| == 5
    ensures run.lineage[4] == Grandchild() && run.made[4].Some? && !RecordedTrue(run.server, Grandchild(), run.made[4])
    ensures Searched(2, 0) in run.checkpoints && run.made[4].value == run.checkpoints[Searched(2, 0)].world
    ensures run.made[4].value != Rebuild(run.server, 1, Grandchild().plan.schedule, 30)
  {
    hide Truthful, Lawful, ChildPlan, AllGrounded, Usable, IsLastUsable, BranchRun.Resumed, BranchRun.Selected, Rememberer, Founder,
      Child, Grandchild, Startable, LegStart, Grounded, NamesIn, BranchRun.AdoptedMatch, BranchRun.AdoptedStand, BranchRun.Standing,
      BranchRun.NothingLost, BranchRun.LineageLawful, BranchRun.WorldsAreTrue, Rerank, AllNew, Planned, Honest, Rebuild, Possible,
      Replayable, Matches;
    var next, gen;
    ghost var ranked, from, o;
    ghost var disk, live := run.checkpoints, run.live;
    next, gen, ranked, from, o := run.ResumeNodes(Rerank());
    ResumedFromOne(run, next, gen, ranked, from, o, disk, live);
    NonePruned(run, ranked, disk);
    FourthIs();
    GrandchildStarts(run);
    RunFirst(run, next, 2);
    GrandchildIs();
    Counted(run);
    GrandchildIsUntrue(run.server, disk, Grandchild(), run.made[4]);
  }

  /** A replay of the record, with every leg working and landing on its target, ends
      at the recorded gametime in another world. */
  method AdoptsAnotherWorld() returns (run: BranchRun<History>, replay: BranchRun<History>, id: Id)
    ensures run.Valid() && run.LineageLawful([]) && |run.made| == |run.lineage| == 5
    ensures
      var r := run.lineage[4];
      && !r.error && r.final == Some(30) && run.made[4].Some?
      && r.plan.id in run.checkpoints && run.made[4].value == run.checkpoints[r.plan.id].world
      && !RecordedTrue(run.server, r, run.made[4])
      && replay.server == run.server && id == Replayed(r.plan.id, |r.plan.schedule|) && id in replay.checkpoints
      && replay.checkpoints[id].gametime == 30
      && replay.checkpoints[id].world == Rebuild(replay.server, r.plan.base, r.plan.schedule, 30)
      && replay.checkpoints[id].world != run.made[4].value
  {
    hide Rememberer, Founder, Child, Grandchild, Rebuild, Possible, AllWell, Replayable, RecordedTrue, Session,
      BranchRun.LineageLawful;
    run := FirstSession();
    SecondSession(run);
    ThirdSession(run);
    FourthIs();
    GrandchildIs();
    GrandchildIsPossible();
    replay := Launch(2);
    AlwaysWell();
    var end;
    end, id := replay.Replay(run.lineage[4], _ => Luck(true, true, Completes(OnTarget, 0)));
  }

  lemma FourthIs()
    ensures Child(4).final == Some(20) && Grandchild() == Record(Grandchild().plan, Some(30), 10, false)
    ensures Grandchild().plan.gen == 2
  {
  }

  lemma Counted(run: BranchRun<History>)
    requires run.LineageLawful([])
    ensures |run.made| == |run.lineage|
  {
  }

  lemma AlwaysWell()
    ensures AllWell(_ => Luck(true, true, Completes(OnTarget, 0)))
  {
  }

  /** The same search, resumed to keep one node instead of two: it keeps the first
      record of `g1n0`, prunes the second, and with it the checkpoint of both.
      What it has planned cannot start. */
  method PrunesItsParent() returns (run: BranchRun<History>, next: seq<Node>)
    ensures run.Valid() && next != [] && next[0].plan == Grandchild().plan
    ensures next[0].plan.parent == Some(Searched(1, 0)) && Searched(1, 0) !in run.checkpoints
    ensures !Startable(run.server, run.checkpoints, next[0].plan)
  {
    hide Truthful, Lawful, ChildPlan, AllGrounded, Usable, IsLastUsable, BranchRun.Resumed, BranchRun.Selected, Rememberer, Founder,
      Child, Grandchild, BranchRun.AdoptedMatch, BranchRun.AdoptedStand, BranchRun.Standing, BranchRun.NothingLost, Rerank, AllNew,
      Planned;
    var wide := FirstSession();
    SecondSession(wide);
    run := Launch(1);
    run.lineage, run.checkpoints, run.ordinal := wide.lineage, wide.checkpoints, wide.ordinal;
    run.made, run.live := wide.made, wide.live;
    ghost var disk, live := run.checkpoints, run.live;
    var gen;
    ghost var ranked, from, o;
    next, gen, ranked, from, o := run.ResumeNodes(Rerank());
    ResumedFromOne(run, next, gen, ranked, from, o, disk, live);
    GrandchildIs();
    KeptOnDisk(disk, ranked, 1, 0);
  }
}
