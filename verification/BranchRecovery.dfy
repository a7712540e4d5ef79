// Searches that were killed and resumed (branch.py): what is planned again.

module BranchRecovery {
  import opened Options
  import opened Decimals
  import opened BranchWorlds
  import opened BranchBeam
  import opened BranchSearch

  // ----- one ranking ----------------------------------------------------------

  lemma {:induction false} LexAntisymmetric(a: string, b: string)
    requires LexLeq(a, b) && LexLeq(b, a)
    ensures a == b
  {
    if a != "" {
      LexAntisymmetric(a[1..], b[1..]);
      assert a == [a[0]] + a[1..] && b == [b[0]] + b[1..];
    }
  }

  /** In one generation a node's name tells its number. */
  lemma TextTells(a: Id, b: Id)
    requires a.Searched? && b.Searched? && a.gen == b.gen && Text(a) == Text(b)
    ensures a == b
  {
    var head := "g" + PrintNat(a.gen) + "n";
    assert Text(a)[|head|..] == PrintNat(a.index) && Text(b)[|head|..] == PrintNat(b.index);
    PrintNatInjective(a.index, b.index);
  }

  predicate OfGen(rs: seq<Record>, gen: nat) {
    forall r :: r in rs ==> r.plan.id.Searched? && r.plan.id.gen == gen
  }

  predicate Sorted(rs: seq<Record>) {
    forall i, j :: 0 <= i < j < |rs| ==> RankedBefore(rs[i], rs[j])
  }

  lemma RankedTells(a: Record, b: Record)
    requires RankedBefore(a, b) && RankedBefore(b, a)
    requires a.plan.id.Searched? && b.plan.id.Searched? && a.plan.id.gen == b.plan.id.gen
    ensures a.plan.id == b.plan.id
  {
    LexAntisymmetric(Text(a.plan.id), Text(b.plan.id));
    TextTells(a.plan.id, b.plan.id);
  }

  lemma SameFirst(a: seq<Record>, b: seq<Record>, gen: nat)
    requires Sorted(a) && Sorted(b) && NamesDiffer(a) && a != [] && b != []
    requires OfGen(a, gen) && forall r :: r in a <==> r in b
    ensures a[0] == b[0]
  {
    hide RankedBefore;
    assert a[0] in b && b[0] in a;
    var i :| 0 <= i < |a| && a[i] == b[0];
    var j :| 0 <= j < |b| && b[j] == a[0];
    if i > 0 && j > 0 {
      RankedTells(a[0], b[0]);
    }
  }

  /** Records with different names can be ranked in one way only. */
  lemma {:induction false} RankedOnce(a: seq<Record>, b: seq<Record>, gen: nat)
    requires Sorted(a) && Sorted(b) && NamesDiffer(a) && NamesDiffer(b)
    requires OfGen(a, gen) && forall r :: r in a <==> r in b
    ensures a == b
  {
    assert a != [] ==> a[0] in a;
    assert b != [] ==> b[0] in b;
    if a != [] {
      SameFirst(a, b, gen);
      TailHas(a);
      TailHas(b);
      assert a == [a[0]] + a[1..] && b == [b[0]] + b[1..];
      hide RankedBefore;
      RankedOnce(a[1..], b[1..], gen);
    }
  }

  lemma TailHas(a: seq<Record>)
    requires a != [] && NamesDiffer(a)
    ensures forall r :: r in a[1..] <==> r in a && r != a[0]
  {
    forall r | r in a && r != a[0] ensures r in a[1..] {
      var i :| 0 <= i < |a| && a[i] == r;
      assert a[1..][i - 1] == r;
    }
  }

  // ----- one way to share out -------------------------------------------------

  /** The children of the first `n` places. */
  function Total(from: seq<nat>, n: nat): nat {
    if n == 0 then 0 else Total(from, n - 1) + ChildCount(from, n - 1)
  }

  lemma {:induction false} TotalMore(from: seq<nat>, a: nat, n: nat)
    ensures Total(from + [a], n) == Total(from, n) + if a < n then 1 else 0
  {
    if n > 0 {
      TotalMore(from, a, n - 1);
      CountMore(from, a);
    }
  }

  lemma {:induction false} TotalNone(n: nat)
    ensures Total([], n) == 0
  {
    if n > 0 {
      TotalNone(n - 1);
    }
  }

  lemma {:induction false} TotalIsAll(from: seq<nat>, n: nat)
    requires forall k :: 0 <= k < |from| ==> from[k] < n
    ensures Total(from, n) == |from|
  {
    if from == [] {
      TotalNone(n);
    } else {
      var front := from[..|from| - 1];
      assert from == front + [from[|from| - 1]];
      TotalMore(front, from[|from| - 1], n);
      TotalIsAll(front, n);
    }
  }

  lemma {:induction false} TotalGrows(f: seq<nat>, g: seq<nat>, n: nat)
    requires forall a :: 0 <= a < n ==> ChildCount(f, a) <= ChildCount(g, a)
    ensures Total(f, n) <= Total(g, n)
  {
    if n > 0 {
      TotalGrows(f, g, n - 1);
    }
  }

  lemma Fewer(f: seq<nat>, g: seq<nat>, n: nat)
    requires Even(f, n + 1) && Even(g, n + 1) && ChildCount(f, n) < ChildCount(g, n)
    ensures Total(f, n + 1) < Total(g, n + 1)
  {
    hide ChildCount;
    TotalGrows(f, g, n);
  }

  /** As many children in even shares are the same shares. */
  lemma {:induction false} EvenOnce(f: seq<nat>, g: seq<nat>, n: nat)
    requires Even(f, n) && Even(g, n) && Total(f, n) == Total(g, n)
    ensures forall a :: 0 <= a < n ==> ChildCount(f, a) == ChildCount(g, a)
  {
    hide ChildCount;
    if n > 0 {
      if ChildCount(f, n - 1) < ChildCount(g, n - 1) {
        Fewer(f, g, n - 1);
      } else if ChildCount(g, n - 1) < ChildCount(f, n - 1) {
        Fewer(g, f, n - 1);
      }
      EvenOnce(f, g, n - 1);
    }
  }

  lemma LastIsWorst(f: seq<nat>, a: nat)
    requires InOrder(f) && ChildCount(f, a) > 0
    ensures f != [] && a <= f[|f| - 1]
  {
    SomeChild(f, a);
    var i :| 0 <= i < |f| && f[i] == a;
  }

  lemma {:induction false} InOrderOnce(f: seq<nat>, g: seq<nat>)
    requires InOrder(f) && InOrder(g) && |f| == |g| && forall a: nat :: ChildCount(f, a) == ChildCount(g, a)
    ensures f == g
  {
    if f != [] {
      var x, y := f[|f| - 1], g[|g| - 1];
      var front, rest := f[..|f| - 1], g[..|g| - 1];
      assert f == front + [x] && g == rest + [y];
      CountMore(front, x);
      CountMore(rest, y);
      hide ChildCount;
      LastIsWorst(f, y);
      LastIsWorst(g, x);
      InOrderOnce(front, rest);
    }
  }

  lemma {:induction false} CountAbsent(f: seq<nat>, a: nat)
    requires a !in f
    ensures ChildCount(f, a) == 0
  {
    if f != [] {
      CountAbsent(f[..|f| - 1], a);
    }
  }

  /** The same number of children for the same number of parents comes out one way. */
  lemma SharedOnce(f: seq<nat>, g: seq<nat>, n: nat)
    requires |f| == |g| && InOrder(f) && InOrder(g) && Even(f, n) && Even(g, n)
    requires (forall k :: 0 <= k < |f| ==> f[k] < n) && (forall k :: 0 <= k < |g| ==> g[k] < n)
    ensures f == g
  {
    TotalIsAll(f, n);
    TotalIsAll(g, n);
    EvenOnce(f, g, n);
    forall a: nat ensures ChildCount(f, a) == ChildCount(g, a) {
      if a >= n {
        CountAbsent(f, a);
        CountAbsent(g, a);
      }
    }
    InOrderOnce(f, g);
  }

  /** The children of one ranking, planned at two values of the counter. */
  lemma PlansDiffer(ps: seq<Plan>, qs: seq<Plan>, parents: seq<Record>, from: seq<nat>, o: nat, c: nat)
    requires AreChildren(ps, parents, from, o) && AreChildren(qs, parents, from, c)
    ensures ps == qs <==> o == c || ps == []
  {
    if ps != [] && ps == qs {
      OrdinalRecovered(o + 1);
      OrdinalRecovered(c + 1);
      assert ps[0].reseed == Some(ChildSeed(o + 1)) && qs[0].reseed == Some(ChildSeed(c + 1));
    }
  }

  // ----- what is usable after a generation --------------------------------------

  lemma {:induction false} UsableConcat<W>(a: seq<Record>, b: seq<Record>, gen: nat, cps: map<Id, Checkpoint<W>>)
    ensures Usable(a + b, gen, cps) == Usable(a, gen, cps) + Usable(b, gen, cps)
  {
    if b == [] {
      assert a + b == a;
    } else {
      var front, r := b[..|b| - 1], b[|b| - 1];
      assert a + b == a + front + [r] && b == front + [r];
      UsableSnoc(a + front, r, gen, cps);
      UsableSnoc(front, r, gen, cps);
      UsableConcat(a, front, gen, cps);
      hide Usable;
    }
  }

  lemma {:induction false} UsableKeepsNames<W>(rs: seq<Record>, gen: nat, cps: map<Id, Checkpoint<W>>)
    requires NamesDiffer(rs)
    ensures NamesDiffer(Usable(rs, gen, cps))
  {
    if rs != [] {
      var n := |rs| - 1;
      UsableKeepsNames(rs[..n], gen, cps);
      forall e | e in Usable(rs[..n], gen, cps) ensures e.plan.id != rs[n].plan.id {
        assert e in rs[..n];
      }
      NamesSnoc(Usable(rs[..n], gen, cps), rs[n]);
    }
  }

  lemma {:induction false} OnceEach(rs: seq<Record>)
    requires NamesDiffer(rs)
    ensures forall r :: multiset(rs)[r] == if r in rs then 1 else 0
  {
    if rs != [] {
      var front, last := rs[..|rs| - 1], rs[|rs| - 1];
      OnceEach(front);
      assert rs == front + [last] && last !in front;
    }
  }

  lemma SameBag(a: seq<Record>, b: seq<Record>)
    requires NamesDiffer(a) && NamesDiffer(b) && forall r :: r in a <==> r in b
    ensures multiset(a) == multiset(b) && |a| == |b|
  {
    OnceEach(a);
    OnceEach(b);
    assert forall r :: multiset(a)[r] == multiset(b)[r];
    assert |multiset(a)| == |a| && |multiset(b)| == |b|;
  }

  /** Names of a generation are on disk as they were after the selection. */
  ghost predicate AsSelected<W>(gen: nat, cps: map<Id, Checkpoint<W>>, disk: map<Id, Checkpoint<W>>) {
    forall i: nat :: Searched(gen, i) in disk <==> Searched(gen, i) in cps
  }

  lemma PrunedAreGone<W>(cps: map<Id, Checkpoint<W>>, ranked: seq<Node>, k: nat, j: nat)
    requires k <= j < |ranked|
    ensures ranked[j].plan.id !in cps - NamesIn(ranked[k..])
  {
    assert ranked[k..][j - k] == ranked[j];
  }

  lemma KeptIsUsable<W>(ranked: seq<Node>, k: nat, j: nat, gen: nat, cps: map<Id, Checkpoint<W>>, disk: map<Id, Checkpoint<W>>)
    requires j < |ranked| && k <= |ranked| && DistinctIds(ranked) && ranked[j].plan.id in cps
    requires ranked[j].plan.id.Searched? && ranked[j].plan.id.gen == gen
    requires AsSelected(gen, cps - NamesIn(ranked[k..]), disk)
    ensures ranked[j].plan.id in disk <==> j < k
  {
    assert ranked[j].plan.id == Searched(gen, ranked[j].plan.id.index);
    if j < k {
      KeptOnDisk(cps, ranked, k, j);
    } else {
      PrunedAreGone(cps, ranked, k, j);
    }
  }

  /** Each ranked node is one of the generation's, and it is on disk if it was kept. */
  predicate KeptStay<W>(nodes: seq<Node>, ranked: seq<Node>, k: nat, disk: map<Id, Checkpoint<W>>)
    reads ranked
  {
    forall j :: 0 <= j < |ranked| ==> ranked[j] in nodes && !ranked[j].failed && (ranked[j].plan.id in disk <==> j < k)
  }

  lemma SurvivorLanded<W>(nodes: seq<Node>, n: Node, cps: map<Id, Checkpoint<W>>, gap: nat)
    requires AllLanded(Entries(nodes), cps, gap) && n in Survivors(nodes)
    ensures n in nodes && !n.failed && n.plan.id in cps
  {
    var i :| 0 <= i < |nodes| && nodes[i] == n;
    assert Landed(Entries(nodes)[i], cps, gap);
  }

  lemma SelectionStays<W>(nodes: seq<Node>, ranked: seq<Node>, k: nat, gen: nat, cps: map<Id, Checkpoint<W>>,
                          disk: map<Id, Checkpoint<W>>, gap: nat)
    requires AllLanded(Entries(nodes), cps, gap) && k <= |ranked| && DistinctIds(ranked)
    requires forall n :: n in ranked <==> n in Survivors(nodes)
    requires forall i :: 0 <= i < |nodes| ==> nodes[i].plan.id.Searched? && nodes[i].plan.id.gen == gen
    requires AsSelected(gen, cps - NamesIn(ranked[k..]), disk)
    ensures KeptStay(nodes, ranked, k, disk)
  {
    hide AllLanded, Survivors, AsSelected, NamesIn, DistinctIds;
    forall j | 0 <= j < |ranked| ensures ranked[j] in nodes && !ranked[j].failed && (ranked[j].plan.id in disk <==> j < k) {
      assert ranked[j] in ranked;
      SurvivorLanded(nodes, ranked[j], cps, gap);
      KeptIsUsable(ranked, k, j, gen, cps, disk);
    }
  }

  lemma UsableWasKept<W>(nodes: seq<Node>, ranked: seq<Node>, k: nat, gen: nat, disk: map<Id, Checkpoint<W>>, r: Record)
    requires KeptStay(nodes, ranked, k, disk) && k <= |ranked| && r in Usable(Entries(nodes), gen, disk)
    requires forall n :: n in ranked <==> n in Survivors(nodes)
    ensures r in Entries(ranked[..k])
  {
    hide Usable;
    var i :| 0 <= i < |nodes| && Entries(nodes)[i] == r;
    assert nodes[i] in Survivors(nodes);
    var j :| 0 <= j < |ranked| && ranked[j] == nodes[i];
    assert Entries(ranked[..k])[j] == r;
  }

  lemma KeptIsFound<W>(nodes: seq<Node>, ranked: seq<Node>, k: nat, gen: nat, disk: map<Id, Checkpoint<W>>, j: nat)
    requires KeptStay(nodes, ranked, k, disk) && j < k <= |ranked| && forall i :: 0 <= i < |nodes| ==> nodes[i].plan.gen == gen
    ensures ranked[j].Entry() in Usable(Entries(nodes), gen, disk)
  {
    hide Usable;
    assert ranked[j] in nodes;
    var i :| 0 <= i < |nodes| && nodes[i] == ranked[j];
    assert Entries(nodes)[i] == ranked[j].Entry();
  }

  /** Of a generation's nodes those are usable that were kept. */
  lemma KeptAreUsable<W>(nodes: seq<Node>, ranked: seq<Node>, k: nat, gen: nat, cps: map<Id, Checkpoint<W>>,
                         disk: map<Id, Checkpoint<W>>, gap: nat)
    requires Planned(nodes, gen) && AllLanded(Entries(nodes), cps, gap) && k <= |ranked| && DistinctIds(ranked)
    requires forall n :: n in ranked <==> n in Survivors(nodes)
    requires forall i :: 0 <= i < |nodes| ==> nodes[i].plan.id.Searched? && nodes[i].plan.id.gen == gen
    requires AsSelected(gen, cps - NamesIn(ranked[k..]), disk)
    ensures forall r :: r in Usable(Entries(nodes), gen, disk) <==> r in Entries(ranked[..k])
  {
    SelectionStays(nodes, ranked, k, gen, cps, disk, gap);
    hide AllLanded, AsSelected, NamesIn, Usable, Survivors, DistinctIds, KeptStay;
    forall r | r in Usable(Entries(nodes), gen, disk) ensures r in Entries(ranked[..k]) {
      UsableWasKept(nodes, ranked, k, gen, disk, r);
    }
    forall r | r in Entries(ranked[..k]) ensures r in Usable(Entries(nodes), gen, disk) {
      var j :| 0 <= j < k && Entries(ranked[..k])[j] == r;
      KeptIsFound(nodes, ranked, k, gen, disk, j);
    }
  }

  lemma EntryNames(nodes: seq<Node>)
    requires DistinctIds(nodes)
    ensures NamesDiffer(Entries(nodes))
  {
  }

  /** A resume finds the kept records of the generation, and those left over from before. */
  ghost predicate LeftBehind<W>(lineage: seq<Record>, disk: map<Id, Checkpoint<W>>, known: seq<Record>, parents: seq<Record>,
                                gen: nat)
  {
    var ok := Usable(lineage, gen, disk);
    && multiset(ok) == multiset(Usable(known, gen, disk)) + multiset(parents)
    && (Usable(known, gen, disk) == [] ==> NamesDiffer(ok))
  }

  /** After the selection, and whatever the next generation has added, the usable
      records of the generation are the kept ones and those left over from before. */
  lemma UsableAfterSelection<W>(known: seq<Record>, nodes: seq<Node>, added: seq<Record>, ranked: seq<Node>, k: nat, gen: nat,
                                cps: map<Id, Checkpoint<W>>, disk: map<Id, Checkpoint<W>>, gap: nat)
    requires Planned(nodes, gen) && AllLanded(Entries(nodes), cps, gap) && k <= |ranked| && DistinctIds(ranked)
    requires forall n :: n in ranked <==> n in Survivors(nodes)
    requires forall i :: 0 <= i < |nodes| ==> nodes[i].plan.id.Searched? && nodes[i].plan.id.gen == gen
    requires AsSelected(gen, cps - NamesIn(ranked[k..]), disk) && forall i :: 0 <= i < |added| ==> added[i].plan.gen != gen
    ensures LeftBehind(known + Entries(nodes) + added, disk, known, Entries(ranked[..k]), gen)
  {
    hide Usable, AllLanded, AsSelected, NamesIn, Entries, NamesDiffer, Survivors;
    UsableConcat(known + Entries(nodes), added, gen, disk);
    UsableConcat(known, Entries(nodes), gen, disk);
    NoneUsable(added, gen, disk);
    KeptAreUsable(nodes, ranked, k, gen, cps, disk, gap);
    EntryNames(nodes);
    UsableKeepsNames(Entries(nodes), gen, disk);
    EntryNames(ranked[..k]);
    SameBag(Usable(Entries(nodes), gen, disk), Entries(ranked[..k]));
    hide *;
    var left, kept := Usable(known, gen, disk), Usable(Entries(nodes), gen, disk);
    assert left + kept + [] == left + kept && (left == [] ==> left + kept == kept);
  }

  /** Nothing from before the generation is usable under its number, and no later one
      has two usable records. */
  ghost predicate Undisturbed<W>(known: seq<Record>, lineage: seq<Record>, gen: nat, disk: map<Id, Checkpoint<W>>) {
    Usable(known, gen, disk) == [] && forall g: nat :: g > gen ==> |Usable(lineage, g, disk)| < 2
  }

  lemma {:induction false} FewUsable<W>(rs: seq<Record>, gen: nat, cps: map<Id, Checkpoint<W>>)
    ensures |Usable(rs, gen, cps)| <= |rs|
  {
    if rs != [] {
      FewUsable(rs[..|rs| - 1], gen, cps);
    }
  }

  lemma {:induction false} NoneUsableAfter<W>(rs: seq<Record>, gen: nat, top: int, cps: map<Id, Checkpoint<W>>)
    requires UpTo(rs, top) && gen > top
    ensures Usable(rs, gen, cps) == []
  {
    if rs != [] {
      assert rs[|rs| - 1] in rs;
      NoneUsableAfter(rs[..|rs| - 1], gen, top, cps);
    }
  }

  /** A generation that is the first of its number is undisturbed until the next has
      recorded two nodes. */
  lemma FirstIsUndisturbed<W>(known: seq<Record>, nodes: seq<Record>, added: seq<Record>, gen: nat, disk: map<Id, Checkpoint<W>>)
    requires UpTo(known, gen - 1) && |added| < 2 && forall i :: 0 <= i < |nodes| ==> nodes[i].plan.gen == gen
    ensures Undisturbed(known, known + nodes + added, gen, disk)
  {
    NoneUsableAfter(known, gen, gen - 1, disk);
    forall g: nat | g > gen ensures |Usable(known + nodes + added, g, disk)| < 2 {
      UsableConcat(known + nodes, added, g, disk);
      UsableConcat(known, nodes, g, disk);
      NoneUsable(nodes, g, disk);
      NoneUsableAfter(known, g, gen - 1, disk);
      FewUsable(added, g, disk);
    }
  }

  // ----- killed and resumed -----------------------------------------------------

  /** The resume ranks by the recorded scores. */
  function RecordedRank(): Record -> int {
    (r: Record) => r.rank
  }

  lemma ElsewhereAsSelected<W>(next: seq<Node>, gen: nat, first: map<Id, Checkpoint<W>>, disk: map<Id, Checkpoint<W>>)
    requires Untouched(next, first, disk) && forall i :: 0 <= i < |next| ==> next[i].plan.id.Searched? && next[i].plan.id.gen != gen
    ensures AsSelected(gen, first, disk)
  {
  }

  lemma GoodNames(nodes: seq<Node>, gen: nat, ordinal: nat, gap: nat)
    requires Planned(nodes, gen) && forall p :: p in Plans(nodes) ==> GoodPlan(p, ordinal, gap)
    ensures forall i :: 0 <= i < |nodes| ==> nodes[i].plan.id.Searched? && nodes[i].plan.id.gen == gen
  {
    forall i | 0 <= i < |nodes| ensures nodes[i].plan.id.Searched? && nodes[i].plan.id.gen == gen {
      assert Plans(nodes)[i] in Plans(nodes);
    }
  }

  lemma RecordedNames<W(!new)>(run: BranchRun<W>, known: seq<Record>, nodes: seq<Node>, gen: nat)
    requires run.LineageLawful([]) && run.lineage == known + Entries(nodes) && Planned(nodes, gen)
    ensures forall i :: 0 <= i < |nodes| ==> nodes[i].plan.id.Searched? && nodes[i].plan.id.gen == gen
  {
    forall i | 0 <= i < |nodes| ensures nodes[i].plan.id.Searched? && nodes[i].plan.id.gen == gen {
      assert run.lineage[|known| + i] == Entries(nodes)[i];
      assert GoodRecord(Entries(nodes)[i], run.ordinal, run.gap);
    }
  }

  /** A resume that finds the kept records ranks them as they were ranked. */
  lemma AdoptsTheKept<W(!new)>(run: BranchRun<W>, ok: seq<Record>, ranked: seq<Node>, again: seq<Node>, from: seq<nat>, c: nat,
                               parents: seq<Record>, gen: nat)
    requires run.Selected(ok, RecordedRank(), ranked, again, from, c)
    requires multiset(ok) == multiset(parents) && NamesDiffer(ok) && NamesDiffer(parents)
    requires Sorted(parents) && OfGen(parents, gen) && |parents| <= run.keepTop
    ensures run.Kept(ranked) == ranked && Entries(ranked) == parents && DistinctIds(ranked)
  {
    hide AreChildren, ChildCount, InOrder, IsRecovered, RankedBefore, BranchRun.FairlyShared;
    assert |multiset(ok)| == |ok| && |multiset(parents)| == |parents|;
    forall r ensures r in parents <==> r in Entries(ranked) {
      assert r in parents <==> r in multiset(parents);
      assert r in ok <==> r in multiset(ok);
      if r in ok {
        assert r.(rank := RecordedRank()(r)) == r;
      }
      if r in Entries(ranked) {
        var a :| 0 <= a < |ranked| && ranked[a].Entry() == r;
        assert FromUsable(ranked[a].Entry(), ok, RecordedRank());
      }
    }
    EntryNames(ranked);
    OrderedIsSorted(ranked);
    RankedOnce(parents, Entries(ranked), gen);
  }

  lemma OrderedIsSorted(ranked: seq<Node>)
    requires Ordered(ranked)
    ensures Sorted(Entries(ranked))
  {
    hide RankedBefore;
  }

  /** `next` are the children of these parents, each given its share. */
  ghost predicate Bred<W(!new)>(run: BranchRun<W>, parents: seq<Record>, next: seq<Plan>, from: seq<nat>, o: nat, gen: nat) {
    && Sorted(parents) && NamesDiffer(parents) && OfGen(parents, gen) && |parents| <= run.keepTop
    && AreChildren(next, parents, from, o) && InOrder(from)
    && (parents != [] ==> |next| == run.BeamWidth() && Even(from, |parents|))
  }

  lemma RankedAre<W(!new)>(run: BranchRun<W>, alive: seq<Node>, ranked: seq<Node>, next: seq<Node>, from: seq<nat>, o: nat)
    requires run.Chosen(alive, ranked, next, from, o) && DistinctIds(alive)
    ensures DistinctIds(ranked) && |ranked| == |alive| && forall n :: n in ranked <==> n in alive
    ensures Ordered(ranked) && AreChildren(Plans(next), Entries(run.Kept(ranked)), from, o) && InOrder(from)
    ensures run.FairlyShared(ranked, next, from)
  {
    hide AreChildren, ChildCount, InOrder, Ordered, BranchRun.FairlyShared;
    assert |multiset(ranked)| == |ranked| && |multiset(alive)| == |alive|;
    assert forall n :: n in ranked <==> n in multiset(ranked);
    assert forall n :: n in alive <==> n in multiset(alive);
  }

  lemma KeptAreSorted<W(!new)>(run: BranchRun<W>, ranked: seq<Node>, gen: nat)
    requires DistinctIds(ranked) && Ordered(ranked)
    requires forall i :: 0 <= i < |ranked| ==> ranked[i].plan.id.Searched? && ranked[i].plan.id.gen == gen
    ensures
      var parents := Entries(run.Kept(ranked));
      Sorted(parents) && NamesDiffer(parents) && OfGen(parents, gen) && |parents| == AtMost(run.keepTop, |ranked|)
  {
    hide RankedBefore;
    EntryNames(run.Kept(ranked));
    OrderedIsSorted(run.Kept(ranked));
  }

  lemma KeptAre<W(!new)>(run: BranchRun<W>, nodes: seq<Node>, ranked: seq<Node>, next: seq<Node>, from: seq<nat>, o: nat, gen: nat)
    requires run.Chosen(Survivors(nodes), ranked, next, from, o) && Planned(nodes, gen)
    requires Survivors(nodes) != []
    requires forall i :: 0 <= i < |nodes| ==> nodes[i].plan.id.Searched? && nodes[i].plan.id.gen == gen
    ensures DistinctIds(ranked) && forall n :: n in ranked <==> n in Survivors(nodes)
    ensures forall n :: n in ranked ==> n in nodes
    ensures |run.Kept(ranked)| == AtMost(run.keepTop, |Survivors(nodes)|) <= |ranked|
    ensures run.Kept(ranked) == ranked[..|run.Kept(ranked)|]
    ensures Bred(run, Entries(run.Kept(ranked)), Plans(next), from, o, gen)
  {
    hide BranchRun.Chosen, AreChildren, ChildCount, InOrder, Ordered, Even, Sorted, NamesDiffer, OfGen;
    RankedAre(run, Survivors(nodes), ranked, next, from, o);
    hide DistinctIds;
    forall i | 0 <= i < |ranked| ensures ranked[i] in nodes {
      assert ranked[i] in Survivors(nodes);
    }
    KeptAreSorted(run, ranked, gen);
  }

  lemma BredMeans<W(!new)>(run: BranchRun<W>, parents: seq<Record>, next: seq<Plan>, from: seq<nat>, o: nat, gen: nat)
    requires Bred(run, parents, next, from, o, gen)
    ensures AreChildren(next, parents, from, o)
  {
  }

  lemma AddedLater(known: seq<Record>, after: seq<Record>, next: seq<Node>, gen: nat)
    requires AddsOnly(known, after, Plans(next)) && Planned(next, gen + 1)
    ensures known <= after && forall i :: 0 <= i < |after[|known|..]| ==> after[|known|..][i].plan.gen != gen
  {
  }

  lemma RanMeans<W(!new)>(run: BranchRun<W>, nodes: seq<Node>)
    requires run.Ran(nodes)
    ensures AllLanded(Entries(nodes), run.checkpoints, run.gap)
  {
  }

  /** The children planned again are those of the same parents, as many for each, with
      the ordinals the counter is at by then. */
  lemma PlannedAgain<W(!new)>(run: BranchRun<W>, ok: seq<Record>, next: seq<Plan>, from: seq<nat>, o: nat, reranked: seq<Node>,
                              again: seq<Node>, refrom: seq<nat>, c: nat, parents: seq<Record>, gen: nat)
    requires run.Selected(ok, RecordedRank(), reranked, again, refrom, c)
    requires multiset(ok) == multiset(parents) && NamesDiffer(ok) && parents != []
    requires Bred(run, parents, next, from, o, gen)
    ensures AreChildren(Plans(again), parents, from, c) && (Plans(again) == next <==> o == c || next == [])
  {
    AdoptsTheKept(run, ok, reranked, again, refrom, c, parents, gen);
    hide ChildCount, InOrder, Sorted, Even, NamesDiffer, ChildPlan, IsRecovered;
    SharedOnce(from, refrom, |parents|);
    PlansDiffer(next, Plans(again), parents, from, o, c);
  }

  /** The selection after `nodes`. */
  method Select<W(!new)>(run: BranchRun<W>, ghost known: seq<Record>, nodes: seq<Node>, gen: nat)
    returns (next: seq<Node>, ghost ranked: seq<Node>, ghost parents: seq<Record>, ghost from: seq<nat>)
    requires run.LineageLawful([]) && run.Lags(0)
    requires Planned(nodes, gen) && run.lineage == known + Entries(nodes) && run.Ran(nodes)
    requires Survivors(nodes) != []
    modifies run`ordinal, run`checkpoints
    ensures forall i :: 0 <= i < |next| ==> fresh(next[i])
    ensures AllNew(next) && Planned(next, gen + 1) && run.LineageLawful(Plans(next))
    ensures forall i :: 0 <= i < |next| ==> next[i].plan.id.Searched? && next[i].plan.id.gen == gen + 1
    ensures forall i :: 0 <= i < |nodes| ==> nodes[i].plan.id.Searched? && nodes[i].plan.id.gen == gen
    ensures AllLanded(Entries(nodes), old(run.checkpoints), run.gap)
    ensures DistinctIds(ranked) && forall n :: n in ranked <==> n in Survivors(nodes)
    ensures forall n :: n in ranked ==> n in nodes
    ensures |parents| == AtMost(run.keepTop, |Survivors(nodes)|) <= |ranked| && parents == Entries(ranked[..|parents|])
    ensures run.checkpoints == old(run.checkpoints) - NamesIn(ranked[|parents|..])
    ensures Bred(run, parents, Plans(next), from, old(run.ordinal), gen)
    ensures CountsOn(Plans(next), run.lineage, old(run.ordinal))
  {
    hide *;
    ghost var o := run.ordinal;
    run.LagsNone();
    RanMeans(run, nodes);
    RecordedNames(run, known, nodes, gen);
    run.SurvivorsAreCandidates(nodes, gen);
    next, ranked, from := run.NextGeneration(Survivors(nodes), gen);
    KeptAre(run, nodes, ranked, next, from, o, gen);
    parents := Entries(run.Kept(ranked));
    BredMeans(run, parents, Plans(next), from, o, gen);
    ChildrenCountOn(Plans(next), parents, from, o, run.lineage);
    assert Plans(next) + [] == Plans(next);
    run.PendingAreGood(next, []);
    GoodNames(next, gen + 1, run.ordinal, run.gap);
  }

  /** The generation after `nodes` is planned, and run until the search is killed, if
      it is. */
  method GoOn<W(!new)>(run: BranchRun<W>, ghost known: seq<Record>, nodes: seq<Node>, gen: nat, oracle: Oracle)
    returns (next: seq<Node>, ghost parents: seq<Record>, ghost from: seq<nat>)
    requires run.Valid() && Moves(oracle, run.gap) && run.LineageLawful([]) && run.Lags(0)
    requires Planned(nodes, gen) && run.lineage == known + Entries(nodes) && run.Ran(nodes)
    requires Survivors(nodes) != []
    modifies run
    ensures run.LineageLawful([]) && LeftBehind(run.lineage, run.checkpoints, known, parents, gen)
    ensures |parents| == AtMost(run.keepTop, |Survivors(nodes)|)
    ensures Bred(run, parents, Plans(next), from, old(run.ordinal), gen)
    ensures CountsOn(Plans(next), old(run.lineage), old(run.ordinal)) && AddsOnly(old(run.lineage), run.lineage, Plans(next))
  {
    hide *;
    ghost var start, made, live, cps := run.lineage, run.made, run.live, run.checkpoints;
    ghost var ranked;
    next, ranked, parents, from := Select(run, known, nodes, gen);
    ghost var first := run.checkpoints;
    ghost var best := ranked[..|parents|];
    assert forall n :: n in next ==> n !in nodes;
    assert forall i :: 0 <= i < |best| ==> best[i] !in next;
    assert parents == Entries(best);
    var killed := run.RunGeneration(next, gen + 1, oracle);
    assert parents == Entries(best);
    run.WrittenMeans(next, first, start, made, live);
    ElsewhereAsSelected(next, gen, first, run.checkpoints);
    AddedLater(start, run.lineage, next, gen);
    ghost var added := run.lineage[|start|..];
    assert run.lineage == known + Entries(nodes) + added;
    UsableAfterSelection(known, nodes, added, ranked, |parents|, gen, cps, run.checkpoints, run.gap);
  }

  /** With nothing left under its names and no later generation to go back to, a
      resume goes back to the generation exactly if two nodes of it were kept. */
  lemma GoesBack<W>(lineage: seq<Record>, disk: map<Id, Checkpoint<W>>, known: seq<Record>, parents: seq<Record>, gen: nat,
                    back: Option<nat>)
    requires LeftBehind(lineage, disk, known, parents, gen) && Undisturbed(known, lineage, gen, disk)
    requires back.None? ==> forall g: nat :: !IsLastUsable(g, lineage, disk)
    requires back.Some? ==> IsLastUsable(back.value, lineage, disk)
    ensures back == Some(gen) <==> |parents| >= 2
    ensures multiset(Usable(lineage, gen, disk)) == multiset(parents) && NamesDiffer(Usable(lineage, gen, disk))
  {
    hide NamesDiffer, Usable;
    var ok := Usable(lineage, gen, disk);
    assert |multiset(ok)| == |ok| && |multiset(parents)| == |parents|;
    if |parents| >= 2 {
      assert IsLastUsable(gen, lineage, disk);
      if back.Some? {
        LastIsOne(gen, back.value, lineage, disk);
      }
    }
  }

  lemma ResumedMeans<W(!new)>(run: BranchRun<W>, back: Option<nat>, again: seq<Node>, disk: map<Id, Checkpoint<W>>,
                              live: seq<Record>)
    requires back.Some? ==> run.Resumed(back.value, again, disk, live)
    ensures back.Some? ==> IsLastUsable(back.value, run.lineage, disk)
  {
  }

  lemma CounterIs<W(!new)>(run: BranchRun<W>, ok: seq<Record>, reranked: seq<Node>, again: seq<Node>, refrom: seq<nat>, c: nat,
                           start: seq<Record>, o: nat, next: seq<Plan>)
    requires run.Selected(ok, RecordedRank(), reranked, again, refrom, c)
    requires CountsOn(next, start, o) && AddsOnly(start, run.lineage, next)
    ensures c == o + (|run.lineage| - |start|) && (c == o <==> run.lineage == start)
  {
    hide IsRecovered, CountsOn, ChildCount, AreChildren, InOrder, Ordered, FromUsable;
    RecoveredExactly(start, o, next, run.lineage, c);
  }

  /** A resume after `next` was planned and some of its nodes were recorded.  If nothing
      else is usable under the generation's number, and no later generation is complete
      enough, it goes back to the generation exactly if the search keeps more than one
      node, and plans as many children of the same parents, with ordinals that follow
      those recorded: the very same nodes exactly if none of them had been recorded. */
  method ResumeAgain<W(!new)>(run: BranchRun<W>, ghost known: seq<Record>, gen: nat, ghost parents: seq<Record>,
                              ghost next: seq<Plan>, ghost from: seq<nat>, ghost o: nat, ghost start: seq<Record>)
    returns (again: seq<Node>, back: Option<nat>)
    requires run.LineageLawful([]) && LeftBehind(run.lineage, run.checkpoints, known, parents, gen)
    requires Bred(run, parents, next, from, o, gen) && CountsOn(next, start, o) && AddsOnly(start, run.lineage, next)
    modifies run
    ensures run.lineage == old(run.lineage)
    ensures Undisturbed(known, run.lineage, gen, old(run.checkpoints)) ==> (back == Some(gen) <==> |parents| >= 2)
    ensures Undisturbed(known, run.lineage, gen, old(run.checkpoints)) && |parents| >= 2 ==>
      && AreChildren(Plans(again), parents, from, o + (|run.lineage| - |start|))
      && (Plans(again) == next <==> run.lineage == start || next == [])
  {
    hide *;
    AddedAreFew(start, run.lineage, next);
    ghost var disk, live := run.checkpoints, run.live;
    ghost var reranked, refrom, c;
    again, back, reranked, refrom, c := run.ResumeNodes(RecordedRank());
    ResumedMeans(run, back, again, disk, live);
    if Undisturbed(known, run.lineage, gen, disk) {
      GoesBack(run.lineage, disk, known, parents, gen, back);
      if |parents| >= 2 {
        CounterIs(run, Usable(run.lineage, gen, disk), reranked, again, refrom, c, start, o, next);
        PlannedAgain(run, Usable(run.lineage, gen, disk), next, from, o, reranked, again, refrom, c, parents, gen);
      }
    }
  }

  /** A search that has run a generation for the first time plans the next, is killed
      before it has recorded two of its nodes, and is resumed: if it keeps more than one
      node it goes back to the generation, to the same parents and the same shares.  It
      plans the very same nodes exactly if none was recorded. */
  method KilledAndResumed<W(!new)>(run: BranchRun<W>, ghost known: seq<Record>, nodes: seq<Node>, gen: nat, oracle: Oracle)
    returns (next: seq<Node>, again: seq<Node>, back: Option<nat>, ghost parents: seq<Record>, ghost from: seq<nat>)
    requires run.Valid() && Moves(oracle, run.gap) && run.LineageLawful([]) && run.Lags(0)
    requires Planned(nodes, gen) && run.lineage == known + Entries(nodes) && run.Ran(nodes)
    requires |Survivors(nodes)| >= 2 && UpTo(known, gen - 1)
    modifies run
    ensures AddsOnly(old(run.lineage), run.lineage, Plans(next)) && AreChildren(Plans(next), parents, from, old(run.ordinal))
    ensures |run.lineage| < |old(run.lineage)| + 2 ==> (back == Some(gen) <==> run.keepTop >= 2)
    ensures |run.lineage| < |old(run.lineage)| + 2 && run.keepTop >= 2 ==>
      && AreChildren(Plans(again), parents, from, old(run.ordinal) + (|run.lineage| - |old(run.lineage)|))
      && (Plans(again) == Plans(next) <==> run.lineage == old(run.lineage) || next == [])
  {
    hide *;
    ghost var o, start := run.ordinal, run.lineage;
    FirstIs(nodes, gen);
    next, parents, from := GoOn(run, known, nodes, gen, oracle);
    AddedAreFew(start, run.lineage, Plans(next));
    BredMeans(run, parents, Plans(next), from, o, gen);
    ghost var added, disk := run.lineage[|start|..], run.checkpoints;
    if |added| < 2 {
      assert run.lineage == start + added;
      FirstIsUndisturbed(known, Entries(nodes), added, gen, disk);
    }
    again, back := ResumeAgain(run, known, gen, parents, Plans(next), from, o, start);
  }

  lemma FirstIs(nodes: seq<Node>, gen: nat)
    requires Planned(nodes, gen)
    ensures forall i :: 0 <= i < |nodes| ==> Entries(nodes)[i].plan.gen == gen
  {
  }
}
