// The branching search (branch.py): waves of nodes, the beam, pruning, killed and
// resumed runs, and replay.

module BranchSearch {
  import opened Options
  import opened Sequences
  import opened Division
  import opened BranchWorlds
  import opened BranchBeam

  // ----- what a run cannot decide ---------------------------------------------

  /** Where `goto` lands: on the target, or after some number of ticks. */
  datatype Landing = OnTarget | Off(ticked: nat)

  datatype Fate = TickFails | SaveFails(landing: Landing, rank: int) | Completes(landing: Landing, rank: int)

  /** Whether the first and the second attempt to boot and prepare a node work,
      and what becomes of its leg. */
  datatype Luck = Luck(first: bool, second: bool, fate: Fate)

  /** A search can be killed while a wave runs, after some of its nodes, or while
      the wave is written to the lineage. */
  datatype Kill = Lives | DiesRunning(ran: nat) | DiesRecording(written: nat)

  datatype Oracle = Oracle(width: nat -> nat, luck: (nat, nat) -> Luck, kill: (nat, nat) -> Kill, stop: nat -> bool)

  predicate AtLeast(landing: Landing, gap: nat) {
    landing.Off? ==> landing.ticked >= gap
  }

  /** Every leg that ends gets at least `gap` ticks. */
  ghost predicate Moves(o: Oracle, gap: nat) {
    forall g: nat, i: nat ::
      match o.luck(g, i).fate
      case TickFails => true
      case SaveFails(landing, _) => AtLeast(landing, gap)
      case Completes(landing, _) => AtLeast(landing, gap)
  }

  function Width(asked: nat): (c: nat)
    ensures c >= 1
  {
    if asked < 1 then 1 else asked
  }

  /** How many of `n` nodes a kill leaves recorded. */
  function RecordedBy(kill: Kill, n: nat): nat {
    match kill
    case Lives => n
    case DiesRunning(_) => 0
    case DiesRecording(written) => AtMost(written, n)
  }

  /** Wave `w` of a generation of `n` nodes is run and killed. */
  predicate WaveDies(o: Oracle, gen: nat, n: nat, w: nat) {
    w * Width(o.width(gen)) < n && o.kill(gen, w) != Lives
  }

  ghost predicate Dies(o: Oracle, gen: nat, n: nat) {
    exists w: nat :: WaveDies(o, gen, n, w)
  }

  /** The first wave that is killed. */
  ghost predicate DiesAt(o: Oracle, gen: nat, n: nat, w: nat) {
    WaveDies(o, gen, n, w) && forall v: nat :: v < w ==> o.kill(gen, v) == Lives
  }

  /** The records that a generation of `n` nodes killed in wave `w` leaves. */
  function RecordedUntil(o: Oracle, gen: nat, n: nat, w: nat): int {
    var c := Width(o.width(gen));
    w * c + RecordedBy(o.kill(gen, w), if w * c <= n then AtMost(c, n - w * c) else 0)
  }

  /** Every attempt works, and every leg lands on its target. */
  ghost predicate AllWell(luck: nat -> Luck) {
    forall i: nat :: luck(i).first && luck(i).fate.Completes? && luck(i).fate.landing.OnTarget?
  }

  /** A target of 0 reads as no target. */
  predicate Replayable(schedule: seq<Stop>, final: int) {
    final != 0 && forall i :: 0 <= i < |schedule| ==> schedule[i].gametime != 0
  }

  function AtMost(a: nat, b: nat): (m: nat)
    ensures m <= b && m <= a && (m == a || m == b)
  {
    if a < b then a else b
  }

  function Reached(start: int, target: int, landing: Landing): int {
    if landing.Off? then start + landing.ticked else if start < target then target else start
  }

  // ----- nodes ----------------------------------------------------------------

  class Node {
    const plan: Plan
    const ordinal: nat
    /** The gametime a replay's leg must end at. */
    const absTarget: Option<int>

    var final: Option<int>
    var rank: int
    var failed: bool

    constructor (plan: Plan, ordinal: nat, absTarget: Option<int>)
      ensures this.plan == plan && this.ordinal == ordinal && this.absTarget == absTarget
      ensures final.None? && rank == 0 && !failed
    {
      this.plan, this.ordinal, this.absTarget := plan, ordinal, absTarget;
      final, rank, failed := None, 0, false;
    }

    constructor Adopted(r: Record)
      ensures plan == r.plan && final == r.final && rank == r.rank && !failed
    {
      plan, ordinal, absTarget := r.plan, 0, None;
      final, rank, failed := r.final, r.rank, false;
    }

    function Entry(): Record
      reads this
    {
      Record(plan, final, rank, failed)
    }

    /** Not run yet. */
    predicate New()
      reads this
    {
      !failed && final.None?
    }
  }

  function Plans(nodes: seq<Node>): (ps: seq<Plan>)
    ensures |ps| == |nodes| && forall i :: 0 <= i < |ps| ==> ps[i] == nodes[i].plan
  {
    seq(|nodes|, i requires 0 <= i < |nodes| => nodes[i].plan)
  }

  function Entries(nodes: seq<Node>): (rs: seq<Record>)
    reads nodes
    ensures |rs| == |nodes| && forall i :: 0 <= i < |rs| ==> rs[i] == nodes[i].Entry()
  {
    seq(|nodes|, i requires 0 <= i < |nodes| reads nodes => nodes[i].Entry())
  }

  lemma EntriesConcat(a: seq<Node>, b: seq<Node>)
    ensures Entries(a + b) == Entries(a) + Entries(b)
  {
  }

  lemma EntriesExtend(nodes: seq<Node>, lo: nat, hi: nat, known: seq<Record>)
    requires lo <= hi <= |nodes|
    ensures known + Entries(nodes[..hi]) == known + Entries(nodes[..lo]) + Entries(nodes[lo..hi])
  {
    hide Entries;
    SlicesMeet(nodes, lo, hi);
    EntriesConcat(nodes[..lo], nodes[lo..hi]);
    Associates(known, Entries(nodes[..lo]), Entries(nodes[lo..hi]));
  }

  lemma SlicesMeet(nodes: seq<Node>, lo: nat, hi: nat)
    requires lo <= hi <= |nodes|
    ensures nodes[..hi] == nodes[..lo] + nodes[lo..hi]
  {
  }

  predicate AllNew(nodes: seq<Node>)
    reads nodes
  {
    forall i :: 0 <= i < |nodes| ==> nodes[i].New()
  }

  predicate DistinctIds(nodes: seq<Node>) {
    forall i, j :: 0 <= i < j < |nodes| ==> nodes[i].plan.id != nodes[j].plan.id
  }

  /** No record without an error has the name of one of the nodes. */
  predicate FreshNames(nodes: seq<Node>, lineage: seq<Record>) {
    forall i, r :: 0 <= i < |nodes| && r in lineage && !r.error ==> r.plan.id != nodes[i].plan.id
  }

  ghost predicate AllGrounded<W>(nodes: seq<Node>, cps: map<Id, Checkpoint<W>>) {
    forall i :: 0 <= i < |nodes| ==> Grounded(nodes[i].plan, cps)
  }

  /** What running a node does to the checkpoints. */
  ghost predicate LegEffect<W(!new)>(s: Server<W>, before: map<Id, Checkpoint<W>>, p: Plan, final: Option<int>, failed: bool,
                                     after: map<Id, Checkpoint<W>>)
  {
    if failed then after == before || after == before - {p.id}
    else
      && Startable(s, before, p) && final.Some? && final.value >= s.time(LegStart(s, before, p))
      && after == before[p.id := Checkpoint(s.run(LegStart(s, before, p), final.value), final.value, p.base, p.schedule)]
  }

  // ----- what one node keeps --------------------------------------------------

  /** A node that continues its parent's checkpoint makes the world its own record
      will describe, whatever checkpoint it replaces. */
  lemma LegKeepsTrue<W(!new)>(s: Server<W>, lineage: seq<Record>, before: map<Id, Checkpoint<W>>, made: seq<Option<W>>,
                              p: Plan, final: Option<int>, failed: bool, after: map<Id, Checkpoint<W>>)
    requires Physical(s) && Truthful(s, lineage, before, made) && Grounded(p, before)
    requires LegEffect(s, before, p, final, failed, after)
    ensures Truthful(s, lineage, after, made)
    ensures !failed ==> Matches(p, final, after[p.id])
  {
    if !failed {
      LegIsRebuilt(s, before, p, final.value);
    }
  }

  lemma RecordKeepsTrue<W(!new)>(s: Server<W>, lineage: seq<Record>, cps: map<Id, Checkpoint<W>>, made: seq<Option<W>>,
                                 r: Record, world: Option<W>)
    requires Truthful(s, lineage, cps, made)
    requires !r.error ==> r.plan.id in cps && Matches(r.plan, r.final, cps[r.plan.id]) && world == Some(cps[r.plan.id].world)
    ensures Truthful(s, lineage + [r], cps, made + [world])
  {
    var l, m := lineage + [r], made + [world];
    forall i | 0 <= i < |l| && !l[i].error ensures RecordedTrue(s, l[i], m[i]) {
      if i < |lineage| {
        assert l[i] == lineage[i];
      }
    }
  }

  lemma RecordKeepsLawful(lineage: seq<Record>, r: Record, rest: seq<Plan>, ordinal: nat, gap: nat)
    requires Lawful(lineage, [r.plan] + rest, ordinal, gap) && GoodRecord(r, ordinal, gap)
    ensures Lawful(lineage + [r], rest, ordinal, gap)
  {
    assert PlansOf(lineage + [r]) + rest == PlansOf(lineage) + ([r.plan] + rest);
    assert forall p :: p in rest ==> p in [r.plan] + rest;
  }

  lemma ForgetPending(lineage: seq<Record>, a: seq<Plan>, b: seq<Plan>, ordinal: nat, gap: nat)
    requires Lawful(lineage, a + b, ordinal, gap)
    ensures Lawful(lineage, a, ordinal, gap)
  {
    var all := PlansOf(lineage) + (a + b);
    assert forall i :: 0 <= i < |PlansOf(lineage) + a| ==> (PlansOf(lineage) + a)[i] == all[i];
    assert forall p :: p in a ==> p in a + b;
  }

  /** The nodes of one generation, planned and not run. */
  predicate Planned(nodes: seq<Node>, gen: nat) {
    DistinctIds(nodes) && forall i :: 0 <= i < |nodes| ==> nodes[i].plan.gen == gen && nodes[i].absTarget.None?
  }

  ghost predicate Untouched<W>(nodes: seq<Node>, before: map<Id, Checkpoint<W>>, after: map<Id, Checkpoint<W>>) {
    && (forall id :: id in before && (forall i :: 0 <= i < |nodes| ==> nodes[i].plan.id != id) ==>
        id in after && after[id] == before[id])
    && (forall id :: id in after && (forall i :: 0 <= i < |nodes| ==> nodes[i].plan.id != id) ==> id in before)
  }

  /** The node runs to its end. */
  predicate Succeeds<W(!new)>(s: Server<W>, cps: map<Id, Checkpoint<W>>, p: Plan, luck: Luck) {
    Startable(s, cps, p) && (luck.first || luck.second) && luck.fate.Completes?
  }

  /** The node fared as its luck has it, starting from what was on disk `before`. */
  ghost predicate AsDecided<W(!new)>(s: Server<W>, before: map<Id, Checkpoint<W>>, r: Record, luck: Luck, segment: nat,
                                     after: map<Id, Checkpoint<W>>)
  {
    && (!r.error <==> Succeeds(s, before, r.plan, luck))
    && (!r.error ==>
        var w := LegStart(s, before, r.plan);
        var end := Reached(s.time(w), s.time(w) + segment, luck.fate.landing);
        && r.final == Some(end) && r.rank == luck.fate.rank && r.plan.id in after
        && after[r.plan.id] == Checkpoint(s.run(w, end), end, r.plan.base, r.plan.schedule))
  }

  /** Siblings' legs change nothing for a node: none of them is its parent. */
  lemma StartsAlike<W(!new)>(s: Server<W>, nodes: seq<Node>, gen: nat, p: Plan, first: map<Id, Checkpoint<W>>,
                             before: map<Id, Checkpoint<W>>, ordinal: nat, gap: nat)
    requires Planned(nodes, gen) && p in Plans(nodes) && Untouched(nodes, first, before)
    requires forall q :: q in Plans(nodes) ==> GoodPlan(q, ordinal, gap)
    ensures Startable(s, first, p) <==> Startable(s, before, p)
    ensures Startable(s, first, p) ==> LegStart(s, first, p) == LegStart(s, before, p)
  {
    var i :| 0 <= i < |nodes| && Plans(nodes)[i] == p;
    ParentIsNoSibling(nodes, gen, i, ordinal, gap);
  }

  lemma DecidedAtFirst<W(!new)>(s: Server<W>, nodes: seq<Node>, gen: nat, r: Record, first: map<Id, Checkpoint<W>>,
                                before: map<Id, Checkpoint<W>>, luck: Luck, segment: nat, after: map<Id, Checkpoint<W>>,
                                ordinal: nat, gap: nat)
    requires Planned(nodes, gen) && r.plan in Plans(nodes) && Untouched(nodes, first, before)
    requires forall q :: q in Plans(nodes) ==> GoodPlan(q, ordinal, gap)
    requires AsDecided(s, before, r, luck, segment, after)
    ensures AsDecided(s, first, r, luck, segment, after)
  {
    StartsAlike(s, nodes, gen, r.plan, first, before, ordinal, gap);
    hide Startable, LegStart, Planned, Untouched, GoodPlan;
  }

  lemma StillDecided<W(!new)>(s: Server<W>, first: map<Id, Checkpoint<W>>, r: Record, luck: Luck, segment: nat, id: Id,
                              before: map<Id, Checkpoint<W>>, after: map<Id, Checkpoint<W>>)
    requires AsDecided(s, first, r, luck, segment, before) && SameBut(id, before, after) && r.plan.id != id
    ensures AsDecided(s, first, r, luck, segment, after)
  {
    hide Startable, LegStart;
  }

  /** A leg that completes is on disk, at least `gap` ticks after its start. */
  lemma DecidedLands<W(!new)>(s: Server<W>, before: map<Id, Checkpoint<W>>, r: Record, luck: Luck, segment: nat,
                              after: map<Id, Checkpoint<W>>, ordinal: nat, gap: nat)
    requires AsDecided(s, before, r, luck, segment, after) && GoodPlan(r.plan, ordinal, gap) && segment >= gap && Physical(s)
    requires luck.fate.Completes? ==> AtLeast(luck.fate.landing, gap)
    ensures Landed(r, after, gap)
  {
  }

  lemma DecidedIsTold<W(!new)>(s: Server<W>, before: map<Id, Checkpoint<W>>, r: Record, luck: Luck, segment: nat,
                               after: map<Id, Checkpoint<W>>, world: Option<W>)
    requires AsDecided(s, before, r, luck, segment, after)
    requires !r.error ==> r.plan.id in after && world == Some(after[r.plan.id].world)
    ensures Told(s, before, r, world)
  {
  }

  /** The leg of a node that did not fail is on disk, and it ended late enough. */
  predicate Landed<W>(r: Record, cps: map<Id, Checkpoint<W>>, gap: nat) {
    !r.error ==>
      r.plan.id in cps && Matches(r.plan, r.final, cps[r.plan.id]) && EndsBy(r.plan.schedule, cps[r.plan.id].gametime, gap)
  }

  /** Only the checkpoint of that name differs. */
  ghost predicate SameBut<W>(id: Id, before: map<Id, Checkpoint<W>>, after: map<Id, Checkpoint<W>>) {
    forall k :: k != id ==> (k in before <==> k in after) && (k in before ==> after[k] == before[k])
  }

  lemma StillGrounded<W>(id: Id, p: Plan, before: map<Id, Checkpoint<W>>, after: map<Id, Checkpoint<W>>)
    requires SameBut(id, before, after) && Grounded(p, before) && p.parent != Some(id)
    ensures Grounded(p, after)
  {
  }

  predicate AllLanded<W>(rs: seq<Record>, cps: map<Id, Checkpoint<W>>, gap: nat) {
    forall i :: 0 <= i < |rs| ==> Landed(rs[i], cps, gap)
  }

  /** The new records are those of the first of the plans, in order. */
  ghost predicate AddsOnly(before: seq<Record>, after: seq<Record>, ps: seq<Plan>) {
    && before <= after && |after| <= |before| + |ps|
    && forall k :: |before| <= k < |after| ==> after[k].plan == ps[k - |before|]
  }

  lemma AddedAreFew(before: seq<Record>, after: seq<Record>, ps: seq<Plan>)
    requires AddsOnly(before, after, ps)
    ensures before <= after && |after| <= |before| + |ps|
  {
  }

  lemma AddedAreOf(before: seq<Record>, after: seq<Record>, ps: seq<Plan>)
    requires AddsOnly(before, after, ps)
    ensures forall k :: |before| <= k < |after| ==> after[k].plan in ps
  {
  }

  lemma AddsEntries(before: seq<Record>, nodes: seq<Node>, k: nat)
    requires k <= |nodes|
    ensures AddsOnly(before, before + Entries(nodes)[..k], Plans(nodes))
  {
    var after := before + Entries(nodes)[..k];
    forall i | |before| <= i < |after| ensures after[i].plan == Plans(nodes)[i - |before|] {
      assert after[i] == Entries(nodes)[i - |before|];
    }
  }

  lemma AddsMore(a: seq<Record>, b: seq<Record>, c: seq<Record>, ps: seq<Plan>, hi: nat)
    requires AddsOnly(a, b, ps) && |b| - |a| <= hi <= |ps| && AddsOnly(b, c, ps[|b| - |a|..hi])
    ensures AddsOnly(a, c, ps)
  {
    forall k | |a| <= k < |c| ensures c[k].plan == ps[k - |a|] {
      if k < |b| {
        assert c[k] == b[k];
      }
    }
  }

  /** The new records' legs are on disk. */
  ghost predicate NewLanded<W>(before: seq<Record>, after: seq<Record>, cps: map<Id, Checkpoint<W>>, gap: nat) {
    before <= after && forall k :: |before| <= k < |after| ==> Landed(after[k], cps, gap)
  }

  /** The new records are of nodes number `lo` and on, and each says what its node's
      luck made of it, starting from `first`. */
  ghost predicate Fared<W(!new)>(s: Server<W>, segment: nat, first: map<Id, Checkpoint<W>>, before: seq<Record>, after: seq<Record>,
                                 gen: nat, lo: nat, o: Oracle, cps: map<Id, Checkpoint<W>>)
  {
    before <= after && forall k :: |before| <= k < |after| ==>
      AsDecided(s, first, after[k], o.luck(gen, lo + (k - |before|)), segment, cps)
  }

  /** What a node's luck made of it, whatever has become of its checkpoint. */
  ghost predicate Outcome<W(!new)>(s: Server<W>, first: map<Id, Checkpoint<W>>, r: Record, luck: Luck, segment: nat) {
    && (!r.error <==> Succeeds(s, first, r.plan, luck))
    && (!r.error ==>
        var start := s.time(LegStart(s, first, r.plan));
        r.final == Some(Reached(start, start + segment, luck.fate.landing)) && r.rank == luck.fate.rank)
  }

  ghost predicate Outcomes<W(!new)>(s: Server<W>, segment: nat, first: map<Id, Checkpoint<W>>, before: seq<Record>,
                                    after: seq<Record>, gen: nat, o: Oracle)
  {
    before <= after && forall k :: |before| <= k < |after| ==> Outcome(s, first, after[k], o.luck(gen, k - |before|), segment)
  }

  lemma FaredMeans<W(!new)>(s: Server<W>, segment: nat, first: map<Id, Checkpoint<W>>, before: seq<Record>, after: seq<Record>,
                            gen: nat, o: Oracle, cps: map<Id, Checkpoint<W>>)
    requires Fared(s, segment, first, before, after, gen, 0, o, cps)
    ensures Outcomes(s, segment, first, before, after, gen, o)
  {
    hide Startable, LegStart;
    forall k | |before| <= k < |after| ensures Outcome(s, first, after[k], o.luck(gen, k - |before|), segment) {
      assert AsDecided(s, first, after[k], o.luck(gen, 0 + (k - |before|)), segment, cps);
    }
  }

  /** How many of the nodes run to their ends. */
  ghost function Succeeding<W(!new)>(s: Server<W>, cps: map<Id, Checkpoint<W>>, ps: seq<Plan>, o: Oracle, gen: nat): nat {
    if ps == [] then 0
    else
      var n := |ps| - 1;
      Succeeding(s, cps, ps[..n], o, gen) + if Succeeds(s, cps, ps[n], o.luck(gen, n)) then 1 else 0
  }

  lemma {:induction false} SurvivorsAre<W(!new)>(s: Server<W>, segment: nat, first: map<Id, Checkpoint<W>>, nodes: seq<Node>,
                                                 gen: nat, o: Oracle)
    requires forall k :: 0 <= k < |nodes| ==> Outcome(s, first, nodes[k].Entry(), o.luck(gen, k), segment)
    ensures |Survivors(nodes)| == Succeeding(s, first, Plans(nodes), o, gen)
  {
    if nodes != [] {
      var n := |nodes| - 1;
      SurvivorsAre(s, segment, first, nodes[..n], gen, o);
      assert Plans(nodes)[..n] == Plans(nodes[..n]);
      assert Outcome(s, first, nodes[n].Entry(), o.luck(gen, n), segment);
    }
  }

  lemma SurvivorsOf<W(!new)>(s: Server<W>, segment: nat, first: map<Id, Checkpoint<W>>, known: seq<Record>, nodes: seq<Node>,
                             gen: nat, o: Oracle)
    requires Outcomes(s, segment, first, known, known + Entries(nodes), gen, o)
    ensures |Survivors(nodes)| == Succeeding(s, first, Plans(nodes), o, gen)
  {
    hide Outcome;
    forall k | 0 <= k < |nodes| ensures Outcome(s, first, nodes[k].Entry(), o.luck(gen, k), segment) {
      var i := |known| + k;
      assert (known + Entries(nodes))[i] == nodes[k].Entry();
      assert i - |known| == k;
    }
    SurvivorsAre(s, segment, first, nodes, gen, o);
  }

  /** One of two attempts works, and the leg is completed. */
  predicate Lucky(l: Luck) {
    (l.first || l.second) && l.fate.Completes?
  }

  predicate TwoLucky(o: Oracle, gen: nat, n: nat) {
    exists i, j :: 0 <= i < j < n && Lucky(o.luck(gen, i)) && Lucky(o.luck(gen, j))
  }

  /** No wave of a generation of `n` nodes is killed, and two nodes or more run to
      their ends. */
  ghost predicate Uneventful(o: Oracle, gen: nat, n: nat) {
    !Dies(o, gen, n) && TwoLucky(o, gen, n)
  }

  /** Every generation from `start` on is uneventful, and the search is not stopped
      before the last.  The first has `n` nodes, the later ones `width`. */
  ghost predicate Calm(o: Oracle, start: nat, generations: nat, n: nat, width: nat) {
    forall g: nat :: start <= g < generations ==> CalmAt(o, start, generations, n, width, g)
  }

  ghost predicate CalmAt(o: Oracle, start: nat, generations: nat, n: nat, width: nat, g: nat) {
    Uneventful(o, g, if g == start then n else width) && (g < generations - 1 ==> !o.stop(g))
  }

  /** How many nodes the generations before `g` have. */
  function NodesBefore(start: nat, g: nat, n: nat, width: nat): int {
    if g <= start then 0 else n + (g - start - 1) * width
  }

  predicate RecordAt(lineage: seq<Record>, from: nat, start: nat, n: nat, width: nat, g: nat, i: nat) {
    var k := from + NodesBefore(start, g, n, width) + i;
    0 <= k < |lineage| && lineage[k].plan.id == Searched(g, i)
  }

  /** After the first `from` records there is one for every node of every generation
      from `start` up to `g`, in order. */
  ghost predicate Filled(lineage: seq<Record>, from: nat, start: nat, g: nat, n: nat, width: nat) {
    && |lineage| == from + NodesBefore(start, g, n, width)
    && forall h: nat, i: nat :: start <= h < g && i < (if h == start then n else width) ==>
         RecordAt(lineage, from, start, n, width, h, i)
  }

  lemma FilledNone(lineage: seq<Record>, start: nat, g: nat, n: nat, width: nat)
    requires g <= start
    ensures Filled(lineage, |lineage|, start, g, n, width)
  {
  }

  lemma FilledMore(known: seq<Record>, after: seq<Record>, ps: seq<Plan>, from: nat, start: nat, g: nat, n: nat, width: nat)
    requires start <= g && Filled(known, from, start, g, n, width) && |ps| == (if g == start then n else width) && Named(ps, g)
    requires AddsOnly(known, after, ps) && |after| == |known| + |ps|
    ensures Filled(after, from, start, g + 1, n, width)
  {
    if g > start {
      TimesNext(g - start - 1, width);
    } else {
      NotNegative(0, width);
    }
    forall h: nat, i: nat | start <= h < g + 1 && i < (if h == start then n else width)
      ensures RecordAt(after, from, start, n, width, h, i)
    {
      if h < g {
        assert RecordAt(known, from, start, n, width, h, i);
      } else {
        assert after[|known| + i].plan == ps[|known| + i - |known|];
      }
    }
  }

  /** A node that continues a checkpoint which is what it says can start. */
  lemma GroundedStarts<W(!new)>(s: Server<W>, cps: map<Id, Checkpoint<W>>, p: Plan)
    requires Physical(s) && Grounded(p, cps) && (p.parent.Some? ==> Honest(s, cps[p.parent.value]))
    ensures Startable(s, cps, p)
  {
    if p.parent.Some? {
      var c := cps[p.parent.value];
      RebuiltTime(s, c.base, c.schedule, c.gametime);
    }
  }

  lemma {:induction false} LuckyOnesSucceed<W(!new)>(s: Server<W>, cps: map<Id, Checkpoint<W>>, ps: seq<Plan>, o: Oracle, gen: nat)
    requires forall k :: 0 <= k < |ps| ==> Startable(s, cps, ps[k])
    ensures TwoLucky(o, gen, |ps|) ==> Succeeding(s, cps, ps, o, gen) >= 2
    ensures (exists i :: 0 <= i < |ps| && Lucky(o.luck(gen, i))) ==> Succeeding(s, cps, ps, o, gen) >= 1
  {
    hide Startable;
    if ps != [] {
      LuckyOnesSucceed(s, cps, ps[..|ps| - 1], o, gen);
    }
  }

  /** The nodes of a generation are numbered. */
  predicate Named(ps: seq<Plan>, gen: nat) {
    forall k :: 0 <= k < |ps| ==> ps[k].id == Searched(gen, k)
  }

  lemma StillFared<W(!new)>(s: Server<W>, first: map<Id, Checkpoint<W>>, r: Record, luck: Luck, segment: nat,
                            before: map<Id, Checkpoint<W>>, after: map<Id, Checkpoint<W>>)
    requires AsDecided(s, first, r, luck, segment, before)
    requires r.plan.id in before ==> r.plan.id in after && after[r.plan.id] == before[r.plan.id]
    ensures AsDecided(s, first, r, luck, segment, after)
  {
    hide Startable, LegStart;
  }

  /** The records of a slice of the generation are written on top of those before it. */
  lemma FaredMore<W(!new)>(s: Server<W>, segment: nat, nodes: seq<Node>, gen: nat, lo: nat, hi: nat, o: Oracle,
                           first: map<Id, Checkpoint<W>>, b: map<Id, Checkpoint<W>>, c: map<Id, Checkpoint<W>>,
                           known: seq<Record>, soFar: seq<Record>, after: seq<Record>, ordinal: nat, gap: nat)
    requires lo <= hi <= |nodes| && Planned(nodes, gen) && forall q :: q in Plans(nodes) ==> GoodPlan(q, ordinal, gap)
    requires Untouched(nodes, first, b) && Untouched(nodes[lo..hi], b, c)
    requires AddsOnly(known, soFar, Plans(nodes)) && |soFar| == |known| + lo && AddsOnly(soFar, after, Plans(nodes)[lo..hi])
    requires Fared(s, segment, first, known, soFar, gen, 0, o, b) && Fared(s, segment, b, soFar, after, gen, lo, o, c)
    ensures Fared(s, segment, first, known, after, gen, 0, o, c)
  {
    hide GoodPlan, Untouched, AsDecided;
    forall k | |known| <= k < |after| ensures AsDecided(s, first, after[k], o.luck(gen, 0 + (k - |known|)), segment, c) {
      var i := k - |known|;
      assert after[k].plan == Plans(nodes)[i] == nodes[i].plan;
      if i < lo {
        assert after[k] == soFar[k];
        SliceKeeps(nodes, lo, hi, nodes[i].plan.id, b, c);
        StillFared(s, first, after[k], o.luck(gen, i), segment, b, c);
      } else {
        assert lo + (k - |soFar|) == i;
        DecidedAtFirst(s, nodes, gen, after[k], first, b, o.luck(gen, i), segment, c, ordinal, gap);
      }
    }
  }

  /** The new records are of legs that started from `first`. */
  ghost predicate NewTold<W(!new)>(s: Server<W>, first: map<Id, Checkpoint<W>>, before: seq<Record>, after: seq<Record>,
                                   made: seq<Option<W>>)
  {
    before <= after && |made| == |after| && forall k :: |before| <= k < |after| ==> Told(s, first, after[k], made[k])
  }

  /** Every record of the wave from number `n` on is of a leg that started from `first`. */
  lemma ToldMore<W(!new)>(s: Server<W>, nodes: seq<Node>, gen: nat, first: map<Id, Checkpoint<W>>, before: map<Id, Checkpoint<W>>,
                          a: seq<Record>, b: seq<Record>, c: seq<Record>, madeB: seq<Option<W>>, madeC: seq<Option<W>>,
                          ordinal: nat, gap: nat)
    requires Planned(nodes, gen) && Untouched(nodes, first, before)
    requires forall q :: q in Plans(nodes) ==> GoodPlan(q, ordinal, gap)
    requires NewTold(s, first, a, b, madeB) && NewTold(s, before, b, c, madeC) && madeB <= madeC
    requires forall k :: |b| <= k < |c| ==> c[k].plan in Plans(nodes)
    ensures NewTold(s, first, a, c, madeC)
  {
    hide GoodPlan, Startable, LegStart, Untouched, Planned;
    forall k | |a| <= k < |c| ensures Told(s, first, c[k], madeC[k]) {
      if k < |b| {
        assert c[k] == b[k] && madeC[k] == madeB[k];
      } else {
        StartsAlike(s, nodes, gen, c[k].plan, first, before, ordinal, gap);
      }
    }
  }

  lemma LandedMore<W>(a: seq<Record>, rs: seq<Record>, c: seq<Record>, cps: map<Id, Checkpoint<W>>, gap: nat)
    requires AllLanded(rs, cps, gap) && NewLanded(a + rs, c, cps, gap)
    ensures NewLanded(a, c, cps, gap)
  {
    hide Landed;
    forall k | |a| <= k < |c| ensures Landed(c[k], cps, gap) {
      if k < |a| + |rs| {
        assert c[k] == (a + rs)[k] == rs[k - |a|];
      }
    }
  }

  lemma ParentIsNoSibling(nodes: seq<Node>, gen: nat, i: nat, ordinal: nat, gap: nat)
    requires Planned(nodes, gen) && i < |nodes|
    requires forall p :: p in Plans(nodes) ==> GoodPlan(p, ordinal, gap)
    ensures nodes[i].plan.parent.Some? ==> forall j :: 0 <= j < |nodes| ==> nodes[j].plan.id != nodes[i].plan.parent.value
  {
    assert Plans(nodes)[i] in Plans(nodes);
    forall j | 0 <= j < |nodes| && nodes[i].plan.parent.Some? ensures nodes[j].plan.id != nodes[i].plan.parent.value {
      assert Plans(nodes)[j] in Plans(nodes);
    }
  }

  lemma AllStillGrounded<W>(nodes: seq<Node>, gen: nat, i: nat, before: map<Id, Checkpoint<W>>, after: map<Id, Checkpoint<W>>,
                            ordinal: nat, gap: nat)
    requires Planned(nodes, gen) && i < |nodes| && SameBut(nodes[i].plan.id, before, after) && AllGrounded(nodes, before)
    requires forall p :: p in Plans(nodes) ==> GoodPlan(p, ordinal, gap)
    ensures AllGrounded(nodes, after)
  {
    hide GoodPlan;
    forall j | 0 <= j < |nodes| ensures Grounded(nodes[j].plan, after) {
      ParentIsNoSibling(nodes, gen, j, ordinal, gap);
      StillGrounded(nodes[i].plan.id, nodes[j].plan, before, after);
    }
  }

  lemma UntouchedAtFirst<W>(nodes: seq<Node>, a: map<Id, Checkpoint<W>>)
    ensures Untouched(nodes, a, a)
  {
  }

  lemma StillUntouched<W>(nodes: seq<Node>, i: nat, a: map<Id, Checkpoint<W>>, b: map<Id, Checkpoint<W>>, c: map<Id, Checkpoint<W>>)
    requires Untouched(nodes, a, b) && i < |nodes| && SameBut(nodes[i].plan.id, b, c)
    ensures Untouched(nodes, a, c)
  {
  }

  // ----- slices of a generation -----------------------------------------------

  lemma SliceIsPlanned(nodes: seq<Node>, gen: nat, lo: nat, hi: nat)
    requires Planned(nodes, gen) && lo <= hi <= |nodes|
    ensures Planned(nodes[lo..hi], gen)
  {
  }

  lemma SliceIsNew(nodes: seq<Node>, lo: nat, hi: nat)
    requires lo <= hi <= |nodes| && AllNew(nodes[lo..])
    ensures AllNew(nodes[lo..hi]) && AllNew(nodes[hi..])
  {
    assert forall i :: 0 <= i < hi - lo ==> nodes[lo..hi][i] == nodes[lo..][i];
    assert forall i :: 0 <= i < |nodes| - hi ==> nodes[hi..][i] == nodes[lo..][i + (hi - lo)];
  }

  lemma NotInSlice(nodes: seq<Node>, gen: nat, lo: nat, hi: nat)
    requires Planned(nodes, gen) && lo <= hi <= |nodes|
    ensures forall i :: 0 <= i < lo ==> nodes[i] !in nodes[lo..hi]
    ensures forall i :: 0 <= i < |nodes| - hi ==> nodes[hi..][i] !in nodes[lo..hi]
  {
  }

  lemma SliceIsReady<W>(nodes: seq<Node>, lo: nat, hi: nat, cps: map<Id, Checkpoint<W>>)
    requires lo <= hi <= |nodes| && AllGrounded(nodes, cps)
    ensures AllGrounded(nodes[lo..hi], cps)
  {
    hide Grounded;
    assert forall i :: 0 <= i < hi - lo ==> nodes[lo..hi][i] == nodes[lo..][i];
  }

  lemma SliceUntouched<W>(nodes: seq<Node>, lo: nat, hi: nat, a: map<Id, Checkpoint<W>>, b: map<Id, Checkpoint<W>>,
                          c: map<Id, Checkpoint<W>>)
    requires lo <= hi <= |nodes| && Untouched(nodes, a, b) && Untouched(nodes[lo..hi], b, c)
    ensures Untouched(nodes, a, c)
  {
    hide Untouched;
    forall id | forall i :: 0 <= i < |nodes| ==> nodes[i].plan.id != id
      ensures (id in a <==> id in c) && (id in a ==> c[id] == a[id])
    {
      SliceKeeps(nodes, lo, hi, id, b, c);
      OthersKept(nodes, a, b, id);
    }
    UntouchedIf(nodes, a, c);
  }

  lemma OthersKept<W>(nodes: seq<Node>, a: map<Id, Checkpoint<W>>, b: map<Id, Checkpoint<W>>, id: Id)
    requires Untouched(nodes, a, b) && forall i :: 0 <= i < |nodes| ==> nodes[i].plan.id != id
    ensures (id in a <==> id in b) && (id in a ==> b[id] == a[id])
  {
  }

  lemma UntouchedIf<W>(nodes: seq<Node>, a: map<Id, Checkpoint<W>>, b: map<Id, Checkpoint<W>>)
    requires forall id :: (forall i :: 0 <= i < |nodes| ==> nodes[i].plan.id != id) ==>
      (id in a <==> id in b) && (id in a ==> b[id] == a[id])
    ensures Untouched(nodes, a, b)
  {
  }

  lemma SliceKeeps<W>(nodes: seq<Node>, lo: nat, hi: nat, id: Id, b: map<Id, Checkpoint<W>>, c: map<Id, Checkpoint<W>>)
    requires lo <= hi <= |nodes| && Untouched(nodes[lo..hi], b, c)
    requires forall i :: lo <= i < hi ==> nodes[i].plan.id != id
    ensures id in b ==> id in c && c[id] == b[id]
    ensures id in c ==> id in b
  {
    assert forall i :: 0 <= i < hi - lo ==> nodes[lo..hi][i] == nodes[lo + i];
  }

  lemma SliceKeepsGrounded<W>(nodes: seq<Node>, gen: nat, lo: nat, hi: nat, b: map<Id, Checkpoint<W>>, c: map<Id, Checkpoint<W>>,
                              ordinal: nat, gap: nat)
    requires Planned(nodes, gen) && lo <= hi <= |nodes| && Untouched(nodes[lo..hi], b, c) && AllGrounded(nodes, b)
    requires forall p :: p in Plans(nodes) ==> GoodPlan(p, ordinal, gap)
    ensures AllGrounded(nodes, c)
  {
    hide GoodPlan, Untouched;
    forall j | 0 <= j < |nodes| ensures Grounded(nodes[j].plan, c) {
      ParentIsNoSibling(nodes, gen, j, ordinal, gap);
      assert Grounded(nodes[j].plan, b);
      if nodes[j].plan.parent.Some? {
        SliceKeeps(nodes, lo, hi, nodes[j].plan.parent.value, b, c);
      }
    }
  }

  lemma AllStillLanded<W>(nodes: seq<Node>, gen: nat, lo: nat, hi: nat, b: map<Id, Checkpoint<W>>, c: map<Id, Checkpoint<W>>, gap: nat)
    requires Planned(nodes, gen) && lo <= hi <= |nodes| && Untouched(nodes[lo..hi], b, c)
    requires AllLanded(Entries(nodes[..lo]), b, gap) && AllLanded(Entries(nodes[lo..hi]), c, gap)
    ensures AllLanded(Entries(nodes[..hi]), c, gap)
  {
    hide Untouched;
    forall i | 0 <= i < hi ensures Landed(nodes[i].Entry(), c, gap) {
      if i < lo {
        assert Entries(nodes[..lo])[i] == nodes[i].Entry();
        SliceKeeps(nodes, lo, hi, nodes[i].plan.id, b, c);
      } else {
        assert Entries(nodes[lo..hi])[i - lo] == nodes[i].Entry();
      }
    }
  }

  lemma EarlierStillLanded<W>(nodes: seq<Node>, gen: nat, lo: nat, hi: nat, b: map<Id, Checkpoint<W>>,
                              c: map<Id, Checkpoint<W>>, gap: nat)
    requires Planned(nodes, gen) && lo <= hi <= |nodes| && Untouched(nodes[lo..hi], b, c)
    requires AllLanded(Entries(nodes[..lo]), b, gap)
    ensures AllLanded(Entries(nodes[..lo]), c, gap)
  {
    hide Untouched;
    forall i | 0 <= i < lo ensures Landed(nodes[i].Entry(), c, gap) {
      assert Entries(nodes[..lo])[i] == nodes[i].Entry();
      SliceKeeps(nodes, lo, hi, nodes[i].plan.id, b, c);
    }
  }

  // ----- the next generation --------------------------------------------------

  /** The plan of the `k`-th node of the next generation. */
  function ChildPlan(p: Plan, final: int, k: nat, ordinal: nat): Plan {
    var seed := ChildSeed(ordinal);
    Plan(Searched(p.gen + 1, k), p.gen + 1, p.base, Some(p.id), Some(seed), p.schedule + [Stop(final, seed)], Some(final))
  }

  /** `next[k]` is a child of `parents[from[k]]`, and ordinals follow on from `o`. */
  ghost predicate AreChildren(next: seq<Plan>, parents: seq<Record>, from: seq<nat>, o: nat) {
    && |from| == |next|
    && (forall i :: 0 <= i < |parents| ==> parents[i].final.Some?)
    && (forall k :: 0 <= k < |from| ==> from[k] < |parents|)
    && (forall k :: 0 <= k < |next| ==>
        next[k] == ChildPlan(parents[from[k]].plan, parents[from[k]].final.value, k, o + 1 + k))
  }

  lemma ChildPlanIsChild(r: Record, k: nat, o: nat)
    requires r.final.Some?
    ensures ChildOf(ChildPlan(r.plan, r.final.value, k, o), r)
  {
  }

  /** The children of a better parent come first. */
  predicate InOrder(from: seq<nat>) {
    forall i, j :: 0 <= i < j < |from| ==> from[i] <= from[j]
  }

  lemma {:induction false} SomeChild(from: seq<nat>, a: nat)
    requires ChildCount(from, a) > 0
    ensures a in from
  {
    var last := from[|from| - 1];
    if last != a {
      SomeChild(from[..|from| - 1], a);
    }
  }

  /** If the best parent has a child, it has the first. */
  lemma BestHasFirst(from: seq<nat>)
    requires InOrder(from) && ChildCount(from, 0) > 0
    ensures from != [] && from[0] == 0
  {
    SomeChild(from, 0);
    var i :| 0 <= i < |from| && from[i] == 0;
    if i > 0 {
      assert from[0] <= from[i];
    }
  }

  /** How many children a place of the beam has. */
  function ChildCount(from: seq<nat>, a: nat): nat {
    if from == [] then 0 else ChildCount(from[..|from| - 1], a) + if from[|from| - 1] == a then 1 else 0
  }

  /** No place has two children more than another, and no better place has fewer. */
  predicate Even(from: seq<nat>, places: nat) {
    forall a, b :: 0 <= a < b < places ==> ChildCount(from, b) <= ChildCount(from, a) <= ChildCount(from, b) + 1
  }

  lemma CountNone()
    ensures forall b :: ChildCount([], b) == 0
  {
  }

  lemma CountMore(from: seq<nat>, a: nat)
    ensures forall b :: ChildCount(from + [a], b) == ChildCount(from, b) + if b == a then 1 else 0
  {
    assert (from + [a])[..|from|] == from;
  }

  /** The nodes of the next generation planned so far. */
  ghost predicate Spawned(next: seq<Node>, parents: seq<Record>, from: seq<nat>, o: nat, gen: nat)
    reads next
  {
    AllNew(next) && Planned(next, gen + 1) && AreChildren(Plans(next), parents, from, o) && InOrder(from)
    && forall k :: 0 <= k < |next| ==> next[k].plan.id == Searched(gen + 1, k)
  }

  lemma ChildrenAreNamed(next: seq<Plan>, parents: seq<Record>, from: seq<nat>, o: nat, gen: nat)
    requires AreChildren(next, parents, from, o) && forall i :: 0 <= i < |parents| ==> parents[i].plan.gen == gen
    ensures Named(next, gen + 1) && (parents == [] ==> next == [])
  {
    assert from != [] ==> from[0] < |parents|;
  }

  lemma SpawnedNone(parents: seq<Record>, o: nat, gen: nat)
    requires forall i :: 0 <= i < |parents| ==> parents[i].final.Some?
    ensures Spawned([], parents, [], o, gen)
  {
  }

  lemma SpawnedMeans(next: seq<Node>, parents: seq<Record>, from: seq<nat>, o: nat, gen: nat)
    requires Spawned(next, parents, from, o, gen)
    ensures AllNew(next) && Planned(next, gen + 1) && AreChildren(Plans(next), parents, from, o) && InOrder(from)
  {
  }

  lemma SpawnedMore(next: seq<Node>, parents: seq<Record>, from: seq<nat>, o: nat, gen: nat, n: Node, a: nat)
    requires Spawned(next, parents, from, o, gen) && a < |parents| && parents[a].plan.gen == gen
    requires n.New() && n.absTarget.None? && forall b :: b in from ==> b <= a
    requires n.plan == ChildPlan(parents[a].plan, parents[a].final.value, |next|, o + 1 + |next|)
    ensures Spawned(next + [n], parents, from + [a], o, gen)
  {
    hide InOrder;
    var more := next + [n];
    assert Plans(more) == Plans(next) + [n.plan];
    StaysInOrder(from, a);
  }

  lemma StaysInOrder(from: seq<nat>, a: nat)
    requires InOrder(from) && forall b :: b in from ==> b <= a
    ensures InOrder(from + [a])
  {
    forall i | 0 <= i < |from| ensures from[i] <= a {
      assert from[i] in from;
    }
  }

  lemma ChildIsGood(r: Record, k: nat, o: nat, ordinal: nat, gap: nat)
    requires GoodRecord(r, ordinal, gap) && !r.error && ordinal < o
    ensures GoodPlan(ChildPlan(r.plan, r.final.value, k, o), o, gap)
  {
    var p := ChildPlan(r.plan, r.final.value, k, o);
    OrdinalRecovered(o);
    var n := |r.plan.schedule|;
    forall i | 0 <= i < n ensures p.schedule[i].gametime + (n - i) * gap <= p.schedule[n].gametime {
      assert (n - i) * gap == (n - 1 - i) * gap + gap;
      if i < n - 1 {
        assert r.plan.schedule[i].gametime + (n - 1 - i) * gap <= r.plan.schedule[n - 1].gametime;
      }
    }
  }

  lemma GoodForMore(p: Plan, ordinal: nat, more: nat, gap: nat)
    requires GoodPlan(p, ordinal, gap) && ordinal <= more
    ensures GoodPlan(p, more, gap)
  {
  }

  /** Children's reseeds are new, whatever the lineage holds. */
  lemma SpawnIsLawful(lineage: seq<Record>, parents: seq<Record>, next: seq<Plan>, from: seq<nat>, o: nat, gap: nat)
    requires Lawful(lineage, [], o, gap) && AreChildren(next, parents, from, o)
    requires forall i :: 0 <= i < |parents| ==> GoodRecord(parents[i], o, gap) && !parents[i].error
    ensures Lawful(lineage, next, o + |next|, gap)
  {
    forall k | 0 <= k < |next| ensures GoodPlan(next[k], o + |next|, gap) {
      ChildIsGood(parents[from[k]], k, o + 1 + k, o, gap);
      GoodForMore(next[k], o + 1 + k, o + |next|, gap);
    }
    forall r | r in lineage ensures GoodRecord(r, o + |next|, gap) {
      GoodForMore(r.plan, o, o + |next|, gap);
    }
    SpawnIsDistinct(lineage, parents, next, from, o, gap);
  }

  lemma SpawnIsDistinct(lineage: seq<Record>, parents: seq<Record>, next: seq<Plan>, from: seq<nat>, o: nat, gap: nat)
    requires Lawful(lineage, [], o, gap) && AreChildren(next, parents, from, o)
    ensures Distinct(PlansOf(lineage) + next)
  {
    var ps, known := PlansOf(lineage) + next, PlansOf(lineage) + [];
    forall i, j | 0 <= i < j < |ps| && ps[i].gen > 0 && ps[j].gen > 0 ensures ps[i].reseed != ps[j].reseed {
      if j < |lineage| {
        assert known[i] == ps[i] && known[j] == ps[j];
      } else {
        OrdinalRecovered(o + 1 + (j - |lineage|));
        if i < |lineage| {
          assert lineage[i] in lineage && GoodPlan(ps[i], o, gap);
        }
      }
    }
    forall i, j | 0 <= i < j < |ps| && ps[i].gen == 0 && ps[j].gen == 0 ensures ps[i].id != ps[j].id {
      if j < |lineage| {
        assert known[i] == ps[i] && known[j] == ps[j];
      }
    }
  }

  // ----- generation 0 ---------------------------------------------------------

  function FounderPlan(i: nat, seeds: seq<int>): Plan
    requires seeds != []
  {
    Plan(Searched(0, i), 0, seeds[i % |seeds|], None, None, [], None)
  }

  /** Founders take the base seeds in turn. */
  lemma FoundersTakeTurns(i: nat, seeds: seq<int>)
    requires seeds != []
    ensures i < |seeds| ==> FounderPlan(i, seeds).base == seeds[i]
    ensures FounderPlan(i + |seeds|, seeds).base == FounderPlan(i, seeds).base
  {
    ModAgain(i, |seeds|);
  }

  ghost predicate Founding(nodes: seq<Node>, seeds: seq<int>)
    requires seeds != []
    reads nodes
  {
    forall k :: 0 <= k < |nodes| ==> nodes[k].plan == FounderPlan(k, seeds) && nodes[k].New() && nodes[k].absTarget.None?
  }

  lemma FoundersAreGood<W>(nodes: seq<Node>, seeds: seq<int>, ordinal: nat, gap: nat, cps: map<Id, Checkpoint<W>>)
    requires seeds != [] && Founding(nodes, seeds)
    ensures AllNew(nodes) && Planned(nodes, 0) && Lawful([], Plans(nodes), ordinal, gap)
    ensures AllGrounded(nodes, cps) && AllRooted(nodes, cps) && FreshNames(nodes, []) && UpTo([], 0)
  {
    hide Lawful, FounderPlan, Rooted, Grounded;
    forall i | 0 <= i < |nodes| ensures IsFounder(nodes[i].plan, i) {
      FounderIs(i, seeds);
    }
    FoundersAreLawful(Plans(nodes), ordinal, gap);
    forall i | 0 <= i < |nodes| ensures Grounded(nodes[i].plan, cps) && Rooted(nodes[i].plan, cps) {
      FounderStands(nodes[i].plan, i, cps);
    }
  }

  predicate IsFounder(p: Plan, i: nat) {
    p.id == Searched(0, i) && p.gen == 0 && p.parent.None? && p.reseed.None? && p.schedule == [] && p.resumeAt.None?
  }

  lemma FounderIs(i: nat, seeds: seq<int>)
    requires seeds != []
    ensures IsFounder(FounderPlan(i, seeds), i)
  {
  }

  lemma FounderStands<W>(p: Plan, i: nat, cps: map<Id, Checkpoint<W>>)
    requires IsFounder(p, i)
    ensures Grounded(p, cps) && Rooted(p, cps)
  {
  }

  lemma FoundersAreLawful(ps: seq<Plan>, ordinal: nat, gap: nat)
    requires forall i :: 0 <= i < |ps| ==> IsFounder(ps[i], i)
    ensures Lawful([], ps, ordinal, gap)
  {
    hide GoodPlan, Distinct;
    assert PlansOf([]) + ps == ps;
    FoundersDistinct(ps);
    forall i | 0 <= i < |ps| ensures GoodPlan(ps[i], ordinal, gap) {
      FounderIsGood(ps[i], i, ordinal, gap);
    }
  }

  lemma FoundersDistinct(ps: seq<Plan>)
    requires forall i :: 0 <= i < |ps| ==> IsFounder(ps[i], i)
    ensures Distinct(ps)
  {
  }

  lemma FounderIsGood(p: Plan, i: nat, ordinal: nat, gap: nat)
    requires IsFounder(p, i)
    ensures GoodPlan(p, ordinal, gap)
  {
  }

  // ----- what stays true over a generation ------------------------------------

  ghost predicate AllRooted<W>(nodes: seq<Node>, cps: map<Id, Checkpoint<W>>) {
    forall i :: 0 <= i < |nodes| ==> Rooted(nodes[i].plan, cps)
  }

  /** No record without an error is of a later generation. */
  ghost predicate UpTo(lineage: seq<Record>, gen: int) {
    forall r :: r in lineage && !r.error ==> r.plan.gen <= gen
  }

  /** Every good record of the generation before, and every new one, keeps its own
      checkpoint and its ancestors'. */
  lemma GenerationLosesNothing<W>(live: seq<Record>, added: seq<Record>, nodes: seq<Node>, gen: nat,
                                  a: map<Id, Checkpoint<W>>, b: map<Id, Checkpoint<W>>, ordinal: nat, gap: nat)
    requires Matched(live, a) && RecordsRooted(live, a) && UpTo(live, gen) && FreshNames(nodes, live)
    requires AllRooted(nodes, a) && Planned(nodes, gen) && Untouched(nodes, a, b)
    requires forall r :: r in added ==> r.plan in Plans(nodes) && Landed(r, b, gap)
    requires forall r :: r in live + added ==> GoodRecord(r, ordinal, gap)
    requires forall p :: p in Plans(nodes) ==> GoodPlan(p, ordinal, gap)
    ensures Matched(live + added, b) && RecordsRooted(live + added, b) && UpTo(live + added, gen) && AllRooted(nodes, b)
  {
    forall i | 0 <= i < |nodes| ensures Rooted(nodes[i].plan, b) {
      assert Plans(nodes)[i] in Plans(nodes);
      EarlierStay(nodes, gen, a, b, ordinal, gap);
      RootsStay(nodes[i].plan, a, b);
    }
    forall r | r in live + added && !r.error
      ensures r.plan.gen <= gen && (r.plan.id in b ==> Rooted(r.plan, b) && Matches(r.plan, r.final, b[r.plan.id]))
    {
      if r in added {
        var i :| 0 <= i < |nodes| && Plans(nodes)[i] == r.plan;
        assert Rooted(nodes[i].plan, b);
      } else if r.plan.id in b {
        OldRootsStay(r, nodes, gen, a, b, ordinal, gap);
      }
    }
  }

  lemma EarlierStay<W>(nodes: seq<Node>, gen: nat, a: map<Id, Checkpoint<W>>, b: map<Id, Checkpoint<W>>, ordinal: nat, gap: nat)
    requires Planned(nodes, gen) && Untouched(nodes, a, b)
    requires forall p :: p in Plans(nodes) ==> GoodPlan(p, ordinal, gap)
    ensures forall id :: id in a && id.Searched? && id.gen < gen ==> id in b && b[id] == a[id]
  {
    forall i | 0 <= i < |nodes| ensures nodes[i].plan.id.Searched? && nodes[i].plan.id.gen == gen {
      assert Plans(nodes)[i] in Plans(nodes);
    }
  }

  lemma OldRootsStay<W>(r: Record, nodes: seq<Node>, gen: nat, a: map<Id, Checkpoint<W>>, b: map<Id, Checkpoint<W>>, ordinal: nat,
                        gap: nat)
    requires GoodRecord(r, ordinal, gap) && r.plan.gen <= gen && r.plan.id in b && (r.plan.id in a ==> Rooted(r.plan, a))
    requires Planned(nodes, gen) && Untouched(nodes, a, b) && forall i :: 0 <= i < |nodes| ==> nodes[i].plan.id != r.plan.id
    requires forall p :: p in Plans(nodes) ==> GoodPlan(p, ordinal, gap)
    ensures Rooted(r.plan, b) && r.plan.id in a && b[r.plan.id] == a[r.plan.id]
  {
    EarlierStay(nodes, gen, a, b, ordinal, gap);
    RootsStay(r.plan, a, b);
  }

  function NamesIn(nodes: seq<Node>): set<Id> {
    set n | n in nodes :: n.plan.id
  }

  lemma PruningKeepsTrue<W>(s: Server<W>, lineage: seq<Record>, cps: map<Id, Checkpoint<W>>, made: seq<Option<W>>, gone: set<Id>)
    requires Truthful(s, lineage, cps, made)
    ensures Truthful(s, lineage, cps - gone, made)
  {
  }

  /** The children of what is kept continue checkpoints that are still there. */
  lemma SelectionGrounds<W>(cps: map<Id, Checkpoint<W>>, ranked: seq<Node>, k: nat, next: seq<Node>, from: seq<nat>, o: nat,
                            gap: nat)
    requires k <= |ranked| && OnDisk(ranked, cps, gap) && forall i :: 0 <= i < |ranked| ==> !ranked[i].failed
    requires AreChildren(Plans(next), Entries(ranked[..k]), from, o)
    ensures AllGrounded(next, cps - NamesIn(ranked[k..]))
  {
    var after := cps - NamesIn(ranked[k..]);
    forall c | 0 <= c < |next| ensures Grounded(next[c].plan, after) {
      var r := ranked[from[c]].Entry();
      assert Entries(ranked[..k])[from[c]] == r && Plans(next)[c] == next[c].plan;
      assert Landed(r, cps, gap);
      KeptOnDisk(cps, ranked, k, from[c]);
      ChildPlanIsChild(r, c, o + 1 + c);
      GroundedExactly(next[c].plan, r, after);
    }
  }

  /** A kept node's checkpoint survives the pruning exactly if no pruned node has
      its name. */
  lemma KeptOnDisk<W>(cps: map<Id, Checkpoint<W>>, ranked: seq<Node>, k: nat, a: nat)
    requires a < k <= |ranked| && ranked[a].plan.id in cps
    ensures ranked[a].plan.id in cps - NamesIn(ranked[k..]) <==>
      forall b :: k <= b < |ranked| ==> ranked[b].plan.id != ranked[a].plan.id
    ensures DistinctIds(ranked) ==> ranked[a].plan.id in cps - NamesIn(ranked[k..])
  {
    var id := ranked[a].plan.id;
    if b :| k <= b < |ranked| && ranked[b].plan.id == id {
      assert ranked[k..][b - k] == ranked[b] && ranked[b] in ranked[k..];
    } else {
      forall n | n in ranked[k..] ensures n.plan.id != id {
        var i :| 0 <= i < |ranked[k..]| && ranked[k..][i] == n;
        assert ranked[k + i] == n;
      }
    }
  }

  /** Pruning deletes no ancestor, and what is planned next has all of its own. */
  lemma SelectionKeeps<W>(live: seq<Record>, cps: map<Id, Checkpoint<W>>, ranked: seq<Node>, k: nat, next: seq<Node>,
                          from: seq<nat>, o: nat, gen: nat, ordinal: nat, gap: nat)
    requires Matched(live, cps) && RecordsRooted(live, cps) && UpTo(live, gen)
    requires forall r :: r in live ==> GoodRecord(r, ordinal, gap)
    requires k <= |ranked| && OnDisk(ranked, cps, gap) && Candidates(ranked, gen, ordinal, gap) && AllRooted(ranked, cps)
    requires AreChildren(Plans(next), Entries(ranked[..k]), from, o)
    ensures
      var after := cps - NamesIn(ranked[k..]);
      && Matched(live, after) && RecordsRooted(live, after) && AllRooted(next, after) && FreshNames(next, live)
  {
    var after := cps - NamesIn(ranked[k..]);
    forall i | 0 <= i < |ranked| ensures GoodPlan(ranked[i].plan, ordinal, gap) {
      assert GoodRecord(ranked[i].Entry(), ordinal, gap);
    }
    PruningSparesAncestors(live, cps, ranked, k, gen, ordinal, gap);
    SelectionGrounds(cps, ranked, k, next, from, o, gap);
    forall c | 0 <= c < |next| ensures Rooted(next[c].plan, after) && next[c].plan.gen == gen + 1 {
      ChildStands(cps, ranked, k, from[c], next[c].plan, c, o + 1 + c, gen, ordinal, gap);
    }
    assert FreshNames(next, live) by {
      forall i, r | 0 <= i < |next| && r in live && !r.error ensures r.plan.id != next[i].plan.id {
        assert GoodRecord(r, ordinal, gap);
        assert next[i].plan == Plans(next)[i];
      }
    }
  }

  lemma PruningSparesAncestors<W>(live: seq<Record>, cps: map<Id, Checkpoint<W>>, ranked: seq<Node>, k: nat, gen: nat,
                                  ordinal: nat, gap: nat)
    requires RecordsRooted(live, cps) && UpTo(live, gen) && forall r :: r in live ==> GoodRecord(r, ordinal, gap)
    requires k <= |ranked|
    requires forall i :: 0 <= i < |ranked| ==> ranked[i].plan.gen == gen && GoodPlan(ranked[i].plan, ordinal, gap)
    ensures forall id :: id in cps && id.Searched? && id.gen < gen ==> id in cps - NamesIn(ranked[k..])
    ensures RecordsRooted(live, cps - NamesIn(ranked[k..]))
  {
    var after := cps - NamesIn(ranked[k..]);
    forall r | r in live && !r.error && r.plan.id in after ensures Rooted(r.plan, after) {
      assert GoodRecord(r, ordinal, gap);
      RootsStay(r.plan, cps, after);
    }
  }

  /** A kept parent's child continues it, and has every ancestor the parent has. */
  lemma ChildStands<W>(cps: map<Id, Checkpoint<W>>, ranked: seq<Node>, k: nat, a: nat, p: Plan, c: nat, o: nat, gen: nat,
                       ordinal: nat, gap: nat)
    requires a < k <= |ranked| && OnDisk(ranked, cps, gap) && AllRooted(ranked, cps) && Candidates(ranked, gen, ordinal, gap)
    requires p == ChildPlan(ranked[a].plan, ranked[a].final.value, c, o) && Grounded(p, cps - NamesIn(ranked[k..]))
    requires forall id :: id in cps && id.Searched? && id.gen < gen ==> id in cps - NamesIn(ranked[k..])
    ensures Rooted(p, cps - NamesIn(ranked[k..]))
  {
    var after := cps - NamesIn(ranked[k..]);
    var parent := ranked[a].plan;
    assert GoodRecord(ranked[a].Entry(), ordinal, gap) && Landed(ranked[a].Entry(), cps, gap);
    RootsStay(parent, cps, after);
    ChildIsRooted(parent, p, after);
  }

  /** Nodes of generation `gen` that did not fail, as the lineage has them. */
  predicate Candidates(nodes: seq<Node>, gen: nat, ordinal: nat, gap: nat)
    reads nodes
  {
    forall i :: 0 <= i < |nodes| ==>
      nodes[i].plan.gen == gen && !nodes[i].failed && GoodRecord(nodes[i].Entry(), ordinal, gap)
  }

  /** ... and each with its own checkpoint on disk. */
  ghost predicate OnDisk<W>(nodes: seq<Node>, cps: map<Id, Checkpoint<W>>, gap: nat)
    reads nodes
  {
    DistinctIds(nodes) && forall i :: 0 <= i < |nodes| ==> Landed(nodes[i].Entry(), cps, gap)
  }

  lemma RankedKeeps<W>(alive: seq<Node>, ranked: seq<Node>, gen: nat, cps: map<Id, Checkpoint<W>>, ordinal: nat, gap: nat)
    requires multiset(ranked) == multiset(alive) && (DistinctIds(alive) ==> DistinctIds(ranked))
    requires Candidates(alive, gen, ordinal, gap)
    ensures |ranked| == |alive| && Candidates(ranked, gen, ordinal, gap)
    ensures OnDisk(alive, cps, gap) ==> OnDisk(ranked, cps, gap)
    ensures AllRooted(alive, cps) ==> AllRooted(ranked, cps)
    ensures forall n :: n in ranked <==> n in alive
  {
    hide GoodRecord, Landed, Rooted;
    assert forall n :: n in ranked <==> n in multiset(ranked);
    assert forall n :: n in alive <==> n in multiset(alive);
    assert |multiset(ranked)| == |ranked| && |multiset(alive)| == |alive|;
    forall i | 0 <= i < |ranked| ensures exists j :: 0 <= j < |alive| && alive[j] == ranked[i] {
      assert ranked[i] in multiset(alive);
    }
  }

  // ----- ranking --------------------------------------------------------------

  function Survivors(nodes: seq<Node>): (alive: seq<Node>)
    reads nodes
    ensures forall i :: 0 <= i < |alive| ==> alive[i] in nodes && !alive[i].failed
    ensures forall i :: 0 <= i < |nodes| && !nodes[i].failed ==> nodes[i] in alive
    ensures DistinctIds(nodes) ==> DistinctIds(alive)
  {
    if nodes == [] then []
    else
      var front, last := Survivors(nodes[..|nodes| - 1]), nodes[|nodes| - 1];
      if last.failed then front else front + [last]
  }

  predicate Ordered(nodes: seq<Node>)
    reads nodes
  {
    forall i, j :: 0 <= i < j < |nodes| ==> RankedBefore(nodes[i].Entry(), nodes[j].Entry())
  }

  lemma Inserted(out: seq<Node>, k: nat, n: Node)
    requires k <= |out| && Ordered(out)
    requires forall i :: 0 <= i < k ==> RankedBefore(out[i].Entry(), n.Entry())
    requires k < |out| ==> RankedBefore(n.Entry(), out[k].Entry())
    ensures Ordered(out[..k] + [n] + out[k..])
  {
    forall j | k <= j < |out| ensures RankedBefore(n.Entry(), out[j].Entry()) {
      if j > k {
        RankedTransitive(n.Entry(), out[k].Entry(), out[j].Entry());
      }
    }
  }

  lemma InsertedNames(out: seq<Node>, k: nat, n: Node)
    requires k <= |out| && DistinctIds(out) && forall e :: e in out ==> e.plan.id != n.plan.id
    ensures DistinctIds(out[..k] + [n] + out[k..])
  {
  }

  method Insert(out: seq<Node>, n: Node) returns (more: seq<Node>)
    requires Ordered(out)
    ensures Ordered(more) && multiset(more) == multiset(out) + multiset{n}
    ensures DistinctIds(out) && (forall e :: e in out ==> e.plan.id != n.plan.id) ==> DistinctIds(more)
  {
    hide RankedBefore;
    var k := 0;
    while k < |out| && RankedBefore(out[k].Entry(), n.Entry())
      invariant 0 <= k <= |out|
      invariant forall j :: 0 <= j < k ==> RankedBefore(out[j].Entry(), n.Entry())
    {
      k := k + 1;
    }
    if k < |out| {
      RankedTotal(out[k].Entry(), n.Entry());
    }
    Inserted(out, k, n);
    if DistinctIds(out) && forall e :: e in out ==> e.plan.id != n.plan.id {
      InsertedNames(out, k, n);
    }
    assert out == out[..k] + out[k..];
    more := out[..k] + [n] + out[k..];
  }

  /** The nodes, best rank first. */
  method Ranked(nodes: seq<Node>) returns (out: seq<Node>)
    ensures multiset(out) == multiset(nodes) && Ordered(out)
    ensures DistinctIds(nodes) ==> DistinctIds(out)
  {
    hide Ordered;
    OrderedNone();
    out := [];
    for i := 0 to |nodes|
      invariant multiset(out) == multiset(nodes[..i]) && Ordered(out)
      invariant DistinctIds(nodes) ==> DistinctIds(out)
    {
      var n := nodes[i];
      assert nodes[..i + 1] == nodes[..i] + [n];
      forall e | DistinctIds(nodes) && e in out ensures e.plan.id != n.plan.id {
        assert e in multiset(nodes[..i]);
      }
      out := Insert(out, n);
    }
    assert nodes[..|nodes|] == nodes;
  }

  lemma OrderedNone()
    ensures Ordered([])
  {
  }

  // ----- adopted records ------------------------------------------------------

  /** The usable records as nodes, ranked anew. */
  predicate Adopted(parents: seq<Node>, ok: seq<Record>, rerank: Record -> int)
    reads parents
  {
    |parents| == |ok| && forall i :: 0 <= i < |ok| ==>
      !ok[i].error && parents[i].Entry() == ok[i].(rank := rerank(ok[i]))
  }

  /** An adopted record with its rank. */
  predicate FromUsable(e: Record, ok: seq<Record>, rerank: Record -> int) {
    exists r :: r in ok && e == r.(rank := rerank(r))
  }

  predicate HasOrdinal(r: Record) {
    r.plan.reseed.Some? && r.plan.reseed.value != 0
  }

  /** The counter as the lineage has it: the number of records, or the largest
      ordinal among their reseeds. */
  predicate IsRecovered(o: nat, lineage: seq<Record>) {
    && o >= |lineage| && (forall r :: r in lineage && HasOrdinal(r) ==> OrdinalOf(r.plan.reseed.value) <= o)
    && (o == |lineage| || exists r :: r in lineage && HasOrdinal(r) && o == OrdinalOf(r.plan.reseed.value))
  }

  lemma CounterIsOne(o: nat, c: nat, lineage: seq<Record>)
    requires IsRecovered(o, lineage) && IsRecovered(c, lineage)
    ensures o == c
  {
  }

  /** The plans' ordinals follow on from the counter.  Founders take one each without
      a reseed to show it. */
  predicate CountsOn(ps: seq<Plan>, lineage: seq<Record>, o: nat) {
    && IsRecovered(o, lineage)
    && ((forall k :: 0 <= k < |ps| ==> ps[k].reseed == Some(ChildSeed(o + 1 + k)))
        || (o == |lineage| && forall k :: 0 <= k < |ps| ==> ps[k].reseed.None?))
  }

  lemma NewestCounts(known: seq<Record>, o: nat, ps: seq<Plan>, after: seq<Record>, k: nat)
    requires AddsOnly(known, after, ps) && |known| <= k < |after|
    requires ps[k - |known|].reseed == Some(ChildSeed(o + 1 + (k - |known|)))
    ensures HasOrdinal(after[k]) && OrdinalOf(after[k].plan.reseed.value) == o + 1 + (k - |known|)
  {
    OrdinalRecovered(o + 1 + (k - |known|));
  }

  /** What is read back is the ordinal of the last node recorded: the planned nodes
      that were not recorded are forgotten, and no others. */
  lemma RecoveredExactly(known: seq<Record>, o: nat, ps: seq<Plan>, after: seq<Record>, c: nat)
    requires CountsOn(ps, known, o) && AddsOnly(known, after, ps)
    ensures IsRecovered(c, after) <==> c == o + (|after| - |known|)
  {
    hide OrdinalOf, ChildSeed, HasOrdinal;
    var m := |after| - |known|;
    assert forall k :: 0 <= k < |known| ==> after[k] == known[k];
    if m == 0 {
      assert after == known;
    } else if forall k :: 0 <= k < |ps| ==> ps[k].reseed == Some(ChildSeed(o + 1 + k)) {
      forall k | |known| <= k < |after|
        ensures HasOrdinal(after[k]) && OrdinalOf(after[k].plan.reseed.value) == o + 1 + (k - |known|)
      {
        NewestCounts(known, o, ps, after, k);
      }
      assert after[|after| - 1] in after;
    } else {
      FoundersCountNone(known, ps, after);
    }
    assert IsRecovered(o + m, after);
    if IsRecovered(c, after) {
      CounterIsOne(o + m, c, after);
    }
  }

  lemma FoundersCountNone(known: seq<Record>, ps: seq<Plan>, after: seq<Record>)
    requires AddsOnly(known, after, ps) && forall k :: 0 <= k < |ps| ==> ps[k].reseed.None?
    ensures forall k :: |known| <= k < |after| ==> !HasOrdinal(after[k])
  {
  }

  lemma ChildrenCountOn(next: seq<Plan>, parents: seq<Record>, from: seq<nat>, o: nat, lineage: seq<Record>)
    requires AreChildren(next, parents, from, o) && IsRecovered(o, lineage)
    ensures CountsOn(next, lineage, o)
  {
    hide IsRecovered, ChildSeed;
  }

  lemma SomeRecord(rs: seq<Record>)
    requires rs != []
    ensures exists r :: r in rs
  {
    assert rs[0] in rs;
  }

  lemma NoneIsLast<W>(lineage: seq<Record>, cps: map<Id, Checkpoint<W>>)
    requires forall g: nat :: |Usable(lineage, g, cps)| < 2
    ensures forall g: nat :: !IsLastUsable(g, lineage, cps)
  {
  }

  lemma LastIsOne<W>(g: nat, h: nat, lineage: seq<Record>, cps: map<Id, Checkpoint<W>>)
    requires IsLastUsable(g, lineage, cps) && IsLastUsable(h, lineage, cps)
    ensures g == h
  {
  }

  lemma RecoveredIsLawful(lineage: seq<Record>, ordinal: nat, o: nat, gap: nat)
    requires Lawful(lineage, [], ordinal, gap)
    requires IsRecovered(o, lineage)
    ensures Lawful(lineage, [], o, gap)
  {
    forall r | r in lineage ensures GoodRecord(r, o, gap) {
      assert GoodRecord(r, ordinal, gap);
    }
  }

  // ----- the search -----------------------------------------------------------

  datatype Status = Finished | Killed | TooFew | NothingToResume

  class BranchRun<W(!new)> {
    const server: Server<W>
    const replicas: nat
    const keepTop: nat
    const children: nat
    const segment: nat
    const generations: nat
    const rngSeeds: seq<int>
    /** Every leg is known to get at least this many ticks. */
    ghost const gap: nat

    var ordinal: nat
    var lineage: seq<Record>
    var checkpoints: map<Id, Checkpoint<W>>
    /** The world that was checkpointed when each record was written. */
    ghost var made: seq<Option<W>>
    /** The records that no resume has superseded. */
    ghost var live: seq<Record>

    ghost predicate Valid() {
      Physical(server) && segment >= gap && rngSeeds != []
    }

    /** The lineage, and the nodes about to be run, are well formed. */
    ghost predicate LineageLawful(pending: seq<Plan>)
      reads `lineage, `ordinal, `made, `live
    {
      Lawful(lineage, pending, ordinal, gap) && |made| == |lineage| && forall r :: r in live ==> r in lineage
    }

    /** Checkpoints are what their meta files say, and records without an error
        were written over the world they describe. */
    ghost predicate WorldsAreTrue()
      reads `lineage, `checkpoints, `made
    {
      Truthful(server, lineage, checkpoints, made)
    }

    /** Every record that was not superseded matches the checkpoint kept under its
        name, and has its ancestors' checkpoints as long as it has its own. */
    ghost predicate NothingLost()
      reads `live, `checkpoints
    {
      Matched(live, checkpoints) && RecordsRooted(live, checkpoints)
    }

    constructor (server: Server<W>, replicas: nat, keepTop: nat, children: nat, segment: nat, generations: nat,
                 rngSeeds: seq<int>, ghost gap: nat)
      requires Physical(server) && segment >= gap && rngSeeds != []
      ensures Valid() && ordinal == 0 && lineage == [] && checkpoints == map[] && made == [] && live == []
      ensures this.server == server && this.gap == gap && this.segment == segment && this.rngSeeds == rngSeeds
      ensures this.replicas == replicas && this.keepTop == keepTop && this.children == children && this.generations == generations
      ensures LineageLawful([]) && WorldsAreTrue() && NothingLost()
    {
      this.server, this.replicas, this.keepTop, this.children := server, replicas, keepTop, children;
      this.segment, this.generations, this.rngSeeds, this.gap := segment, generations, rngSeeds, gap;
      ordinal, lineage, checkpoints, made, live := 0, [], map[], [], [];
    }

    method NextOrdinal() returns (o: nat)
      modifies this`ordinal
      ensures o == ordinal == old(ordinal) + 1
    {
      ordinal := ordinal + 1;
      o := ordinal;
    }

    // ----- one node -----------------------------------------------------------

    /** One attempt to boot a node and set it up or resume it. */
    method Start(p: Plan, works: bool) returns (w: Option<W>)
      ensures w.Some? <==> works && Startable(server, checkpoints, p)
      ensures w.Some? ==> w.value == LegStart(server, checkpoints, p)
    {
      if !works {
        return None;
      }
      if p.parent.None? {
        return Some(server.setup(p.base));
      }
      if p.parent.value !in checkpoints {
        return None;
      }
      var resumed := server.resume(checkpoints[p.parent.value].world, p.reseed);
      if p.resumeAt.Some? && server.time(resumed) != p.resumeAt.value {
        return None;
      }
      w := Some(resumed);
    }

    function Target(n: Node, start: int): int {
      if n.absTarget.Some? && n.absTarget.value != 0 then n.absTarget.value else start + segment
    }

    /** Tick the leg, read its scores and take its checkpoint. */
    method Advance(n: Node, w: W, fate: Fate)
      requires !n.failed
      modifies this`checkpoints, n
      ensures !n.failed <==> fate.Completes?
      ensures fate.TickFails? ==> n.final == old(n.final) && checkpoints == old(checkpoints)
      ensures fate.SaveFails? ==> checkpoints == old(checkpoints) - {n.plan.id}
      ensures !fate.TickFails? ==> n.rank == fate.rank
      ensures fate.Completes? ==>
        var end := Reached(server.time(w), Target(n, server.time(w)), fate.landing);
        n.final == Some(end)
        && checkpoints == old(checkpoints)[n.plan.id := Checkpoint(server.run(w, end), end, n.plan.base, n.plan.schedule)]
    {
      if fate.TickFails? {
        n.failed := true;
        return;
      }
      var end := Reached(server.time(w), Target(n, server.time(w)), fate.landing);
      n.final, n.rank := Some(end), fate.rank;
      checkpoints := checkpoints - {n.plan.id};
      if fate.SaveFails? {
        n.failed := true;
        return;
      }
      checkpoints := checkpoints[n.plan.id := Checkpoint(server.run(w, end), end, n.plan.base, n.plan.schedule)];
    }

    /** One node of a wave.  An attempt that does not work is retried once, except
        when the parent's checkpoint is not there to begin with. */
    method RunNode(n: Node, luck: Luck)
      requires n.New()
      modifies this`checkpoints, n
      ensures LegEffect(server, old(checkpoints), n.plan, n.final, n.failed, checkpoints)
      ensures SameBut(n.plan.id, old(checkpoints), checkpoints)
      ensures !n.failed <==> Succeeds(server, old(checkpoints), n.plan, luck)
      ensures !n.failed ==>
        var start := server.time(LegStart(server, old(checkpoints), n.plan));
        n.final == Some(Reached(start, Target(n, start), luck.fate.landing)) && n.rank == luck.fate.rank
    {
      if n.plan.parent.Some? && n.plan.parent.value !in checkpoints {
        n.failed := true;
        return;
      }
      var w := Start(n.plan, luck.first);
      if w.None? {
        w := Start(n.plan, luck.second);
      }
      if w.None? {
        n.failed := true;
        return;
      }
      Advance(n, w.value, luck.fate);
    }

    // ----- one wave -----------------------------------------------------------

    lemma NodeDecided(before: map<Id, Checkpoint<W>>, n: Node, luck: Luck)
      requires n.absTarget.None? && LegEffect(server, before, n.plan, n.final, n.failed, checkpoints)
      requires !n.failed <==> Succeeds(server, before, n.plan, luck)
      requires !n.failed ==>
        var start := server.time(LegStart(server, before, n.plan));
        n.final == Some(Reached(start, Target(n, start), luck.fate.landing)) && n.rank == luck.fate.rank
      ensures AsDecided(server, before, n.Entry(), luck, segment, checkpoints)
    {
    }

    /** The first `k` nodes fared as their luck had it. */
    ghost predicate LegsDecided(nodes: seq<Node>, k: nat, gen: nat, lo: nat, oracle: Oracle, first: map<Id, Checkpoint<W>>)
      requires k <= |nodes|
      reads `checkpoints, nodes
    {
      forall j :: 0 <= j < k ==> AsDecided(server, first, nodes[j].Entry(), oracle.luck(gen, lo + j), segment, checkpoints)
    }

    lemma DecidedMore(nodes: seq<Node>, i: nat, gen: nat, lo: nat, oracle: Oracle, first: map<Id, Checkpoint<W>>,
                      before: map<Id, Checkpoint<W>>)
      requires Planned(nodes, gen) && i < |nodes| && Untouched(nodes, first, before)
      requires forall p :: p in Plans(nodes) ==> GoodPlan(p, ordinal, gap)
      requires forall j :: 0 <= j < i ==> AsDecided(server, first, nodes[j].Entry(), oracle.luck(gen, lo + j), segment, before)
      requires AsDecided(server, before, nodes[i].Entry(), oracle.luck(gen, lo + i), segment, checkpoints)
      requires SameBut(nodes[i].plan.id, before, checkpoints)
      ensures LegsDecided(nodes, i + 1, gen, lo, oracle, first)
    {
      hide AsDecided, Untouched, SameBut, GoodPlan;
      assert Plans(nodes)[i] in Plans(nodes);
      DecidedAtFirst(server, nodes, gen, nodes[i].Entry(), first, before, oracle.luck(gen, lo + i), segment, checkpoints, ordinal, gap);
      forall j | 0 <= j < i
        ensures AsDecided(server, first, nodes[j].Entry(), oracle.luck(gen, lo + j), segment, checkpoints)
      {
        StillDecided(server, first, nodes[j].Entry(), oracle.luck(gen, lo + j), segment, nodes[i].plan.id, before, checkpoints);
      }
    }

    /** The first `count` nodes of a wave are run.  Siblings share no checkpoint,
        so their order does not matter; they are run one after the other here. */
    method RunLegs(nodes: seq<Node>, count: nat, gen: nat, lo: nat, oracle: Oracle)
      requires Valid() && Planned(nodes, gen) && count <= |nodes| && AllNew(nodes)
      requires forall p :: p in Plans(nodes) ==> GoodPlan(p, ordinal, gap)
      modifies this`checkpoints, nodes
      ensures Untouched(nodes, old(checkpoints), checkpoints)
      ensures LegsDecided(nodes, count, gen, lo, oracle, old(checkpoints))
      ensures old(WorldsAreTrue()) && AllGrounded(nodes, old(checkpoints)) ==> WorldsAreTrue()
    {
      hide Truthful, LegEffect, Grounded, AllGrounded, SameBut, Untouched, GoodPlan, AsDecided, Succeeds;
      ghost var ok := WorldsAreTrue() && AllGrounded(nodes, checkpoints);
      UntouchedAtFirst(nodes, old(checkpoints));
      for i := 0 to count
        invariant Untouched(nodes, old(checkpoints), checkpoints)
        invariant LegsDecided(nodes, i, gen, lo, oracle, old(checkpoints))
        invariant forall j :: i <= j < |nodes| ==> nodes[j].New()
        invariant ok ==> WorldsAreTrue() && AllGrounded(nodes, checkpoints)
      {
        var n, luck := nodes[i], oracle.luck(gen, lo + i);
        ghost var before := checkpoints;
        RunNode(n, luck);
        NodeDecided(before, n, luck);
        DecidedMore(nodes, i, gen, lo, oracle, old(checkpoints), before);
        StillUntouched(nodes, i, old(checkpoints), before, checkpoints);
        if ok {
          LegKeepsAll(nodes, gen, i, before, checkpoints);
        }
      }
    }

    lemma LegKeepsAll(nodes: seq<Node>, gen: nat, i: nat, before: map<Id, Checkpoint<W>>, after: map<Id, Checkpoint<W>>)
      requires Valid() && Planned(nodes, gen) && i < |nodes|
      requires forall p :: p in Plans(nodes) ==> GoodPlan(p, ordinal, gap)
      requires Truthful(server, lineage, before, made) && AllGrounded(nodes, before)
      requires LegEffect(server, before, nodes[i].plan, nodes[i].final, nodes[i].failed, after)
      requires SameBut(nodes[i].plan.id, before, after)
      ensures Truthful(server, lineage, after, made) && AllGrounded(nodes, after)
    {
      hide Truthful, GoodPlan, LegEffect;
      LegKeepsTrue(server, lineage, before, made, nodes[i].plan, nodes[i].final, nodes[i].failed, after);
      AllStillGrounded(nodes, gen, i, before, after, ordinal, gap);
    }

    lemma LegsLand(nodes: seq<Node>, gen: nat, lo: nat, oracle: Oracle, first: map<Id, Checkpoint<W>>)
      requires Valid() && Moves(oracle, gap) && LegsDecided(nodes, |nodes|, gen, lo, oracle, first)
      requires forall p :: p in Plans(nodes) ==> GoodPlan(p, ordinal, gap)
      ensures AllLanded(Entries(nodes), checkpoints, gap)
    {
      hide AsDecided, GoodPlan, Landed;
      forall i | 0 <= i < |nodes| ensures Landed(nodes[i].Entry(), checkpoints, gap) {
        assert Plans(nodes)[i] in Plans(nodes);
        DecidedLands(server, first, nodes[i].Entry(), oracle.luck(gen, lo + i), segment, checkpoints, ordinal, gap);
      }
    }

    /** What was made when the first `count` nodes were recorded. */
    ghost function WorldsOf(nodes: seq<Node>, count: nat): (ws: seq<Option<W>>)
      requires count <= |nodes|
      reads this, nodes
      ensures |ws| == count && forall i :: 0 <= i < count ==> ws[i] == WorldOf(nodes[i].Entry())
    {
      seq(count, i requires 0 <= i < count reads this, nodes => WorldOf(nodes[i].Entry()))
    }

    /** Append the records of the first `count` nodes to the lineage. */
    method RecordWave(nodes: seq<Node>, count: nat, ghost rest: seq<Plan>)
      requires count <= |nodes| && LineageLawful(Plans(nodes) + rest) && AllLanded(Entries(nodes), checkpoints, gap)
      modifies this`lineage, this`made, this`live
      ensures lineage == old(lineage) + Entries(nodes)[..count] && live == old(live) + Entries(nodes)[..count]
      ensures made == old(made) + WorldsOf(nodes, count)
      ensures LineageLawful(Plans(nodes)[count..] + rest)
      ensures old(WorldsAreTrue()) ==> WorldsAreTrue()
    {
      hide Truthful, Lawful, Landed, WorldOf, WorldsOf, AllLanded, LineageLawful, WorldsAreTrue, Entries, Plans;
      RecordNone(nodes, rest);
      for i := 0 to count
        invariant lineage == old(lineage) + Entries(nodes)[..i] && live == old(live) + Entries(nodes)[..i]
        invariant made == old(made) + WorldsOf(nodes, i)
        invariant LineageLawful(Plans(nodes)[i..] + rest)
        invariant old(WorldsAreTrue()) ==> WorldsAreTrue()
      {
        var r := nodes[i].Entry();
        ghost var world := WorldOf(r);
        ghost var l, m, v := lineage, made, live;
        EntryLanded(nodes, i);
        RecordMay(nodes, i, rest);
        lineage := lineage + [r];
        made := made + [world];
        live := live + [r];
        RecordStep(nodes, i, l, m, v, rest, r, world, old(WorldsAreTrue()));
        RecordGrows(nodes, i, old(lineage), old(made), old(live));
      }
    }

    lemma RecordNone(nodes: seq<Node>, rest: seq<Plan>)
      ensures Entries(nodes)[..0] == [] && WorldsOf(nodes, 0) == [] && Plans(nodes)[0..] + rest == Plans(nodes) + rest
      ensures lineage + [] == lineage && made + [] == made && live + [] == live
    {
      assert Plans(nodes)[0..] == Plans(nodes);
    }

    lemma EntryLanded(nodes: seq<Node>, i: nat)
      requires i < |nodes| && AllLanded(Entries(nodes), checkpoints, gap)
      ensures Entries(nodes)[i] == nodes[i].Entry() && Landed(nodes[i].Entry(), checkpoints, gap)
      ensures WorldsOf(nodes, i + 1) == WorldsOf(nodes, i) + [WorldOf(nodes[i].Entry())]
    {
    }

    lemma RecordMay(nodes: seq<Node>, i: nat, rest: seq<Plan>)
      requires i < |nodes| && LineageLawful(Plans(nodes)[i..] + rest)
      ensures Lawful(lineage, Plans(nodes)[i..] + rest, ordinal, gap) && |made| == |lineage| && forall e :: e in live ==> e in lineage
      ensures WorldsAreTrue() ==> Truthful(server, lineage, checkpoints, made)
    {
    }

    lemma RecordStep(nodes: seq<Node>, i: nat, l: seq<Record>, m: seq<Option<W>>, v: seq<Record>, rest: seq<Plan>, r: Record,
                     world: Option<W>, truthful: bool)
      requires i < |nodes| && r == nodes[i].Entry() && Landed(r, checkpoints, gap) && world == WorldOf(r)
      requires lineage == l + [r] && made == m + [world] && live == v + [r]
      requires Lawful(l, Plans(nodes)[i..] + rest, ordinal, gap) && |m| == |l| && forall e :: e in v ==> e in l
      requires truthful ==> Truthful(server, l, checkpoints, m)
      ensures LineageLawful(Plans(nodes)[i + 1..] + rest)
      ensures truthful ==> WorldsAreTrue()
    {
      hide Truthful, Lawful;
      var tail := Plans(nodes)[i + 1..] + rest;
      assert Plans(nodes)[i..] + rest == [r.plan] + tail;
      RecordLawful(l, r, tail);
      if truthful {
        RecordTrue(l, m, r, world);
      }
    }

    lemma RecordGrows(nodes: seq<Node>, i: nat, l: seq<Record>, m: seq<Option<W>>, v: seq<Record>)
      requires i < |nodes| && Entries(nodes)[i] == nodes[i].Entry()
      ensures l + Entries(nodes)[..i] + [nodes[i].Entry()] == l + Entries(nodes)[..i + 1]
      ensures v + Entries(nodes)[..i] + [nodes[i].Entry()] == v + Entries(nodes)[..i + 1]
      ensures m + WorldsOf(nodes, i) + [WorldOf(nodes[i].Entry())] == m + WorldsOf(nodes, i + 1)
    {
      assert Entries(nodes)[..i + 1] == Entries(nodes)[..i] + [nodes[i].Entry()];
    }

    ghost function WorldOf(r: Record): Option<W>
      reads `checkpoints
    {
      if !r.error && r.plan.id in checkpoints then Some(checkpoints[r.plan.id].world) else None
    }

    lemma RecordLawful(l: seq<Record>, r: Record, tail: seq<Plan>)
      requires Lawful(l, [r.plan] + tail, ordinal, gap) && Landed(r, checkpoints, gap)
      ensures Lawful(l + [r], tail, ordinal, gap)
    {
      assert r.plan in [r.plan] + tail;
      RecordKeepsLawful(l, r, tail, ordinal, gap);
    }

    lemma RecordTrue(l: seq<Record>, m: seq<Option<W>>, r: Record, world: Option<W>)
      requires Truthful(server, l, checkpoints, m) && Landed(r, checkpoints, gap) && world == WorldOf(r)
      ensures Truthful(server, l + [r], checkpoints, m + [world])
    {
      hide Truthful;
      RecordKeepsTrue(server, l, checkpoints, m, r, world);
    }

    /** The records of a wave are of its legs. */
    lemma WaveIsTold(nodes: seq<Node>, count: nat, gen: nat, lo: nat, oracle: Oracle, first: map<Id, Checkpoint<W>>,
                     known: seq<Record>, knownMade: seq<Option<W>>)
      requires count <= |nodes| && LegsDecided(nodes, |nodes|, gen, lo, oracle, first)
      requires AllLanded(Entries(nodes), checkpoints, gap) && |knownMade| == |known|
      requires lineage == known + Entries(nodes)[..count] && made == knownMade + WorldsOf(nodes, count)
      ensures NewTold(server, first, known, lineage, made) && NewLanded(known, lineage, checkpoints, gap) && knownMade <= made
      ensures Fared(server, segment, first, known, lineage, gen, lo, oracle, checkpoints)
    {
      hide AsDecided, Told, Startable;
      forall k | |known| <= k < |lineage|
        ensures Told(server, first, lineage[k], made[k]) && Landed(lineage[k], checkpoints, gap)
        ensures AsDecided(server, first, lineage[k], oracle.luck(gen, lo + (k - |known|)), segment, checkpoints)
      {
        var j := k - |known|;
        assert lineage[k] == Entries(nodes)[j] == nodes[j].Entry() && made[k] == WorldOf(nodes[j].Entry());
        assert Landed(Entries(nodes)[j], checkpoints, gap);
        DecidedIsTold(server, first, nodes[j].Entry(), oracle.luck(gen, lo + j), segment, checkpoints, made[k]);
      }
    }

    /** One wave of nodes: run them, then write them to the lineage. */
    method RunWave(nodes: seq<Node>, gen: nat, lo: nat, oracle: Oracle, kill: Kill, ghost rest: seq<Plan>) returns (killed: bool)
      requires Valid() && Planned(nodes, gen) && Moves(oracle, gap) && LineageLawful(Plans(nodes) + rest) && AllNew(nodes)
      modifies this`checkpoints, this`lineage, this`made, this`live, nodes
      ensures Untouched(nodes, old(checkpoints), checkpoints) && AddsOnly(old(lineage), lineage, Plans(nodes))
      ensures NewLanded(old(lineage), lineage, checkpoints, gap)
      ensures NewTold(server, old(checkpoints), old(lineage), lineage, made) && old(made) <= made
      ensures live == old(live) + lineage[|old(lineage)|..]
      ensures killed <==> kill != Lives
      ensures |lineage| == |old(lineage)| + RecordedBy(kill, |nodes|)
      ensures Fared(server, segment, old(checkpoints), old(lineage), lineage, gen, lo, oracle, checkpoints)
      ensures killed ==> LineageLawful([])
      ensures !killed ==>
        LineageLawful(rest) && lineage == old(lineage) + Entries(nodes) && made == old(made) + WorldsOf(nodes, |nodes|)
        && AllLanded(Entries(nodes), checkpoints, gap) && LegsDecided(nodes, |nodes|, gen, lo, oracle, old(checkpoints))
      ensures old(WorldsAreTrue()) && AllGrounded(nodes, old(checkpoints)) ==> WorldsAreTrue()
    {
      hide *;
      PendingAreGood(nodes, rest);
      ghost var before := checkpoints;
      killed := kill != Lives;
      RecordedIs(kill, |nodes|);
      Lengths(Plans(nodes) + rest);
      if kill.DiesRunning? {
        RunLegs(nodes, AtMost(kill.ran, |nodes|), gen, lo, oracle);
        ForgetAll(Plans(nodes) + rest);
        NothingNew(nodes, before);
        NoneFared(before, gen, lo, oracle);
        assert lineage[|lineage|..] == [] && live + [] == live;
      } else {
        RunLegs(nodes, |nodes|, gen, lo, oracle);
        LegsLand(nodes, gen, lo, oracle, before);
        var written := if kill.DiesRecording? then AtMost(kill.written, |nodes|) else |nodes|;
        RecordWave(nodes, written, rest);
        WaveIsTold(nodes, written, gen, lo, oracle, before, old(lineage), old(made));
        AddsEntries(old(lineage), nodes, written);
        ForgetAll(Plans(nodes)[written..] + rest);
        assert !killed ==> Plans(nodes)[written..] + rest == rest && Entries(nodes)[..written] == Entries(nodes);
        assert lineage[|old(lineage)|..] == Entries(nodes)[..written];
      }
    }

    lemma RecordedIs(kill: Kill, n: nat)
      ensures RecordedBy(kill, n) ==
        if kill.DiesRunning? then 0 else if kill.DiesRecording? then AtMost(kill.written, n) else n
    {
    }

    lemma NoneFared(first: map<Id, Checkpoint<W>>, gen: nat, lo: nat, oracle: Oracle)
      ensures Fared(server, segment, first, lineage, lineage, gen, lo, oracle, checkpoints)
    {
    }

    lemma NothingNew(nodes: seq<Node>, first: map<Id, Checkpoint<W>>)
      requires |made| == |lineage|
      ensures AddsOnly(lineage, lineage, Plans(nodes)) && NewLanded(lineage, lineage, checkpoints, gap)
      ensures NewTold(server, first, lineage, lineage, made)
    {
    }

    lemma PendingAreGood(nodes: seq<Node>, rest: seq<Plan>)
      requires LineageLawful(Plans(nodes) + rest)
      ensures forall p :: p in Plans(nodes) ==> GoodPlan(p, ordinal, gap)
    {
      hide GoodPlan;
      assert forall p :: p in Plans(nodes) ==> p in Plans(nodes) + rest;
    }

    lemma ForgetAll(ps: seq<Plan>)
      requires LineageLawful(ps)
      ensures LineageLawful([])
    {
      assert [] + ps == ps;
      ForgetPending(lineage, [], ps, ordinal, gap);
    }

    /** The first `lo` nodes of a generation have been run and recorded. */
    ghost predicate Progress(nodes: seq<Node>, lo: nat, known: seq<Record>)
      requires lo <= |nodes|
      reads this, nodes
    {
      && lineage == known + Entries(nodes[..lo]) && AllLanded(Entries(nodes[..lo]), checkpoints, gap)
      && AllNew(nodes[lo..]) && LineageLawful(Plans(nodes)[lo..])
    }

    lemma ProgressStarts(nodes: seq<Node>)
      requires AllNew(nodes) && LineageLawful(Plans(nodes))
      ensures Progress(nodes, 0, lineage) && AllGood(nodes)
    {
      assert nodes[0..] == nodes && Plans(nodes)[0..] == Plans(nodes) == Plans(nodes) + [];
      PendingAreGood(nodes, []);
    }

    lemma ProgressMeans(nodes: seq<Node>, lo: nat, known: seq<Record>)
      requires lo <= |nodes| && Progress(nodes, lo, known)
      ensures lineage == known + Entries(nodes[..lo]) && AllLanded(Entries(nodes[..lo]), checkpoints, gap)
      ensures AllNew(nodes[lo..]) && LineageLawful(Plans(nodes)[lo..])
    {
    }

    lemma ProgressMoves(nodes: seq<Node>, lo: nat, hi: nat, known: seq<Record>, soFar: seq<Record>)
      requires lo <= hi <= |nodes| && soFar == known + Entries(nodes[..lo]) && lineage == soFar + Entries(nodes[lo..hi])
      requires AllLanded(Entries(nodes[..hi]), checkpoints, gap) && AllNew(nodes[hi..]) && LineageLawful(Plans(nodes)[hi..])
      ensures Progress(nodes, hi, known)
    {
      hide *;
      EntriesExtend(nodes, lo, hi, known);
      ProgressIs(nodes, hi, known);
    }

    lemma ProgressIs(nodes: seq<Node>, lo: nat, known: seq<Record>)
      requires lo <= |nodes| && lineage == known + Entries(nodes[..lo]) && AllLanded(Entries(nodes[..lo]), checkpoints, gap)
      requires AllNew(nodes[lo..]) && LineageLawful(Plans(nodes)[lo..])
      ensures Progress(nodes, lo, known)
    {
      hide AllLanded, AllNew, LineageLawful, Plans, Entries;
    }

    lemma ProgressEnds(nodes: seq<Node>, known: seq<Record>)
      requires Progress(nodes, |nodes|, known)
      ensures lineage == known + Entries(nodes) && AllLanded(Entries(nodes), checkpoints, gap) && LineageLawful([])
    {
      assert nodes[..|nodes|] == nodes && Plans(nodes)[|nodes|..] == [];
    }

    ghost predicate AllGood(nodes: seq<Node>)
      reads `ordinal
    {
      forall p :: p in Plans(nodes) ==> GoodPlan(p, ordinal, gap)
    }

    lemma GoodMeans(nodes: seq<Node>)
      requires AllGood(nodes)
      ensures forall p :: p in Plans(nodes) ==> GoodPlan(p, ordinal, gap)
    {
    }

    /** What a generation, or the part of it that was run, adds to the lineage: its
        own nodes' records, each with its leg on disk, started from `first`. */
    ghost predicate Written(nodes: seq<Node>, first: map<Id, Checkpoint<W>>, known: seq<Record>, knownMade: seq<Option<W>>,
                            knownLive: seq<Record>)
      reads this
    {
      && AddsOnly(known, lineage, Plans(nodes)) && NewLanded(known, lineage, checkpoints, gap)
      && NewTold(server, first, known, lineage, made) && knownMade <= made
      && live == knownLive + lineage[|known|..]
    }

    lemma WrittenNothing(nodes: seq<Node>)
      requires LineageLawful(Plans(nodes))
      ensures Written(nodes, checkpoints, lineage, made, live)
    {
      NothingNew(nodes, checkpoints);
      assert live == live + lineage[|lineage|..];
    }

    /** A slice of the generation has been written on top of what was there. */
    lemma WrittenMore(nodes: seq<Node>, gen: nat, lo: nat, hi: nat, first: map<Id, Checkpoint<W>>, before: map<Id, Checkpoint<W>>,
                      known: seq<Record>, soFar: seq<Record>, knownMade: seq<Option<W>>, madeSoFar: seq<Option<W>>,
                      knownLive: seq<Record>, liveSoFar: seq<Record>)
      requires lo <= hi <= |nodes| && Planned(nodes, gen) && AllGood(nodes) && Untouched(nodes, first, before)
      requires AddsOnly(known, soFar, Plans(nodes)) && NewTold(server, first, known, soFar, madeSoFar) && knownMade <= madeSoFar
      requires soFar == known + Entries(nodes[..lo]) && AllLanded(Entries(nodes[..lo]), before, gap)
      requires liveSoFar == knownLive + soFar[|known|..]
      requires Untouched(nodes[lo..hi], before, checkpoints)
      requires AddsOnly(soFar, lineage, Plans(nodes)[lo..hi]) && NewLanded(soFar, lineage, checkpoints, gap)
      requires NewTold(server, before, soFar, lineage, made) && madeSoFar <= made && live == liveSoFar + lineage[|soFar|..]
      ensures Written(nodes, first, known, knownMade, knownLive)
    {
      hide *;
      MoreIsTold(nodes, gen, lo, hi, first, before, known, soFar, madeSoFar);
      MoreLanded(nodes, gen, lo, hi, before, known, soFar);
      AddedAreFew(soFar, lineage, Plans(nodes)[lo..hi]);
      AddsMore(known, soFar, lineage, Plans(nodes), hi);
      TailsMeet(known, soFar, lineage, knownLive);
      WrittenIs(nodes, first, known, knownMade, knownLive);
    }

    lemma MoreIsTold(nodes: seq<Node>, gen: nat, lo: nat, hi: nat, first: map<Id, Checkpoint<W>>, before: map<Id, Checkpoint<W>>,
                     known: seq<Record>, soFar: seq<Record>, madeSoFar: seq<Option<W>>)
      requires lo <= hi <= |nodes| && Planned(nodes, gen) && AllGood(nodes) && Untouched(nodes, first, before)
      requires AddsOnly(soFar, lineage, Plans(nodes)[lo..hi]) && NewTold(server, first, known, soFar, madeSoFar)
      requires NewTold(server, before, soFar, lineage, made) && madeSoFar <= made
      ensures NewTold(server, first, known, lineage, made)
    {
      hide *;
      assert forall p :: p in Plans(nodes)[lo..hi] ==> p in Plans(nodes);
      GoodMeans(nodes);
      AddedAreOf(soFar, lineage, Plans(nodes)[lo..hi]);
      ToldMore(server, nodes, gen, first, before, known, soFar, lineage, madeSoFar, made, ordinal, gap);
    }

    lemma MoreLanded(nodes: seq<Node>, gen: nat, lo: nat, hi: nat, before: map<Id, Checkpoint<W>>, known: seq<Record>,
                     soFar: seq<Record>)
      requires lo <= hi <= |nodes| && Planned(nodes, gen) && Untouched(nodes[lo..hi], before, checkpoints)
      requires soFar == known + Entries(nodes[..lo]) && AllLanded(Entries(nodes[..lo]), before, gap)
      requires NewLanded(soFar, lineage, checkpoints, gap)
      ensures NewLanded(known, lineage, checkpoints, gap)
    {
      hide *;
      EarlierStillLanded(nodes, gen, lo, hi, before, checkpoints, gap);
      LandedMore(known, Entries(nodes[..lo]), lineage, checkpoints, gap);
    }

    lemma WrittenIs(nodes: seq<Node>, first: map<Id, Checkpoint<W>>, known: seq<Record>, knownMade: seq<Option<W>>,
                    knownLive: seq<Record>)
      requires AddsOnly(known, lineage, Plans(nodes)) && NewLanded(known, lineage, checkpoints, gap)
      requires NewTold(server, first, known, lineage, made) && knownMade <= made && live == knownLive + lineage[|known|..]
      ensures Written(nodes, first, known, knownMade, knownLive)
    {
      hide NewLanded, NewTold;
    }

    /** One generation, in waves. */
    method RunGeneration(nodes: seq<Node>, gen: nat, oracle: Oracle) returns (killed: bool)
      requires Valid() && Planned(nodes, gen) && Moves(oracle, gap) && LineageLawful(Plans(nodes)) && AllNew(nodes)
      modifies this`checkpoints, this`lineage, this`made, this`live, nodes
      ensures Untouched(nodes, old(checkpoints), checkpoints)
      ensures Written(nodes, old(checkpoints), old(lineage), old(made), old(live))
      ensures LineageLawful([])
      ensures Fared(server, segment, old(checkpoints), old(lineage), lineage, gen, 0, oracle, checkpoints)
      ensures killed <==> Dies(oracle, gen, |nodes|)
      ensures killed ==>
        exists w: nat :: DiesAt(oracle, gen, |nodes|, w) && |lineage| == |old(lineage)| + RecordedUntil(oracle, gen, |nodes|, w)
      ensures !killed ==> lineage == old(lineage) + Entries(nodes) && AllLanded(Entries(nodes), checkpoints, gap)
      ensures old(WorldsAreTrue()) && AllGrounded(nodes, old(checkpoints)) ==> WorldsAreTrue()
    {
      hide *;
      ghost var ok := WorldsAreTrue() && AllGrounded(nodes, checkpoints);
      ProgressStarts(nodes);
      UntouchedAtFirst(nodes, checkpoints);
      WrittenNothing(nodes);
      NoneFared(checkpoints, gen, 0, oracle);
      var c := Width(oracle.width(gen));
      var lo, w := 0, 0;
      killed := false;
      NoneDied(oracle, gen, |nodes|);
      while lo < |nodes| && !killed
        invariant 0 <= lo <= |nodes|
        invariant Untouched(nodes, old(checkpoints), checkpoints)
        invariant Written(nodes, old(checkpoints), old(lineage), old(made), old(live))
        invariant ok ==> WorldsAreTrue()
        invariant killed ==> LineageLawful([])
        invariant !killed ==> Progress(nodes, lo, old(lineage))
        invariant ok && !killed ==> AllGrounded(nodes, checkpoints)
        invariant Fared(server, segment, old(checkpoints), old(lineage), lineage, gen, 0, oracle, checkpoints)
        invariant !killed ==> Survived(oracle, gen, |nodes|, w, lo)
        invariant killed ==>
          exists v: nat :: DiesAt(oracle, gen, |nodes|, v) && |lineage| == |old(lineage)| + RecordedUntil(oracle, gen, |nodes|, v)
        decreases |nodes| - lo
      {
        var hi := AtMost(lo + c, |nodes|);
        var kill := oracle.kill(gen, w);
        killed := RunSlice(nodes, lo, hi, gen, oracle, kill, old(checkpoints), old(lineage), old(made), old(live), ok);
        WaveRan(oracle, gen, |nodes|, w, lo, hi);
        lo, w := hi, w + 1;
      }
      DiedOrNot(oracle, gen, |nodes|, w, lo, killed);
      if !killed {
        ProgressEnds(nodes, old(lineage));
      }
    }

    /** The first `w` waves are run, and none was killed. */
    static ghost predicate Survived(o: Oracle, gen: nat, n: nat, w: nat, lo: nat) {
      var c := Width(o.width(gen));
      && lo == (if w * c < n then w * c else n) && forall v: nat :: v < w ==> o.kill(gen, v) == Lives
    }

    lemma NoneDied(o: Oracle, gen: nat, n: nat)
      ensures Survived(o, gen, n, 0, 0)
    {
    }

    lemma WaveRan(o: Oracle, gen: nat, n: nat, w: nat, lo: nat, hi: nat)
      requires Survived(o, gen, n, w, lo) && lo < n && hi == AtMost(lo + Width(o.width(gen)), n)
      ensures o.kill(gen, w) == Lives ==> Survived(o, gen, n, w + 1, hi)
      ensures o.kill(gen, w) != Lives ==>
        DiesAt(o, gen, n, w) && RecordedUntil(o, gen, n, w) == lo + RecordedBy(o.kill(gen, w), hi - lo)
    {
      TimesNext(w, Width(o.width(gen)));
    }

    lemma DiedOrNot(o: Oracle, gen: nat, n: nat, w: nat, lo: nat, killed: bool)
      requires killed ==> exists v: nat :: DiesAt(o, gen, n, v)
      requires !killed ==> Survived(o, gen, n, w, lo) && lo >= n
      ensures killed <==> Dies(o, gen, n)
    {
      if killed {
        var v: nat :| DiesAt(o, gen, n, v);
        assert WaveDies(o, gen, n, v);
      } else {
        forall v: nat ensures !WaveDies(o, gen, n, v) {
          if v >= w {
            Grows(w, v, Width(o.width(gen)));
          }
        }
      }
    }

    /** One wave, as a slice of its generation. */
    method RunSlice(nodes: seq<Node>, lo: nat, hi: nat, gen: nat, oracle: Oracle, kill: Kill,
                    ghost first: map<Id, Checkpoint<W>>, ghost known: seq<Record>, ghost knownMade: seq<Option<W>>,
                    ghost knownLive: seq<Record>, ghost ok: bool)
      returns (killed: bool)
      requires lo < hi <= |nodes| && Valid() && Planned(nodes, gen) && Moves(oracle, gap) && AllGood(nodes)
      requires Progress(nodes, lo, known) && Untouched(nodes, first, checkpoints)
      requires Written(nodes, first, known, knownMade, knownLive)
      requires ok ==> WorldsAreTrue() && AllGrounded(nodes, checkpoints)
      requires Fared(server, segment, first, known, lineage, gen, 0, oracle, checkpoints)
      modifies this`checkpoints, this`lineage, this`made, this`live, nodes[lo..hi]
      ensures Fared(server, segment, first, known, lineage, gen, 0, oracle, checkpoints)
      ensures (killed <==> kill != Lives) && |lineage| == |known| + lo + RecordedBy(kill, hi - lo)
      ensures Untouched(nodes, first, checkpoints) && Written(nodes, first, known, knownMade, knownLive)
      ensures killed ==> LineageLawful([])
      ensures !killed ==> Progress(nodes, hi, known)
      ensures ok ==> WorldsAreTrue()
      ensures ok && !killed ==> AllGrounded(nodes, checkpoints)
    {
      hide *;
      ProgressMeans(nodes, lo, known);
      WrittenMeans(nodes, first, known, knownMade, knownLive);
      var wave := nodes[lo..hi];
      assert Plans(wave) == Plans(nodes)[lo..hi];
      assert Plans(nodes)[lo..] == Plans(wave) + Plans(nodes)[hi..];
      ghost var before, soFar, madeSoFar, liveSoFar, done := checkpoints, lineage, made, live, Entries(nodes[..lo]);
      SliceIsPlanned(nodes, gen, lo, hi);
      SliceIsNew(nodes, lo, hi);
      if ok {
        SliceIsReady(nodes, lo, hi, checkpoints);
      }
      NotInSlice(nodes, gen, lo, hi);
      killed := RunWave(wave, gen, lo, oracle, kill, Plans(nodes)[hi..]);
      SliceUntouched(nodes, lo, hi, first, before, checkpoints);
      assert Entries(nodes[..lo]) == done;
      WrittenMore(nodes, gen, lo, hi, first, before, known, soFar, knownMade, madeSoFar, knownLive, liveSoFar);
      GoodMeans(nodes);
      FaredMore(server, segment, nodes, gen, lo, hi, oracle, first, before, checkpoints, known, soFar, lineage, ordinal, gap);
      if !killed {
        if ok {
          SliceKeepsGrounded(nodes, gen, lo, hi, before, checkpoints, ordinal, gap);
        }
        ProgressRan(nodes, gen, lo, hi, before, known, soFar);
      }
    }

    lemma ProgressRan(nodes: seq<Node>, gen: nat, lo: nat, hi: nat, before: map<Id, Checkpoint<W>>, known: seq<Record>,
                      soFar: seq<Record>)
      requires lo <= hi <= |nodes| && Planned(nodes, gen) && Untouched(nodes[lo..hi], before, checkpoints)
      requires soFar == known + Entries(nodes[..lo]) && lineage == soFar + Entries(nodes[lo..hi])
      requires AllLanded(Entries(nodes[..lo]), before, gap) && AllLanded(Entries(nodes[lo..hi]), checkpoints, gap)
      requires AllNew(nodes[hi..]) && LineageLawful(Plans(nodes)[hi..])
      ensures Progress(nodes, hi, known)
    {
      hide *;
      AllStillLanded(nodes, gen, lo, hi, before, checkpoints, gap);
      ProgressMoves(nodes, lo, hi, known, soFar);
    }

    lemma WrittenMeans(nodes: seq<Node>, first: map<Id, Checkpoint<W>>, known: seq<Record>, knownMade: seq<Option<W>>,
                       knownLive: seq<Record>)
      requires Written(nodes, first, known, knownMade, knownLive)
      ensures AddsOnly(known, lineage, Plans(nodes)) && NewTold(server, first, known, lineage, made) && knownMade <= made
      ensures |known| <= |lineage| && live == knownLive + lineage[|known|..]
    {
    }

    // ----- the beam -----------------------------------------------------------

    /** The best `keepTop` stay, the checkpoints of the rest are deleted, and the
        next generation is planned: as wide as the search was launched. */
    method Spawn(ranked: seq<Node>, gen: nat) returns (next: seq<Node>, ghost from: seq<nat>)
      requires LineageLawful([]) && Candidates(ranked, gen, ordinal, gap)
      modifies this`ordinal, this`checkpoints
      ensures forall i :: 0 <= i < |next| ==> fresh(next[i])
      ensures AllNew(next) && Planned(next, gen + 1) && LineageLawful(Plans(next))
      ensures checkpoints == old(checkpoints) - NamesIn(ranked[|Kept(ranked)|..])
      ensures AreChildren(Plans(next), Entries(Kept(ranked)), from, old(ordinal)) && InOrder(from)
      ensures ordinal == old(ordinal) + |next|
      ensures old(WorldsAreTrue()) ==> WorldsAreTrue()
      ensures OnDisk(ranked, old(checkpoints), gap) ==> AllGrounded(next, checkpoints)
      ensures old(NothingLost()) && OnDisk(ranked, old(checkpoints), gap) && AllRooted(ranked, old(checkpoints)) && UpTo(live, gen) ==>
        NothingLost() && Standing(next, gen + 1)
      ensures Kept(ranked) != [] && DistinctIds(ranked) ==> |next| == BeamWidth()
      ensures Kept(ranked) != [] && children > 0 ==> |next| >= BeamWidth() && (|next| == BeamWidth() <==> DistinctIds(Kept(ranked)))
      ensures DistinctIds(ranked) ==> Even(from, |Kept(ranked)|)
      ensures forall a :: 0 <= a < |Kept(ranked)| ==> ChildCount(from, a) >= children
    {
      hide ChildCount, Sum, KeysOf, AreChildren, Lawful, GoodRecord, AllNew, Planned, OnDisk, AllGrounded, AllRooted, UpTo, InOrder,
        Names, Candidates, LineageLawful, WorldsAreTrue, NothingLost, Standing, DistinctIds;
      ghost var o, cps, truthful, whole := ordinal, checkpoints, WorldsAreTrue(), NothingLost();
      SpawnMay(ranked, gen);
      var keep := Kept(ranked);
      Prune(ranked[|keep|..]);
      var counts := ShareOut(Names(keep), children, BeamWidth());
      next, from := SpawnAll(keep, Names(keep), counts, gen);
      NamesDistinct(ranked);
      if keep != [] {
        BeamIsFull(keep, counts);
      }
      SpawnIsLegal(ranked, gen, o, next, from);
      SpawnStands(ranked, gen, cps, o, next, from, truthful, whole);
    }

    lemma SpawnMay(ranked: seq<Node>, gen: nat)
      requires LineageLawful([]) && Candidates(ranked, gen, ordinal, gap)
      ensures Lawful(lineage, [], ordinal, gap) && |made| == |lineage| && forall r :: r in live ==> r in lineage
      ensures WorldsAreTrue() ==> Truthful(server, lineage, checkpoints, made)
      ensures NothingLost() ==> Matched(live, checkpoints) && RecordsRooted(live, checkpoints)
      ensures forall a :: 0 <= a < |Kept(ranked)| ==> Kept(ranked)[a].plan.gen == gen && Kept(ranked)[a].final.Some?
    {
      hide Lawful, Truthful, Matched, RecordsRooted;
      KeptAreGood(ranked, gen);
    }

    lemma SpawnIsLegal(ranked: seq<Node>, gen: nat, o: nat, next: seq<Node>, from: seq<nat>)
      requires Lawful(lineage, [], o, gap) && |made| == |lineage| && forall r :: r in live ==> r in lineage
      requires Candidates(ranked, gen, o, gap) && ordinal == o + |next|
      requires AreChildren(Plans(next), Entries(Kept(ranked)), from, o)
      ensures LineageLawful(Plans(next))
    {
      hide AreChildren, Lawful, GoodRecord;
      forall i | 0 <= i < |Kept(ranked)|
        ensures GoodRecord(Entries(Kept(ranked))[i], o, gap) && !Entries(Kept(ranked))[i].error
      {
        assert Kept(ranked)[i] == ranked[i];
      }
      SpawnIsLawful(lineage, Entries(Kept(ranked)), Plans(next), from, o, gap);
    }

    lemma SpawnStands(ranked: seq<Node>, gen: nat, cps: map<Id, Checkpoint<W>>, o: nat, next: seq<Node>, from: seq<nat>,
                      truthful: bool, whole: bool)
      requires Lawful(lineage, [], o, gap) && forall r :: r in live ==> r in lineage
      requires Candidates(ranked, gen, o, gap) && checkpoints == cps - NamesIn(ranked[|Kept(ranked)|..])
      requires AreChildren(Plans(next), Entries(Kept(ranked)), from, o)
      requires truthful ==> Truthful(server, lineage, cps, made)
      requires whole ==> Matched(live, cps) && RecordsRooted(live, cps)
      ensures truthful ==> WorldsAreTrue()
      ensures OnDisk(ranked, cps, gap) ==> AllGrounded(next, checkpoints)
      ensures whole && OnDisk(ranked, cps, gap) && AllRooted(ranked, cps) && UpTo(live, gen) ==>
        NothingLost() && Standing(next, gen + 1)
    {
      hide AreChildren, GoodRecord, Matched, RecordsRooted, UpTo, OnDisk, AllGrounded, AllRooted, FreshNames, Truthful;
      var k := |Kept(ranked)|;
      if truthful {
        PruningKeepsTrue(server, lineage, cps, made, NamesIn(ranked[k..]));
      }
      assert forall i :: 0 <= i < |ranked| ==> !ranked[i].failed;
      if OnDisk(ranked, cps, gap) {
        SelectionGrounds(cps, ranked, k, next, from, o, gap);
        if whole && AllRooted(ranked, cps) && UpTo(live, gen) {
          SelectionKeeps(live, cps, ranked, k, next, from, o, gen, o, gap);
          UpToMore(live, gen);
        }
      }
    }

    lemma UpToMore(lineage: seq<Record>, gen: nat)
      requires UpTo(lineage, gen)
      ensures UpTo(lineage, gen + 1)
    {
    }

    method Prune(pruned: seq<Node>)
      modifies this`checkpoints
      ensures checkpoints == old(checkpoints) - NamesIn(pruned)
    {
      for i := 0 to |pruned|
        invariant checkpoints == old(checkpoints) - NamesIn(pruned[..i])
      {
        assert pruned[..i + 1] == pruned[..i] + [pruned[i]];
        checkpoints := checkpoints - {pruned[i].plan.id};
      }
      assert pruned[..|pruned|] == pruned;
    }

    lemma NamesDistinct(ranked: seq<Node>)
      ensures DistinctIds(ranked) ==> DistinctIds(Kept(ranked))
      ensures DistinctIds(Kept(ranked)) <==> NoRepeats(Names(Kept(ranked)))
    {
    }

    lemma KeptAreGood(ranked: seq<Node>, gen: nat)
      requires Candidates(ranked, gen, ordinal, gap)
      ensures forall i :: 0 <= i < |Kept(ranked)| ==>
        Kept(ranked)[i].plan.gen == gen && Kept(ranked)[i].final.Some? && !Entries(Kept(ranked))[i].error && GoodRecord(Entries(Kept(ranked))[i], ordinal, gap)
    {
    }

    method SpawnAll(keep: seq<Node>, ids: seq<Id>, counts: map<Id, nat>, gen: nat) returns (next: seq<Node>, ghost from: seq<nat>)
      requires ids == Names(keep) && forall id :: id in ids ==> id in counts
      requires forall a :: 0 <= a < |keep| ==> keep[a].plan.gen == gen && keep[a].final.Some?
      modifies this`ordinal
      ensures forall i :: 0 <= i < |next| ==> fresh(next[i])
      ensures AllNew(next) && Planned(next, gen + 1)
      ensures AreChildren(Plans(next), Entries(keep), from, old(ordinal)) && ordinal == old(ordinal) + |next|
      ensures InOrder(from)
      ensures |next| == Sum(ids, counts)
      ensures forall a :: 0 <= a < |keep| ==> ChildCount(from, a) == counts[ids[a]]
    {
      hide Sum, ChildCount, Spawned, Names, ChildPlan;
      next, from := [], [];
      CountNone();
      SpawnedNone(Entries(keep), ordinal, gen);
      SumFront(ids, counts);
      for a := 0 to |keep|
        invariant forall i :: 0 <= i < |next| ==> fresh(next[i])
        invariant Spawned(next, Entries(keep), from, old(ordinal), gen) && ordinal == old(ordinal) + |next|
        invariant |next| == Sum(ids[..a], counts) && forall b :: b in from ==> b < a
        invariant forall b :: 0 <= b < |keep| ==> ChildCount(from, b) == if b < a then counts[ids[b]] else 0
      {
        var p := keep[a];
        for j := 0 to counts[p.plan.id]
          invariant forall i :: 0 <= i < |next| ==> fresh(next[i])
          invariant Spawned(next, Entries(keep), from, old(ordinal), gen) && ordinal == old(ordinal) + |next|
          invariant |next| == Sum(ids[..a], counts) + j && forall b :: b in from ==> b <= a
          invariant forall b :: 0 <= b < |keep| ==>
            ChildCount(from, b) == if b < a then counts[ids[b]] else if b == a then j else 0
        {
          var o := NextOrdinal();
          var n := new Node(ChildPlan(p.plan, p.final.value, |next|, o), o, None);
          CountMore(from, a);
          SpawnedMore(next, Entries(keep), from, old(ordinal), gen, n, a);
          next, from := next + [n], from + [a];
        }
        SumFront(ids[..a + 1], counts);
        assert ids[..a + 1][..a] == ids[..a];
      }
      assert ids[..|keep|] == ids;
      SpawnedMeans(next, Entries(keep), from, old(ordinal), gen);
    }

    lemma SumFront(ids: seq<Id>, counts: map<Id, nat>)
      requires forall id :: id in ids ==> id in counts
      ensures ids != [] ==> Sum(ids, counts) == Sum(ids[..|ids| - 1], counts) + counts[ids[|ids| - 1]]
      ensures Sum([], counts) == 0
    {
    }

    lemma BeamIsFull(keep: seq<Node>, counts: map<Id, nat>)
      requires |keep| <= keepTop && keep != []
      requires forall id :: id in Names(keep) ==> id in counts && counts[id] >= children
      requires Sum(KeysOf(Names(keep)), counts) ==
        if |KeysOf(Names(keep))| * children < BeamWidth() then BeamWidth() else |KeysOf(Names(keep))| * children
      ensures DistinctIds(keep) ==> Sum(Names(keep), counts) == BeamWidth()
      ensures children > 0 ==>
        Sum(Names(keep), counts) >= BeamWidth() && (Sum(Names(keep), counts) == BeamWidth() <==> DistinctIds(keep))
    {
      var ids := Names(keep);
      assert NoRepeats(ids) <==> DistinctIds(keep);
      KeysOfDistinct(ids);
      FewerChildren(|KeysOf(ids)|, keepTop, children);
      if children > 0 {
        SumOfKeys(ids, counts);
      }
    }

    lemma FewerChildren(a: nat, b: nat, c: nat)
      requires a <= b
      ensures a * c <= b * c
    {
    }

    function Kept(ranked: seq<Node>): seq<Node> {
      ranked[..AtMost(keepTop, |ranked|)]
    }

    function BeamWidth(): nat {
      if replicas < keepTop * children then keepTop * children else replicas
    }

    // ----- whole searches -----------------------------------------------------

    /** The nodes have their ancestors' checkpoints, and no record that was not
        superseded has their names. */
    ghost predicate Standing(nodes: seq<Node>, gen: nat)
      reads `live, `checkpoints
    {
      AllRooted(nodes, checkpoints) && FreshNames(nodes, live) && UpTo(live, gen)
    }

    /** Generation 0. */
    method InitialNodes() returns (nodes: seq<Node>)
      requires Valid() && lineage == [] && made == [] && live == [] && ordinal == 0
      modifies this`ordinal
      ensures forall i :: 0 <= i < |nodes| ==> fresh(nodes[i])
      ensures |nodes| == ordinal == replicas && Founding(nodes, rngSeeds)
      ensures forall k :: 0 <= k < |nodes| && k < |rngSeeds| ==> nodes[k].plan.base == rngSeeds[k]
      ensures AllNew(nodes) && Planned(nodes, 0) && LineageLawful(Plans(nodes))
      ensures AllGrounded(nodes, checkpoints) && Standing(nodes, 0) && Tallied(Plans(nodes)) && Named(Plans(nodes), 0)
    {
      hide AllNew, Planned, Lawful, AllGrounded, AllRooted, FreshNames, UpTo, FounderPlan;
      nodes := [];
      for i := 0 to replicas
        invariant |nodes| == i && ordinal == i && lineage == []
        invariant forall k :: 0 <= k < i ==> fresh(nodes[k])
        invariant Founding(nodes, rngSeeds)
      {
        var o := NextOrdinal();
        var n := new Node(FounderPlan(i, rngSeeds), o, None);
        nodes := nodes + [n];
      }
      FoundersAreGood(nodes, rngSeeds, ordinal, gap, checkpoints);
      FoundersTally(nodes);
    }

    lemma FoundersTally(nodes: seq<Node>)
      requires rngSeeds != [] && Founding(nodes, rngSeeds) && lineage == [] && ordinal == |nodes|
      ensures Tallied(Plans(nodes)) && Named(Plans(nodes), 0)
      ensures forall k :: 0 <= k < |nodes| && k < |rngSeeds| ==> nodes[k].plan.base == rngSeeds[k]
    {
      hide FounderPlan;
      forall k | 0 <= k < |nodes|
        ensures nodes[k].plan.id == Searched(0, k) && nodes[k].plan.reseed.None?
        ensures k < |rngSeeds| ==> nodes[k].plan.base == rngSeeds[k]
      {
        FounderIs(k, rngSeeds);
        FoundersTakeTurns(k, rngSeeds);
      }
    }

    /** The selection that follows a generation: the survivors are ranked, the
        best are kept, and their children are planned. */
    method NextGeneration(alive: seq<Node>, gen: nat) returns (next: seq<Node>, ghost ranked: seq<Node>, ghost from: seq<nat>)
      requires LineageLawful([]) && Candidates(alive, gen, ordinal, gap)
      modifies this`ordinal, this`checkpoints
      ensures forall i :: 0 <= i < |next| ==> fresh(next[i])
      ensures AllNew(next) && Planned(next, gen + 1) && LineageLawful(Plans(next))
      ensures Chosen(alive, ranked, next, from, old(ordinal)) && (forall n :: n in ranked ==> !n.failed)
      ensures checkpoints == old(checkpoints) - NamesIn(ranked[|Kept(ranked)|..]) && ordinal == old(ordinal) + |next|
      ensures alive != [] && keepTop > 0 && DistinctIds(alive) ==> |next| == BeamWidth()
      ensures old(WorldsAreTrue()) ==> WorldsAreTrue()
      ensures OnDisk(alive, old(checkpoints), gap) ==> AllGrounded(next, checkpoints)
      ensures old(NothingLost()) && OnDisk(alive, old(checkpoints), gap) && AllRooted(alive, old(checkpoints)) && UpTo(live, gen) ==>
        NothingLost() && Standing(next, gen + 1)
    {
      hide LineageLawful, WorldsAreTrue, NothingLost, Standing, OnDisk, UpTo, AllNew, Planned, AreChildren, Ordered, DistinctIds,
        Lawful, AllGrounded, AllRooted, InOrder, GoodRecord, ChildCount;
      var best := Ranked(alive);
      RankedKeeps(alive, best, gen, checkpoints, ordinal, gap);
      ranked := best;
      next, from := Spawn(best, gen);
    }

    /** Unless names repeat, the beam is as wide as it was launched, in even shares. */
    ghost predicate FairlyShared(ranked: seq<Node>, next: seq<Node>, from: seq<nat>) {
      DistinctIds(ranked) && Kept(ranked) != [] ==> |next| == BeamWidth() && Even(from, |Kept(ranked)|)
    }

    /** The nodes are ranked, best first, and what is planned are the children of
        the best of them, in that order. */
    ghost predicate Chosen(alive: seq<Node>, ranked: seq<Node>, next: seq<Node>, from: seq<nat>, o: nat)
      reads ranked
    {
      && multiset(ranked) == multiset(alive) && Ordered(ranked) && (DistinctIds(alive) ==> DistinctIds(ranked))
      && AreChildren(Plans(next), Entries(Kept(ranked)), from, o) && InOrder(from)
      && FairlyShared(ranked, next, from)
      && forall a :: 0 <= a < |Kept(ranked)| ==> ChildCount(from, a) >= children
    }

    // ----- the ordinal counter ----------------------------------------------------

    /** Read back from the lineage, the counter would be `lost` ordinals behind. */
    ghost predicate Lags(lost: nat)
      reads `lineage, `ordinal
    {
      forall c: nat :: IsRecovered(c, lineage) <==> c + lost == ordinal
    }

    /** Nothing is lost so far but what the planned nodes have taken. */
    ghost predicate Tallied(ps: seq<Plan>)
      reads `lineage, `ordinal
    {
      |ps| <= ordinal && CountsOn(ps, lineage, ordinal - |ps|)
    }

    lemma GenerationLags(known: seq<Record>, ps: seq<Plan>)
      requires |ps| <= ordinal && CountsOn(ps, known, ordinal - |ps|) && AddsOnly(known, lineage, ps)
      ensures Lags(|ps| - (|lineage| - |known|))
    {
      hide IsRecovered, CountsOn, AddsOnly;
      AddedAreFew(known, lineage, ps);
      forall c: nat ensures IsRecovered(c, lineage) <==> c + (|ps| - (|lineage| - |known|)) == ordinal {
        RecoveredExactly(known, ordinal - |ps|, ps, lineage, c);
      }
    }

    lemma TalliedLags(ps: seq<Plan>)
      requires Tallied(ps)
      ensures Lags(|ps|)
    {
      hide CountsOn;
      assert AddsOnly(lineage, lineage, ps);
      GenerationLags(lineage, ps);
    }

    lemma LagsNone()
      requires Lags(0)
      ensures IsRecovered(ordinal, lineage)
    {
      hide IsRecovered;
      assert ordinal + 0 == ordinal;
    }

    lemma RecoveredLags()
      requires IsRecovered(ordinal, lineage)
      ensures Lags(0)
    {
      hide IsRecovered;
      forall c: nat | IsRecovered(c, lineage) ensures c == ordinal {
        CounterIsOne(c, ordinal, lineage);
      }
    }

    lemma NextTallied(next: seq<Node>, ranked: seq<Node>, from: seq<nat>, o: nat)
      requires IsRecovered(o, lineage) && ordinal == o + |next| && AreChildren(Plans(next), Entries(Kept(ranked)), from, o)
      ensures Tallied(Plans(next))
    {
      hide IsRecovered, AreChildren;
      ChildrenCountOn(Plans(next), Entries(Kept(ranked)), from, o, lineage);
    }

    // ----- resuming a killed search ---------------------------------------------

    /** The ordinal counter, read back from the lineage. */
    method RecoverOrdinal() returns (o: nat)
      ensures IsRecovered(o, lineage)
    {
      hide OrdinalOf;
      o := |lineage|;
      for i := 0 to |lineage|
        invariant o >= |lineage| && forall k :: 0 <= k < i && HasOrdinal(lineage[k]) ==> OrdinalOf(lineage[k].plan.reseed.value) <= o
        invariant o == |lineage| || exists k :: 0 <= k < i && HasOrdinal(lineage[k]) && o == OrdinalOf(lineage[k].plan.reseed.value)
      {
        var r := lineage[i];
        if HasOrdinal(r) && OrdinalOf(r.plan.reseed.value) > o {
          o := OrdinalOf(r.plan.reseed.value);
        }
      }
    }

    /** Every record a resume would adopt speaks of the checkpoint under its name. */
    ghost predicate AdoptedMatch()
      reads `lineage, `checkpoints
    {
      forall g: nat :: IsLastUsable(g, lineage, checkpoints) ==> UsableMatch(lineage, g, checkpoints)
    }

    /** ... and has its ancestors' checkpoints. */
    ghost predicate AdoptedStand()
      reads `lineage, `checkpoints
    {
      AdoptedMatch()
      && forall g: nat, r :: IsLastUsable(g, lineage, checkpoints) && r in Usable(lineage, g, checkpoints) ==> Rooted(r.plan, checkpoints)
    }

    /** As long as no record was superseded, a resume may adopt whatever it finds. */
    lemma UnsupersededStand()
      requires NothingLost() && forall r :: r in lineage && !r.error ==> r in live
      ensures AdoptedStand()
    {
      hide Matches, Rooted, IsLastUsable;
      forall g: nat, r | r in Usable(lineage, g, checkpoints)
        ensures Matches(r.plan, r.final, checkpoints[r.plan.id]) && Rooted(r.plan, checkpoints)
      {
        assert r in live;
      }
    }

    /** The records that a resume from generation `gen` leaves standing. */
    static function UpToGen(rs: seq<Record>, gen: nat): (kept: seq<Record>)
      ensures forall r :: r in kept <==> r in rs && r.plan.gen <= gen
    {
      if rs == [] then []
      else
        var front, r := UpToGen(rs[..|rs| - 1], gen), rs[|rs| - 1];
        if r.plan.gen <= gen then front + [r] else front
    }

    /** What a resume supersedes and adopts.  Every node planned is a child of an
        adopted record. */
    ghost predicate Resumed(gen: nat, next: seq<Node>, before: map<Id, Checkpoint<W>>, liveBefore: seq<Record>)
      reads `lineage, `live
    {
      && IsLastUsable(gen, lineage, before)
      && live == UpToGen(liveBefore, gen) + Usable(lineage, gen, before)
      && forall p :: p in Plans(next) ==> exists r :: r in Usable(lineage, gen, before) && ChildOf(p, r)
    }

    /** The adopted records, ranked anew, and the children of the best of them, their
        ordinals following on from the lineage's. */
    ghost predicate Selected(ok: seq<Record>, rerank: Record -> int, ranked: seq<Node>, next: seq<Node>, from: seq<nat>, o: nat)
      reads `lineage, ranked
    {
      && |ranked| == |ok| && (forall a :: 0 <= a < |ranked| ==> FromUsable(ranked[a].Entry(), ok, rerank))
      && (forall r :: r in ok ==> r.(rank := rerank(r)) in Entries(ranked))
      && Ordered(ranked) && (NamesDiffer(ok) ==> DistinctIds(ranked))
      && IsRecovered(o, lineage) && AreChildren(Plans(next), Entries(Kept(ranked)), from, o) && InOrder(from)
      && FairlyShared(ranked, next, from)
      && forall a :: 0 <= a < |Kept(ranked)| ==> ChildCount(from, a) >= children
    }

    /** Adopt the usable records as parents and plan the generation after them. */
    method ResumeNodes(rerank: Record -> int)
      returns (next: seq<Node>, gen: Option<nat>, ghost ranked: seq<Node>, ghost from: seq<nat>, ghost o: nat)
      requires LineageLawful([])
      modifies this`ordinal, this`checkpoints, this`live
      ensures forall i :: 0 <= i < |next| ==> fresh(next[i])
      ensures gen.None? ==> LineageLawful([]) && checkpoints == old(checkpoints) && live == old(live)
      ensures gen.None? ==> forall g: nat :: !IsLastUsable(g, lineage, old(checkpoints))
      ensures gen.None? ==> Lags(0)
      ensures gen.Some? ==> AllNew(next) && Planned(next, gen.value + 1) && LineageLawful(Plans(next)) && Tallied(Plans(next))
      ensures gen.Some? ==> Resumed(gen.value, next, old(checkpoints), old(live))
      ensures gen.Some? ==> Selected(Usable(lineage, gen.value, old(checkpoints)), rerank, ranked, next, from, o)
      ensures gen.Some? ==> checkpoints == old(checkpoints) - NamesIn(ranked[|Kept(ranked)|..])
      ensures gen.Some? ==> Named(Plans(next), gen.value + 1)
      ensures old(WorldsAreTrue()) ==> WorldsAreTrue()
      ensures gen.Some? && old(AdoptedMatch()) ==> AllGrounded(next, checkpoints) && (keepTop > 0 ==> |next| == BeamWidth())
      ensures old(NothingLost()) && old(AdoptedStand()) ==> NothingLost() && (gen.Some? ==> Standing(next, gen.value + 1))
    {
      hide *;
      ghost var matched, whole := AdoptedMatch(), NothingLost() && AdoptedStand();
      ghost var disk, before := checkpoints, live;
      next, ranked, from, o := [], [], [], 0;
      var recovered := RecoverOrdinal();
      CountRecovered(recovered);
      LostMeans();
      ordinal := recovered;
      RecoveredLags();
      o := recovered;
      var ok;
      gen, ok := LastUsableGeneration(lineage, checkpoints);
      if gen.None? {
        NoneIsLast(lineage, checkpoints);
        CountIsLawful();
        return;
      }
      var parents := Adopt(ok, rerank);
      AdoptedAreGood(parents, ok, gen.value, rerank);
      live := UpToGen(live, gen.value) + ok;
      ResumeStands(parents, ok, gen.value, rerank, before, matched, whole);
      next, ranked, from := NextGeneration(parents, gen.value);
      ResumeIs(parents, ok, gen.value, rerank, next, ranked, from, o, disk, before);
      ResumeIsNamed(parents, ok, gen.value, rerank, next, ranked, from, o, disk);
      ChosenCounts(parents, next, ranked, from, o);
    }

    lemma ChosenCounts(alive: seq<Node>, next: seq<Node>, ranked: seq<Node>, from: seq<nat>, o: nat)
      requires Chosen(alive, ranked, next, from, o) && IsRecovered(o, lineage) && ordinal == o + |next|
      ensures Tallied(Plans(next))
    {
      hide AreChildren, IsRecovered;
      NextTallied(next, ranked, from, o);
    }

    lemma CountRecovered(o: nat)
      requires LineageLawful([]) && IsRecovered(o, lineage)
      ensures Lawful(lineage, [], o, gap) && |made| == |lineage| && forall r :: r in live ==> r in lineage
    {
      hide Lawful;
      RecoveredIsLawful(lineage, ordinal, o, gap);
    }

    lemma CountIsLawful()
      requires Lawful(lineage, [], ordinal, gap) && |made| == |lineage| && forall r :: r in live ==> r in lineage
      ensures LineageLawful([])
    {
    }

    lemma LostMeans()
      ensures NothingLost() ==> Matched(live, checkpoints) && RecordsRooted(live, checkpoints)
    {
    }

    lemma ResumeIs(parents: seq<Node>, ok: seq<Record>, gen: nat, rerank: Record -> int, next: seq<Node>, ranked: seq<Node>,
                   from: seq<nat>, o: nat, disk: map<Id, Checkpoint<W>>, before: seq<Record>)
      requires Adopted(parents, ok, rerank) && ok == Usable(lineage, gen, disk) && live == UpToGen(before, gen) + ok
      requires IsLastUsable(gen, lineage, disk) && IsRecovered(o, lineage) && Chosen(parents, ranked, next, from, o)
      ensures Resumed(gen, next, disk, before) && Selected(ok, rerank, ranked, next, from, o)
    {
      hide AreChildren, Ordered, ChildCount, InOrder, FromUsable, IsRecovered, IsLastUsable, ChildOf, FairlyShared;
      if NamesDiffer(ok) {
        AdoptedNames(parents, ok, rerank);
      }
      hide NamesDiffer, DistinctIds;
      RankedAreAdopted(parents, ranked, ok, rerank);
      ChildrenOfAdopted(next, ranked, from, o, ok, rerank);
    }

    lemma ResumeIsNamed(parents: seq<Node>, ok: seq<Record>, gen: nat, rerank: Record -> int, next: seq<Node>, ranked: seq<Node>,
                        from: seq<nat>, o: nat, disk: map<Id, Checkpoint<W>>)
      requires Adopted(parents, ok, rerank) && ok == Usable(lineage, gen, disk) && IsLastUsable(gen, lineage, disk)
      requires Chosen(parents, ranked, next, from, o)
      ensures Named(Plans(next), gen + 1) && parents != []
      ensures keepTop > 0 && DistinctIds(parents) ==> |next| == BeamWidth()
    {
      hide AreChildren, InOrder, Ordered, ChildCount, Even, Usable;
      var best := Entries(Kept(ranked));
      assert |multiset(ranked)| == |ranked| && |multiset(parents)| == |parents|;
      forall i | 0 <= i < |best| ensures best[i].plan.gen == gen {
        assert ranked[i] in multiset(parents);
        var k :| 0 <= k < |parents| && parents[k] == ranked[i];
        assert parents[k].Entry().plan == ok[k].plan && ok[k] in ok;
      }
      ChildrenAreNamed(Plans(next), best, from, o, gen);
    }

    method Adopt(ok: seq<Record>, rerank: Record -> int) returns (parents: seq<Node>)
      requires forall i :: 0 <= i < |ok| ==> !ok[i].error
      ensures forall i :: 0 <= i < |parents| ==> fresh(parents[i])
      ensures Adopted(parents, ok, rerank)
    {
      parents := [];
      for i := 0 to |ok|
        invariant |parents| == i && forall k :: 0 <= k < i ==> fresh(parents[k])
        invariant forall k :: 0 <= k < i ==> parents[k].Entry() == ok[k].(rank := rerank(ok[k]))
      {
        var n := new Node.Adopted(ok[i]);
        n.rank := rerank(ok[i]);
        parents := parents + [n];
      }
    }

    lemma AdoptedAreGood(parents: seq<Node>, ok: seq<Record>, gen: nat, rerank: Record -> int)
      requires Lawful(lineage, [], ordinal, gap) && Adopted(parents, ok, rerank) && ok == Usable(lineage, gen, checkpoints)
      ensures Candidates(parents, gen, ordinal, gap)
      ensures UsableMatch(lineage, gen, checkpoints) ==> OnDisk(parents, checkpoints, gap) && DistinctIds(parents)
    {
      hide GoodPlan, EndsBy, Matches;
      forall i | 0 <= i < |parents|
        ensures parents[i].plan.gen == gen && GoodRecord(parents[i].Entry(), ordinal, gap)
        ensures UsableMatch(lineage, gen, checkpoints) ==> Landed(parents[i].Entry(), checkpoints, gap)
      {
        assert ok[i] in ok && ok[i] in lineage;
        assert GoodRecord(ok[i], ordinal, gap);
        assert parents[i].Entry().plan == ok[i].plan;
        if UsableMatch(lineage, gen, checkpoints) {
          MatchesMeansFinal(ok[i], checkpoints[ok[i].plan.id]);
        }
      }
      if UsableMatch(lineage, gen, checkpoints) {
        UsableNamesDiffer(lineage, gen, checkpoints, ordinal, gap);
        forall i, j | 0 <= i < j < |parents| ensures parents[i].plan.id != parents[j].plan.id {
          assert parents[i].Entry().plan == ok[i].plan && parents[j].Entry().plan == ok[j].plan;
        }
      }
    }

    /** What is left standing is matched and rooted, and so are the parents. */
    lemma ResumeStands(parents: seq<Node>, ok: seq<Record>, gen: nat, rerank: Record -> int, before: seq<Record>, matched: bool,
                       whole: bool)
      requires Adopted(parents, ok, rerank) && ok == Usable(lineage, gen, checkpoints) && live == UpToGen(before, gen) + ok
      requires IsLastUsable(gen, lineage, checkpoints) && Lawful(lineage, [], ordinal, gap) && |made| == |lineage|
      requires forall r :: r in before ==> r in lineage
      requires matched ==> AdoptedMatch()
      requires whole ==> Matched(before, checkpoints) && RecordsRooted(before, checkpoints) && AdoptedStand()
      ensures LineageLawful([])
      ensures matched ==> UsableMatch(lineage, gen, checkpoints)
      ensures whole ==> UsableMatch(lineage, gen, checkpoints) && NothingLost() && AllRooted(parents, checkpoints) && UpTo(live, gen)
    {
      hide Matches, Rooted, IsLastUsable, Lawful;
      if whole {
        forall r | r in live && !r.error
          ensures r.plan.gen <= gen
          ensures r.plan.id in checkpoints ==> Matches(r.plan, r.final, checkpoints[r.plan.id]) && Rooted(r.plan, checkpoints)
        {
        }
        forall i | 0 <= i < |parents| ensures Rooted(parents[i].plan, checkpoints) {
          assert ok[i] in ok && parents[i].Entry().plan == ok[i].plan;
        }
      }
    }

    lemma AdoptedNames(parents: seq<Node>, ok: seq<Record>, rerank: Record -> int)
      requires Adopted(parents, ok, rerank) && NamesDiffer(ok)
      ensures DistinctIds(parents)
    {
      forall i | 0 <= i < |parents| ensures parents[i].plan == ok[i].plan {
        assert parents[i].Entry().plan == ok[i].plan;
      }
    }

    lemma RankedAreAdopted(parents: seq<Node>, ranked: seq<Node>, ok: seq<Record>, rerank: Record -> int)
      requires Adopted(parents, ok, rerank) && multiset(ranked) == multiset(parents)
      ensures |ranked| == |ok| && forall a :: 0 <= a < |ranked| ==> FromUsable(ranked[a].Entry(), ok, rerank)
      ensures forall r :: r in ok ==> r.(rank := rerank(r)) in Entries(ranked)
    {
      assert |multiset(ranked)| == |ranked| && |multiset(parents)| == |parents|;
      forall a | 0 <= a < |ranked| ensures FromUsable(ranked[a].Entry(), ok, rerank) {
        assert ranked[a] in multiset(parents);
        var i :| 0 <= i < |parents| && parents[i] == ranked[a];
        assert ok[i] in ok;
      }
      forall r | r in ok ensures r.(rank := rerank(r)) in Entries(ranked) {
        var i :| 0 <= i < |ok| && ok[i] == r;
        assert parents[i] in multiset(ranked);
        var a :| 0 <= a < |ranked| && ranked[a] == parents[i];
        assert Entries(ranked)[a] == r.(rank := rerank(r));
      }
    }

    lemma ChildrenOfAdopted(next: seq<Node>, ranked: seq<Node>, from: seq<nat>, o: nat, ok: seq<Record>, rerank: Record -> int)
      requires AreChildren(Plans(next), Entries(Kept(ranked)), from, o)
      requires forall a :: 0 <= a < |ranked| ==> FromUsable(ranked[a].Entry(), ok, rerank)
      ensures forall p :: p in Plans(next) ==> exists r :: r in ok && ChildOf(p, r)
    {
      hide ChildOf, ChildPlan;
      forall p | p in Plans(next) ensures exists r :: r in ok && ChildOf(p, r) {
        var c :| 0 <= c < |Plans(next)| && Plans(next)[c] == p;
        var e := ranked[from[c]].Entry();
        assert Entries(Kept(ranked))[from[c]] == e;
        assert FromUsable(e, ok, rerank);
        var r :| r in ok && e == r.(rank := rerank(r));
        ChildPlanIsChild(r, c, o + 1 + c);
      }
    }

    lemma MatchesMeansFinal(r: Record, c: Checkpoint<W>)
      requires Matches(r.plan, r.final, c)
      ensures r.final == Some(c.gametime)
    {
    }

    // ----- the loop over generations --------------------------------------------

    /** The new records of generation `gen` are of the planned nodes, and their
        legs started from `first`. */
    static ghost predicate ToldBy(server: Server<W>, n: nat, gen: nat, first: map<Id, Checkpoint<W>>, ps: seq<Plan>,
                                  lineage: seq<Record>, made: seq<Option<W>>)
    {
      |made| == |lineage| && forall k :: n <= k < |lineage| && lineage[k].plan.gen == gen ==>
        lineage[k].plan in ps && Told(server, first, lineage[k], made[k])
    }

    /** What a generation has added to the lineage, whatever is pruned after it. */
    ghost predicate Grew(first: map<Id, Checkpoint<W>>, ps: seq<Plan>, gen: nat, known: seq<Record>, knownMade: seq<Option<W>>,
                         knownLive: seq<Record>)
      reads `lineage, `made, `live
    {
      && AddsOnly(known, lineage, ps) && NewTold(server, first, known, lineage, made) && knownMade <= made
      && live == knownLive + lineage[|known|..]
      && forall k :: |known| <= k < |lineage| ==> lineage[k].plan.gen == gen
    }

    lemma ToldStill(n: nat, start: nat, first: map<Id, Checkpoint<W>>, ps: seq<Plan>, gen: nat, at: map<Id, Checkpoint<W>>,
                    planned: seq<Plan>, soFar: seq<Record>, madeSoFar: seq<Option<W>>, liveSoFar: seq<Record>, liveAtFirst: seq<Record>)
      requires ToldBy(server, n, start, first, ps, soFar, madeSoFar) && n <= |soFar| && liveSoFar == liveAtFirst + soFar[n..]
      requires Grew(at, planned, gen, soFar, madeSoFar, liveSoFar)
      requires gen >= start && (gen == start ==> at == first && planned == ps)
      ensures ToldBy(server, n, start, first, ps, lineage, made)
      ensures soFar <= lineage && madeSoFar <= made && live == liveAtFirst + lineage[n..]
    {
      hide Told;
      assert soFar[n..] + lineage[|soFar|..] == lineage[n..];
      forall k | n <= k < |lineage| && lineage[k].plan.gen == start
        ensures lineage[k].plan in ps && Told(server, first, lineage[k], made[k])
      {
        if k < |soFar| {
          assert lineage[k] == soFar[k] && made[k] == madeSoFar[k];
        }
      }
    }

    lemma ToldNothing(start: nat, first: map<Id, Checkpoint<W>>, ps: seq<Plan>)
      requires |made| == |lineage|
      ensures ToldBy(server, |lineage|, start, first, ps, lineage, made)
    {
    }

    /** What the plans after a resume have to do with the disk before it. */
    static ghost predicate Adoption(known: seq<Record>, cps: map<Id, Checkpoint<W>>, gen: nat, first: map<Id, Checkpoint<W>>,
                                    ps: seq<Plan>)
    {
      && IsLastUsable(gen, known, cps)
      && (forall id :: id in first ==> id in cps && first[id] == cps[id])
      && forall p :: p in ps ==> exists r :: r in Usable(known, gen, cps) && ChildOf(p, r)
    }

    lemma ResumeAdopts(gen: nat, next: seq<Node>, before: map<Id, Checkpoint<W>>, liveBefore: seq<Record>)
      requires Resumed(gen, next, before, liveBefore) && exists gone: set<Id> :: checkpoints == before - gone
      ensures Adoption(lineage, before, gen, checkpoints, Plans(next))
      ensures forall g: nat, r :: IsLastUsable(g, lineage, before) && r in liveBefore && r.plan.gen <= g ==> r in live
    {
      hide IsLastUsable, ChildOf;
      forall g: nat, r | IsLastUsable(g, lineage, before) && r in liveBefore && r.plan.gen <= g ensures r in live {
        LastIsOne(g, gen, lineage, before);
      }
    }

    /** A child recorded right after a resume is what its record says if the record
        of its parent matched the checkpoint under its name -- and on a server that
        forgets nothing, only then. */
    static ghost predicate ChildrenTrueExactly(server: Server<W>, known: seq<Record>, cps: map<Id, Checkpoint<W>>,
                                               lineage: seq<Record>, made: seq<Option<W>>)
    {
      |made| == |lineage| && known <= lineage
      && forall g: nat, k :: IsLastUsable(g, known, cps) && |known| <= k < |lineage| && lineage[k].plan.gen == g + 1 ==>
        TrueExactly(server, known, cps, g, lineage[k], made[k])
    }

    static ghost predicate TrueExactly(server: Server<W>, known: seq<Record>, cps: map<Id, Checkpoint<W>>, g: nat, child: Record,
                                       world: Option<W>)
    {
      !child.error ==> exists r :: r in Usable(known, g, cps) && ChildOf(child.plan, r) && TrueIfMatched(server, cps, r, child, world)
    }

    static ghost predicate TrueIfMatched(server: Server<W>, cps: map<Id, Checkpoint<W>>, r: Record, child: Record, world: Option<W>)
      requires r.plan.id in cps
    {
      && (Matches(r.plan, r.final, cps[r.plan.id]) ==> RecordedTrue(server, child, world))
      && (Remembers(server) && RecordedTrue(server, child, world) ==> Matches(r.plan, r.final, cps[r.plan.id]))
    }

    lemma ToldAreTrueExactly(gen: nat, known: seq<Record>, cps: map<Id, Checkpoint<W>>, knownMade: seq<Option<W>>,
                             first: map<Id, Checkpoint<W>>, ps: seq<Plan>)
      requires Valid() && Truthful(server, known, cps, knownMade) && known <= lineage
      requires Adoption(known, cps, gen, first, ps) && ToldBy(server, |known|, gen + 1, first, ps, lineage, made)
      ensures ChildrenTrueExactly(server, known, cps, lineage, made)
    {
      hide Matches, RecordedTrue, Honest, Told, ChildOf, Remembers, IsLastUsable, TrueIfMatched;
      forall g: nat, k | IsLastUsable(g, known, cps) && |known| <= k < |lineage| && lineage[k].plan.gen == g + 1
        ensures TrueExactly(server, known, cps, g, lineage[k], made[k])
      {
        LastIsOne(g, gen, known, cps);
        if !lineage[k].error {
          var r :| r in Usable(known, gen, cps) && ChildOf(lineage[k].plan, r);
          OneChild(first, cps, r, lineage[k], made[k]);
        }
      }
    }

    lemma OneChild(first: map<Id, Checkpoint<W>>, cps: map<Id, Checkpoint<W>>, r: Record, child: Record, world: Option<W>)
      requires Valid() && !child.error && ChildOf(child.plan, r) && Told(server, first, child, world)
      requires r.plan.id in cps && Honest(server, cps[r.plan.id])
      requires forall id :: id in first ==> id in cps && first[id] == cps[id]
      ensures TrueIfMatched(server, cps, r, child, world)
    {
      hide Matches, RecordedTrue, Honest, Remembers;
      ChildIsTrueExactly(server, first, r, child, world);
    }

    /** A search, from generation 0 or from where it was killed.  It can be killed
        anywhere; whatever happens, the lineage stays lawful.  If the worlds were
        what their records say, they still are, provided every record that a resume
        adopts speaks of the checkpoint under its name; and the records that were
        not superseded keep their own checkpoints and their ancestors'.  The ordinals
        it has handed out can be read back, but for those of nodes it was killed before
        recording, or that it planned past its last generation. */
    method Search(resuming: bool, oracle: Oracle, rerank: Record -> int) returns (status: Status, ghost lost: nat)
      requires Valid() && LineageLawful([]) && Moves(oracle, gap)
      requires !resuming ==> lineage == [] && checkpoints == map[] && ordinal == 0
      modifies this
      ensures LineageLawful([]) && old(lineage) <= lineage && old(made) <= made
      ensures Lags(lost) && (status != Killed && lineage != old(lineage) ==> lost == 0)
      ensures old(WorldsAreTrue()) && (resuming ==> old(AdoptedMatch())) ==> WorldsAreTrue()
      ensures old(NothingLost()) && (resuming ==> old(AdoptedStand())) ==> NothingLost()
      ensures forall r :: r in lineage[|old(lineage)|..] ==> r in live
      ensures resuming ==> forall g: nat, r ::
        IsLastUsable(g, old(lineage), old(checkpoints)) && r in old(live) && r.plan.gen <= g ==> r in live
      ensures resuming && old(WorldsAreTrue()) ==>
        ChildrenTrueExactly(server, old(lineage), old(checkpoints), lineage, made)
      ensures status == NothingToResume <==> resuming && forall g: nat :: !IsLastUsable(g, old(lineage), old(checkpoints))
      ensures status == Killed ==> exists g: nat, n: nat :: Dies(oracle, g, n)
      ensures !resuming ==> RunsThrough(0, replicas, oracle, 0, status)
      ensures resuming && old(WorldsAreTrue()) && old(AdoptedMatch()) ==>
        forall g: nat :: IsLastUsable(g, old(lineage), old(checkpoints)) ==> GoesOn(g, oracle, |old(lineage)|, status)
    {
      hide LineageLawful, WorldsAreTrue, NothingLost, Standing, AllNew, Planned, Moves, Lawful, Truthful, AllGrounded, AdoptedMatch,
        AdoptedStand, IsLastUsable, ToldBy, ChildrenTrueExactly, Matched, RecordsRooted, Adoption, Resumed, Selected, Founding, Lags,
        Tallied, Named, Calm, Filled, Dies;
      if !resuming {
        FreshStart();
        FreshIsTrue();
      }
      ghost var truthful, whole := WorldsAreTrue() && (resuming ==> AdoptedMatch()), NothingLost() && (resuming ==> AdoptedStand());
      ghost var disk := checkpoints;
      Lengths([]);
      TruthMeans();
      var nodes, gen := [], 0;
      if resuming {
        var last;
        ghost var ranked, from, o;
        nodes, last, ranked, from, o := ResumeNodes(rerank);
        if last.None? {
          NoChildren(disk);
          return NothingToResume, 0;
        }
        gen := last.value + 1;
        ResumesThere(last.value, nodes, disk, old(live));
        ResumeAdopts(last.value, nodes, disk, old(live));
      } else {
        nodes := InitialNodes();
      }
      ghost var first, ps := checkpoints, Plans(nodes);
      status, lost := Generations(nodes, gen, oracle, truthful, whole);
      if resuming && old(WorldsAreTrue()) {
        ToldAreTrueExactly(gen - 1, old(lineage), disk, old(made), first, ps);
      }
    }

    /** If nothing happens to it and it keeps at least one node, the search runs to its
        end, from generation `start` on and from `n` nodes on. */
    ghost predicate RunsThrough(start: nat, n: nat, oracle: Oracle, from: nat, status: Status)
      reads `lineage
    {
      keepTop > 0 && Calm(oracle, start, generations, n, BeamWidth()) ==>
        status == Finished && Filled(lineage, from, start, generations, n, BeamWidth())
    }

    /** A search resumed after generation `g` runs through. */
    ghost predicate GoesOn(g: nat, oracle: Oracle, from: nat, status: Status)
      reads `lineage
    {
      RunsThrough(g + 1, BeamWidth(), oracle, from, status)
    }

    lemma ResumesThere(gen: nat, next: seq<Node>, disk: map<Id, Checkpoint<W>>, liveBefore: seq<Record>)
      requires Resumed(gen, next, disk, liveBefore)
      ensures IsLastUsable(gen, lineage, disk) && forall g: nat :: IsLastUsable(g, lineage, disk) <==> g == gen
    {
      hide IsLastUsable;
      forall g: nat | IsLastUsable(g, lineage, disk) ensures g == gen {
        LastIsOne(g, gen, lineage, disk);
      }
    }

    lemma FreshIsTrue()
      requires lineage == [] && made == [] && checkpoints == map[]
      ensures WorldsAreTrue()
    {
    }

    /** The loop over the generations, from `gen0` on. */
    method Generations(nodes0: seq<Node>, gen0: nat, oracle: Oracle, ghost truthful: bool, ghost whole: bool)
      returns (status: Status, ghost lost: nat)
      requires Valid() && Moves(oracle, gap)
      requires AllNew(nodes0) && Planned(nodes0, gen0) && LineageLawful(Plans(nodes0)) && Tallied(Plans(nodes0))
      requires Named(Plans(nodes0), gen0)
      requires truthful ==> WorldsAreTrue() && AllGrounded(nodes0, checkpoints)
      requires whole ==> NothingLost() && Standing(nodes0, gen0)
      modifies this, nodes0
      ensures LineageLawful([]) && old(lineage) <= lineage && old(made) <= made
      ensures Lags(lost) && (status != Killed && gen0 < generations ==> lost == 0)
      ensures gen0 >= generations ==> lineage == old(lineage) && lost == |nodes0|
      ensures status != NothingToResume && (status == Killed ==> exists g: nat, n: nat :: Dies(oracle, g, n))
      ensures truthful && keepTop > 0 && Calm(oracle, gen0, generations, |nodes0|, BeamWidth()) ==>
        status == Finished && Filled(lineage, |old(lineage)|, gen0, generations, |nodes0|, BeamWidth())
      ensures ToldBy(server, |old(lineage)|, gen0, old(checkpoints), Plans(nodes0), lineage, made)
      ensures live == old(live) + lineage[|old(lineage)|..]
      ensures truthful ==> WorldsAreTrue()
      ensures whole ==> NothingLost()
    {
      hide LineageLawful, WorldsAreTrue, NothingLost, Standing, AllNew, Planned, Moves, Lawful, AllGrounded, ToldBy, Grew, Lags,
        Tallied, Outcomes, Dies, DiesAt, RecordedUntil, Succeeding, Named, Calm, Filled, Valid;
      ghost var calm := truthful && keepTop > 0 && Calm(oracle, gen0, generations, |nodes0|, BeamWidth());
      FilledNone(lineage, gen0, gen0, |nodes0|, BeamWidth());
      if generations <= gen0 {
        FilledNone(lineage, gen0, generations, |nodes0|, BeamWidth());
      }
      var nodes, gen := nodes0, gen0;
      Lengths(Plans(nodes));
      ToldNothing(gen0, checkpoints, Plans(nodes));
      assert live == live + lineage[|lineage|..];
      status, lost := Finished, 0;
      if gen >= generations {
        DropPending(nodes);
        TalliedLags(Plans(nodes));
        lost := |nodes|;
      }
      while gen < generations && status == Finished
        invariant status == Finished && gen < generations ==>
          AllNew(nodes) && Planned(nodes, gen) && LineageLawful(Plans(nodes)) && (truthful ==> AllGrounded(nodes, checkpoints))
          && (whole ==> Standing(nodes, gen))
        invariant status != Finished || gen >= generations ==> LineageLawful([]) && Lags(lost)
        invariant status == Finished && gen < generations ==> Tallied(Plans(nodes))
        invariant gen0 < generations && status != Killed ==> lost == 0
        invariant gen0 >= generations ==> lineage == old(lineage) && lost == |nodes0|
        invariant status != NothingToResume && (status == Killed ==> exists g: nat, n: nat :: Dies(oracle, g, n))
        invariant status == Finished && gen < generations ==> Named(Plans(nodes), gen)
        invariant calm && gen < generations ==> |nodes| == if gen == gen0 then |nodes0| else BeamWidth()
        invariant calm ==> status == Finished && Filled(lineage, |old(lineage)|, gen0, gen, |nodes0|, BeamWidth())
        invariant gen0 < generations ==> gen <= generations
        invariant nodes == nodes0 || forall i :: 0 <= i < |nodes| ==> fresh(nodes[i])
        invariant truthful ==> WorldsAreTrue()
        invariant whole ==> NothingLost()
        invariant gen >= gen0 && (gen == gen0 ==> checkpoints == old(checkpoints) && Plans(nodes) == Plans(nodes0))
        invariant old(lineage) <= lineage && old(made) <= made
        invariant ToldBy(server, |old(lineage)|, gen0, old(checkpoints), Plans(nodes0), lineage, made)
        invariant live == old(live) + lineage[|old(lineage)|..]
        decreases generations - gen
      {
        ghost var soFar, madeSoFar, liveSoFar, at, planned, here := lineage, made, live, checkpoints, Plans(nodes), gen;
        if calm {
          CalmHere(nodes, oracle, gen0, gen, |nodes0|);
        }
        status, nodes, gen, lost := OneGeneration(nodes, gen, oracle, truthful, whole);
        if calm {
          GrewMeans(at, planned, here, soFar, madeSoFar, liveSoFar);
          FilledMore(soFar, lineage, planned, |old(lineage)|, gen0, here, |nodes0|, BeamWidth());
        }
        ToldStill(|old(lineage)|, gen0, old(checkpoints), Plans(nodes0), here, at, planned, soFar, madeSoFar, liveSoFar, old(live));
      }
    }

    /** In a calm search, two nodes of the generation succeed. */
    lemma CalmHere(nodes: seq<Node>, oracle: Oracle, start: nat, gen: nat, n: nat)
      requires Valid() && WorldsAreTrue() && AllGrounded(nodes, checkpoints) && Calm(oracle, start, generations, n, BeamWidth())
      requires start <= gen < generations && |nodes| == if gen == start then n else BeamWidth()
      ensures !Dies(oracle, gen, |nodes|) && Succeeding(server, checkpoints, Plans(nodes), oracle, gen) >= 2
      ensures gen < generations - 1 ==> !oracle.stop(gen)
    {
      hide Dies, Succeeding, Grounded, Honest, Startable;
      assert CalmAt(oracle, start, generations, n, BeamWidth(), gen);
      forall k | 0 <= k < |nodes| ensures Startable(server, checkpoints, Plans(nodes)[k]) {
        assert Grounded(nodes[k].plan, checkpoints);
        ParentIsThere(nodes[k].plan, checkpoints);
        GroundedStarts(server, checkpoints, nodes[k].plan);
      }
      LuckyOnesSucceed(server, checkpoints, Plans(nodes), oracle, gen);
    }

    lemma ParentIsThere(p: Plan, cps: map<Id, Checkpoint<W>>)
      requires Grounded(p, cps)
      ensures p.parent.Some? ==> p.parent.value in cps
    {
    }

    lemma GrewMeans(first: map<Id, Checkpoint<W>>, ps: seq<Plan>, gen: nat, known: seq<Record>, knownMade: seq<Option<W>>,
                    knownLive: seq<Record>)
      requires Grew(first, ps, gen, known, knownMade, knownLive)
      ensures AddsOnly(known, lineage, ps)
    {
    }

    lemma TruthMeans()
      ensures WorldsAreTrue() ==> Truthful(server, lineage, checkpoints, made)
    {
    }

    /** Without a generation to resume from, nothing is claimed. */
    lemma NoChildren(disk: map<Id, Checkpoint<W>>)
      requires |made| == |lineage| && forall g: nat :: !IsLastUsable(g, lineage, disk)
      ensures ChildrenTrueExactly(server, lineage, disk, lineage, made)
    {
    }

    lemma Lengths(pending: seq<Plan>)
      requires LineageLawful(pending)
      ensures |made| == |lineage|
    {
    }

    lemma FreshStart()
      requires LineageLawful([]) && lineage == []
      ensures made == [] && live == []
    {
      if live != [] {
        SomeRecord(live);
      }
    }

    lemma DropPending(nodes: seq<Node>)
      requires LineageLawful(Plans(nodes))
      ensures LineageLawful([])
    {
      ForgetAll(Plans(nodes));
    }

    /** Every node of the generation is in the lineage, its leg on disk unless it
        failed. */
    ghost predicate Ran(nodes: seq<Node>)
      reads this, nodes
    {
      AllLanded(Entries(nodes), checkpoints, gap) && forall i :: 0 <= i < |nodes| ==> Entries(nodes)[i] in lineage
    }

    method GenerationKeeps(nodes: seq<Node>, gen: nat, oracle: Oracle, ghost truthful: bool, ghost whole: bool)
      returns (killed: bool, ghost lost: nat)
      requires Valid() && Moves(oracle, gap) && AllNew(nodes) && Planned(nodes, gen) && LineageLawful(Plans(nodes))
      requires Tallied(Plans(nodes))
      requires truthful ==> WorldsAreTrue() && AllGrounded(nodes, checkpoints)
      requires whole ==> NothingLost() && Standing(nodes, gen)
      modifies this`checkpoints, this`lineage, this`made, this`live, nodes
      ensures LineageLawful([]) && (!killed ==> Ran(nodes))
      ensures Lags(lost) && lost == |nodes| - (|lineage| - |old(lineage)|) && (!killed ==> lost == 0)
      ensures Outcomes(server, segment, old(checkpoints), old(lineage), lineage, gen, oracle)
      ensures killed <==> Dies(oracle, gen, |nodes|)
      ensures killed ==>
        exists w: nat :: DiesAt(oracle, gen, |nodes|, w) && |lineage| == |old(lineage)| + RecordedUntil(oracle, gen, |nodes|, w)
      ensures !killed ==> |Survivors(nodes)| == Succeeding(server, old(checkpoints), Plans(nodes), oracle, gen)
      ensures Grew(old(checkpoints), Plans(nodes), gen, old(lineage), old(made), old(live))
      ensures truthful ==> WorldsAreTrue()
      ensures whole ==> NothingLost() && UpTo(live, gen) && AllRooted(nodes, checkpoints)
    {
      hide *;
      ghost var before, known, knownMade, knownLive := checkpoints, lineage, made, live;
      TalliedMeans(Plans(nodes));
      StandingMeans(nodes, gen);
      killed := RunGeneration(nodes, gen, oracle);
      WrittenMeans(nodes, before, known, knownMade, knownLive);
      AddedAreFew(known, lineage, Plans(nodes));
      lost := |nodes| - (|lineage| - |known|);
      GenerationLags(known, Plans(nodes));
      FaredMeans(server, segment, before, known, lineage, gen, oracle, checkpoints);
      GrewIs(nodes, gen, before, known, knownMade, knownLive);
      if !killed {
        SurvivorsOf(server, segment, before, known, nodes, gen, oracle);
        RanIs(nodes, known);
      }
      if whole {
        WholeStays(nodes, gen, before, known, knownMade, knownLive);
      }
    }

    lemma TalliedMeans(ps: seq<Plan>)
      requires Tallied(ps)
      ensures |ps| <= ordinal && CountsOn(ps, lineage, ordinal - |ps|)
    {
    }

    lemma StandingMeans(nodes: seq<Node>, gen: nat)
      requires LineageLawful(Plans(nodes))
      ensures forall p :: p in Plans(nodes) ==> GoodPlan(p, ordinal, gap)
      ensures NothingLost() ==> Matched(live, checkpoints) && RecordsRooted(live, checkpoints)
      ensures Standing(nodes, gen) ==> AllRooted(nodes, checkpoints) && FreshNames(nodes, live) && UpTo(live, gen)
    {
      hide GoodPlan, Lawful, Matched, RecordsRooted, AllRooted, FreshNames, UpTo;
      assert Plans(nodes) + [] == Plans(nodes);
      PendingAreGood(nodes, []);
    }

    lemma GrewIs(nodes: seq<Node>, gen: nat, first: map<Id, Checkpoint<W>>, known: seq<Record>, knownMade: seq<Option<W>>,
                 knownLive: seq<Record>)
      requires Planned(nodes, gen) && Written(nodes, first, known, knownMade, knownLive)
      ensures Grew(first, Plans(nodes), gen, known, knownMade, knownLive)
    {
      hide Planned, AddsOnly, NewTold, NewLanded;
      AddedGens(nodes, gen, known);
    }

    lemma RanIs(nodes: seq<Node>, known: seq<Record>)
      requires lineage == known + Entries(nodes) && AllLanded(Entries(nodes), checkpoints, gap)
      ensures Ran(nodes)
    {
      hide AllLanded;
      forall i | 0 <= i < |nodes| ensures Entries(nodes)[i] in lineage {
        assert lineage[|known| + i] == Entries(nodes)[i];
      }
    }

    lemma WholeStays(nodes: seq<Node>, gen: nat, before: map<Id, Checkpoint<W>>, known: seq<Record>, knownMade: seq<Option<W>>,
                     knownLive: seq<Record>)
      requires Planned(nodes, gen) && Written(nodes, before, known, knownMade, knownLive) && LineageLawful([])
      requires Untouched(nodes, before, checkpoints) && forall p :: p in Plans(nodes) ==> GoodPlan(p, ordinal, gap)
      requires Matched(knownLive, before) && RecordsRooted(knownLive, before)
      requires AllRooted(nodes, before) && FreshNames(nodes, knownLive) && UpTo(knownLive, gen)
      ensures NothingLost() && UpTo(live, gen) && AllRooted(nodes, checkpoints)
    {
      hide Planned, AddsOnly, NewTold, NewLanded, Untouched, GoodPlan, Matched, RecordsRooted, AllRooted, FreshNames, UpTo,
        LineageLawful;
      AddedAreFew(known, lineage, Plans(nodes));
      AddedAreGood(nodes, known, knownLive);
      GenerationLosesNothing(knownLive, lineage[|known|..], nodes, gen, before, checkpoints, ordinal, gap);
    }

    lemma AddedGens(nodes: seq<Node>, gen: nat, known: seq<Record>)
      requires Planned(nodes, gen) && AddsOnly(known, lineage, Plans(nodes))
      ensures forall k :: |known| <= k < |lineage| ==> lineage[k].plan.gen == gen
    {
    }

    lemma AddedAreGood(nodes: seq<Node>, known: seq<Record>, knownLive: seq<Record>)
      requires LineageLawful([]) && AddsOnly(known, lineage, Plans(nodes)) && NewLanded(known, lineage, checkpoints, gap)
      requires live == knownLive + lineage[|known|..]
      ensures forall r :: r in lineage[|known|..] ==> r.plan in Plans(nodes) && Landed(r, checkpoints, gap)
      ensures forall r :: r in knownLive + lineage[|known|..] ==> GoodRecord(r, ordinal, gap)
    {
      hide Landed, GoodRecord;
      forall r | r in lineage[|known|..] ensures r.plan in Plans(nodes) && Landed(r, checkpoints, gap) {
        var i :| 0 <= i < |lineage[|known|..]| && lineage[|known|..][i] == r;
        assert lineage[|known| + i] == r;
      }
    }

    lemma SurvivorsAreCandidates(nodes: seq<Node>, gen: nat)
      requires LineageLawful([]) && Ran(nodes) && Planned(nodes, gen)
      ensures Candidates(Survivors(nodes), gen, ordinal, gap)
      ensures OnDisk(Survivors(nodes), checkpoints, gap)
      ensures AllRooted(nodes, checkpoints) ==> AllRooted(Survivors(nodes), checkpoints)
    {
      hide GoodPlan, EndsBy, Matches, Landed, Rooted;
      var alive := Survivors(nodes);
      forall i | 0 <= i < |alive|
        ensures alive[i].plan.gen == gen && GoodRecord(alive[i].Entry(), ordinal, gap)
        ensures Landed(alive[i].Entry(), checkpoints, gap)
        ensures AllRooted(nodes, checkpoints) ==> Rooted(alive[i].plan, checkpoints)
      {
        var k :| 0 <= k < |nodes| && nodes[k] == alive[i];
        assert Entries(nodes)[k] in lineage;
        assert Landed(Entries(nodes)[k], checkpoints, gap);
      }
    }

    /** Run a generation and plan the next. */
    method OneGeneration(nodes: seq<Node>, gen: nat, oracle: Oracle, ghost truthful: bool, ghost whole: bool)
      returns (status: Status, next: seq<Node>, after: nat, ghost lost: nat)
      requires Valid() && gen < generations && Moves(oracle, gap)
      requires AllNew(nodes) && Planned(nodes, gen) && LineageLawful(Plans(nodes)) && Tallied(Plans(nodes))
      requires truthful ==> WorldsAreTrue() && AllGrounded(nodes, checkpoints)
      requires whole ==> NothingLost() && Standing(nodes, gen)
      modifies this, nodes
      ensures gen < after <= generations
      ensures status == Finished && after < generations ==>
        AllNew(next) && Planned(next, after) && LineageLawful(Plans(next)) && (truthful ==> AllGrounded(next, checkpoints))
        && (whole ==> Standing(next, after))
      ensures status != Finished || after >= generations ==> LineageLawful([]) && Lags(lost)
      ensures status == Finished && after < generations ==> Tallied(Plans(next))
      ensures Grew(old(checkpoints), Plans(nodes), gen, old(lineage), old(made), old(live))
      ensures lost == if status == Killed then |nodes| - (|lineage| - |old(lineage)|) else 0
      ensures Outcomes(server, segment, old(checkpoints), old(lineage), lineage, gen, oracle)
      ensures status == (
        if Dies(oracle, gen, |nodes|) then Killed
        else if Succeeding(server, old(checkpoints), Plans(nodes), oracle, gen) < 2 then TooFew else Finished)
      ensures after == if status == Finished && !oracle.stop(gen) && gen < generations - 1 then gen + 1 else generations
      ensures after < generations ==> |next| == (if keepTop > 0 then BeamWidth() else 0) && Named(Plans(next), after)
      ensures status == Killed ==>
        exists w: nat :: DiesAt(oracle, gen, |nodes|, w) && |lineage| == |old(lineage)| + RecordedUntil(oracle, gen, |nodes|, w)
      ensures status != Killed ==> |lineage| == |old(lineage)| + |nodes|
      ensures forall i :: 0 <= i < |next| ==> fresh(next[i])
      ensures truthful ==> WorldsAreTrue()
      ensures whole ==> NothingLost()
    {
      hide LineageLawful, WorldsAreTrue, NothingLost, Standing, AllNew, Planned, Moves, Lawful, Truthful, GoodRecord, Landed, UpTo,
        Candidates, OnDisk, Ran, AllGrounded, AllRooted, Grew, Chosen, AddsOnly, NewTold, Lags, Tallied, Outcomes, Dies, DiesAt,
        RecordedUntil, Succeeding, Survivors, Named;
      next, after, lost := [], generations, 0;
      var killed;
      killed, lost := GenerationKeeps(nodes, gen, oracle, truthful, whole);
      if killed {
        return Killed, [], generations, lost;
      }
      var alive := Survivors(nodes);
      if |alive| < 2 {
        return TooFew, [], generations, 0;
      }
      status := Finished;
      if !oracle.stop(gen) && gen < generations - 1 {
        SurvivorsAreCandidates(nodes, gen);
        ghost var ranked, from;
        LagsNone();
        ghost var o := ordinal;
        next, ranked, from := NextGeneration(alive, gen);
        ChosenCounts(alive, next, ranked, from, o);
        ChosenAre(nodes, next, ranked, from, o, gen);
        after := gen + 1;
      }
    }

    lemma ChosenAre(nodes: seq<Node>, next: seq<Node>, ranked: seq<Node>, from: seq<nat>, o: nat, gen: nat)
      requires Chosen(Survivors(nodes), ranked, next, from, o) && Planned(nodes, gen) && Survivors(nodes) != []
      ensures |next| == (if keepTop > 0 then BeamWidth() else 0) && Named(Plans(next), gen + 1)
    {
      hide AreChildren, InOrder, Ordered, ChildCount, Even;
      var alive, parents := Survivors(nodes), Entries(Kept(ranked));
      assert |multiset(ranked)| == |ranked| && |multiset(alive)| == |alive|;
      forall i | 0 <= i < |parents| ensures parents[i].plan.gen == gen {
        assert ranked[i] in multiset(alive);
        assert ranked[i] in nodes;
      }
      ChildrenAreNamed(Plans(next), parents, from, o, gen);
    }

    // ----- replay -----------------------------------------------------------------

    /** Re-run one lineage: a fresh world from the recorded base seed, then every
        resume point in order, each leg to its recorded gametime.  A replay that
        ends gives the world of the lineage at the gametime it ends at; if every
        leg works and lands on its target, it ends, and at the recorded one. */
    method Replay(rec: Record, luck: nat -> Luck) returns (end: Option<int>, id: Id)
      requires Valid() && rec.final.Some?
      modifies this`checkpoints, this`lineage, this`made, this`ordinal
      ensures id == Replayed(rec.plan.id, |rec.plan.schedule|)
      ensures end.Some? ==>
        id in checkpoints
        && checkpoints[id].world == Rebuild(server, rec.plan.base, rec.plan.schedule, end.value)
        && checkpoints[id].gametime == end.value
      ensures Possible(server, rec.plan.base, rec.plan.schedule, rec.final.value)
          && Replayable(rec.plan.schedule, rec.final.value) && AllWell(luck)
        ==> end == rec.final
    {
      var n := |rec.plan.schedule|;
      id := Replayed(rec.plan.id, n);
      end := None;
      ghost var well := Possible(server, rec.plan.base, rec.plan.schedule, rec.final.value)
        && Replayable(rec.plan.schedule, rec.final.value) && AllWell(luck);
      for i := 0 to n + 1
        invariant i > 0 ==> end.Some? && LegAt(rec, i - 1, end.value)
        invariant i > 0 && well ==> end == Some(TargetOf(rec, i - 1))
      {
        hide LegAt, AllWell, Possible, Replayable;
        ghost var from := if i == 0 then server.time(server.setup(rec.plan.base)) else end.value;
        end := ReplayLeg(rec, i, luck(i), from);
        if well {
          LegIsWell(rec, i, luck, from);
        }
        if end.None? {
          return;
        }
      }
      assert rec.plan.schedule[..n] == rec.plan.schedule;
    }

    /** Leg `i` of a replay has ended, at gametime `end`, in the lineage's world. */
    ghost predicate LegAt(rec: Record, i: nat, end: int)
      reads `checkpoints
    {
      && i <= |rec.plan.schedule| && Replayed(rec.plan.id, i) in checkpoints
      && var c := checkpoints[Replayed(rec.plan.id, i)];
      c.world == Rebuild(server, rec.plan.base, rec.plan.schedule[..i], end) && c.gametime == end && server.time(c.world) == end
    }

    function ReplayTarget(rec: Record, i: nat, from: int): int
      requires i <= |rec.plan.schedule| && rec.final.Some?
    {
      if TargetOf(rec, i) != 0 then TargetOf(rec, i) else from + segment
    }

    /** One leg.  It starts only where the lineage says its parent ended. */
    method ReplayLeg(rec: Record, i: nat, luck: Luck, ghost from: int) returns (end: Option<int>)
      requires Valid() && rec.final.Some? && i <= |rec.plan.schedule|
      requires i == 0 ==> from == server.time(server.setup(rec.plan.base))
      requires i > 0 ==> LegAt(rec, i - 1, from)
      modifies this`checkpoints, this`lineage, this`made, this`ordinal
      ensures end.Some? <==>
        (i > 0 ==> from == rec.plan.schedule[i - 1].gametime) && (luck.first || luck.second) && luck.fate.Completes?
      ensures end.Some? ==> LegAt(rec, i, end.value)
      ensures end.Some? ==> end.value == Reached(from, ReplayTarget(rec, i, from), luck.fate.landing)
    {
      var plan := LegPlan(rec, i);
      var o := NextOrdinal();
      var n := new Node(plan, o, Some(TargetOf(rec, i)));
      ghost var before := checkpoints;
      RunNode(n, luck);
      lineage := lineage + [n.Entry()];
      made := made + [WorldOf(n.Entry())];
      if n.failed {
        return None;
      }
      end := n.final;
      if i > 0 {
        ResumesWhereRecorded(rec, i, before[Replayed(rec.plan.id, i - 1)]);
      } else {
        assert rec.plan.schedule[..0] == [];
      }
    }

    lemma LegIsWell(rec: Record, i: nat, luck: nat -> Luck, from: int)
      requires rec.final.Some? && i <= |rec.plan.schedule|
      requires Possible(server, rec.plan.base, rec.plan.schedule, rec.final.value)
      requires Replayable(rec.plan.schedule, rec.final.value) && AllWell(luck)
      requires from == if i == 0 then server.time(server.setup(rec.plan.base)) else TargetOf(rec, i - 1)
      ensures luck(i).first && luck(i).fate.Completes?
      ensures i > 0 ==> from == rec.plan.schedule[i - 1].gametime
      ensures Reached(from, ReplayTarget(rec, i, from), luck(i).fate.landing) == TargetOf(rec, i)
    {
      LegsArePossible(rec.plan.base, rec.plan.schedule, rec.final.value, i);
    }

    function TargetOf(rec: Record, i: nat): int
      requires i <= |rec.plan.schedule| && rec.final.Some?
    {
      if i < |rec.plan.schedule| then rec.plan.schedule[i].gametime else rec.final.value
    }

    function LegPlan(rec: Record, i: nat): Plan
      requires i <= |rec.plan.schedule|
    {
      var s := rec.plan.schedule;
      Plan(Replayed(rec.plan.id, i), i, rec.plan.base,
           if i == 0 then None else Some(Replayed(rec.plan.id, i - 1)),
           if i == 0 then None else Some(s[i - 1].reseed),
           s[..i],
           if i == 0 then None else Some(s[i - 1].gametime))
    }

    lemma ResumesWhereRecorded(rec: Record, i: nat, c: Checkpoint<W>)
      requires Valid() && 0 < i <= |rec.plan.schedule|
      requires c.world == Rebuild(server, rec.plan.base, rec.plan.schedule[..i - 1], c.gametime)
      requires c.gametime == rec.plan.schedule[i - 1].gametime
      ensures forall g ::
        server.run(server.resume(c.world, Some(rec.plan.schedule[i - 1].reseed)), g)
          == Rebuild(server, rec.plan.base, rec.plan.schedule[..i], g)
    {
      var s := rec.plan.schedule[..i];
      assert s[..|s| - 1] == rec.plan.schedule[..i - 1] && s[|s| - 1] == rec.plan.schedule[i - 1];
    }

    lemma LegsArePossible(base: int, schedule: seq<Stop>, final: int, i: nat)
      requires Possible(server, base, schedule, final) && i <= |schedule|
      ensures i == 0 ==> server.time(server.setup(base)) <= if |schedule| > 0 then schedule[0].gametime else final
      ensures i > 0 ==> schedule[i - 1].gametime <= if i < |schedule| then schedule[i].gametime else final
      decreases |schedule|
    {
      if i < |schedule| {
        LegsArePossible(base, schedule[..|schedule| - 1], schedule[|schedule| - 1].gametime, i);
      }
    }
  }

  function Names(nodes: seq<Node>): (ids: seq<Id>)
    ensures |ids| == |nodes| && forall i :: 0 <= i < |ids| ==> ids[i] == nodes[i].plan.id
  {
    seq(|nodes|, i requires 0 <= i < |nodes| => nodes[i].plan.id)
  }

  /** Whatever record without an error a search has ever written, replaying it on
      the same server either stops short of the recorded gametime or past it, or
      rebuilds the very world that was checkpointed when the record was written --
      and that the checkpoint under its name still holds, if it is still the one the
      record speaks of.  It does rebuild it if every leg works and lands on its
      target. */
  method ReplayReproduces<W(!new)>(search: BranchRun<W>, i: nat, replay: BranchRun<W>, luck: nat -> Luck)
    returns (end: Option<int>, id: Id)
    requires search.Valid() && search.WorldsAreTrue() && replay.Valid() && replay.server == search.server && replay != search
    requires i < |search.lineage| && !search.lineage[i].error
    modifies replay
    ensures i < |search.made| && search.made[i].Some? && search.lineage[i].final.Some?
    ensures end.Some? ==> id in replay.checkpoints && replay.checkpoints[id].gametime == end.value
    ensures end == search.lineage[i].final ==>
      replay.checkpoints[id].world == search.made[i].value
      && var r := search.lineage[i];
      r.plan.id in search.checkpoints && Matches(r.plan, r.final, search.checkpoints[r.plan.id]) ==>
        replay.checkpoints[id].world == search.checkpoints[r.plan.id].world
    ensures AllWell(luck) && Replayable(search.lineage[i].plan.schedule, search.lineage[i].final.value) ==>
      end == search.lineage[i].final
  {
    var rec := search.lineage[i];
    assert rec in search.lineage && RecordedTrue(search.server, rec, search.made[i]);
    end, id := replay.Replay(rec, luck);
    assert rec.plan.id in search.checkpoints ==> Honest(search.server, search.checkpoints[rec.plan.id]);
  }
}
