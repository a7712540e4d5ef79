// The worlds of a branching search (branch.py): what a lineage says a world is,
// and when the checkpoint on disk is that world.

module BranchWorlds {
  import opened Options

  /** A resume point: the `/detmc reseed` issued, and the gametime it was issued at. */
  datatype Stop = Stop(gametime: int, reseed: int)

  /** A server.  Setting a world up, resuming a copy of a saved one and ticking it
      to a gametime are functions of what they start from: that is what the rest
      of the mod is for. */
  datatype Server<!W> = Server(
    setup: int -> W,
    resume: (W, Option<int>) -> W,
    run: (W, int) -> W,
    time: W -> int)

  /** Resuming takes no tick, and a world that is ticked on to a gametime is at it. */
  ghost predicate Physical<W(!new)>(s: Server<W>) {
    && (forall w: W, seed :: s.time(s.resume(w, seed)) == s.time(w))
    && (forall w: W, g :: g >= s.time(w) ==> s.time(s.run(w, g)) == g)
  }

  /** The world a lineage describes: set up from the base seed, then for every
      resume point in order ticked to its gametime and reseeded, then ticked to
      the final gametime. */
  function Rebuild<W>(s: Server<W>, base: int, schedule: seq<Stop>, final: int): W
    decreases |schedule|
  {
    if schedule == [] then s.run(s.setup(base), final)
    else
      var last := schedule[|schedule| - 1];
      s.run(s.resume(Rebuild(s, base, schedule[..|schedule| - 1], last.gametime), Some(last.reseed)), final)
  }

  /** The lineage can be followed: no leg ends before it starts. */
  ghost predicate Possible<W>(s: Server<W>, base: int, schedule: seq<Stop>, final: int)
    decreases |schedule|
  {
    if schedule == [] then final >= s.time(s.setup(base))
    else
      var last := schedule[|schedule| - 1];
      final >= last.gametime && Possible(s, base, schedule[..|schedule| - 1], last.gametime)
  }

  lemma {:induction false} RebuiltTime<W(!new)>(s: Server<W>, base: int, schedule: seq<Stop>, final: int)
    requires Physical(s) && Possible(s, base, schedule, final)
    ensures s.time(Rebuild(s, base, schedule, final)) == final
    decreases |schedule|
  {
    if schedule != [] {
      var last := schedule[|schedule| - 1];
      RebuiltTime(s, base, schedule[..|schedule| - 1], last.gametime);
    }
  }

  // ----- nodes, records, checkpoints ------------------------------------------

  /** `g<gen>n<index>`, and `<node>-r<leg>` for the legs of a replay. */
  datatype Id = Searched(gen: nat, index: nat) | Replayed(of: Id, leg: nat)

  /** What a node is created with. */
  datatype Plan = Plan(
    id: Id,
    gen: nat,
    base: int,
    parent: Option<Id>,
    reseed: Option<int>,
    schedule: seq<Stop>,
    resumeAt: Option<int>)

  /** A line of the lineage file. */
  datatype Record = Record(plan: Plan, final: Option<int>, rank: int, error: bool)

  /** A checkpoint directory: the saved world, and what its meta file says of it. */
  datatype Checkpoint<W> = Checkpoint(world: W, gametime: int, base: int, schedule: seq<Stop>)

  /** A child's reseed argument. */
  function ChildSeed(ordinal: int): int {
    ordinal * 1000003 + 7
  }

  function OrdinalOf(seed: int): int {
    (seed - 7) / 1000003
  }

  lemma OrdinalRecovered(ordinal: int)
    ensures OrdinalOf(ChildSeed(ordinal)) == ordinal
  {
  }

  /** Read back from any reseed, the ordinal is the last whose seed is not above it. */
  lemma OrdinalIs(seed: int)
    ensures ChildSeed(OrdinalOf(seed)) <= seed < ChildSeed(OrdinalOf(seed) + 1)
  {
  }

  // ----- well-formed lineages -------------------------------------------------

  /** The gametimes of the resume points are at least `gap` apart, and so is
      `final` from the last of them. */
  predicate Spaced(schedule: seq<Stop>, gap: nat) {
    forall i, j :: 0 <= i < j < |schedule| ==> schedule[i].gametime + (j - i) * gap <= schedule[j].gametime
  }

  predicate EndsBy(schedule: seq<Stop>, final: int, gap: nat) {
    schedule != [] ==> schedule[|schedule| - 1].gametime + gap <= final
  }

  /** One resume point a generation, the last of them the node's own. */
  predicate GoodPlan(p: Plan, ordinal: nat, gap: nat) {
    && p.id.Searched? && p.id.gen == p.gen && |p.schedule| == p.gen
    && Spaced(p.schedule, gap)
    && (p.gen == 0 ==> p.parent.None? && p.reseed.None? && p.resumeAt.None?)
    && (p.gen > 0 ==>
        && p.parent.Some? && p.parent.value.Searched? && p.parent.value.gen == p.gen - 1
        && p.reseed.Some? && p.resumeAt.Some?
        && p.schedule[p.gen - 1] == Stop(p.resumeAt.value, p.reseed.value)
        && 1 <= OrdinalOf(p.reseed.value) <= ordinal
        && p.reseed.value == ChildSeed(OrdinalOf(p.reseed.value)))
  }

  predicate GoodRecord(r: Record, ordinal: nat, gap: nat) {
    GoodPlan(r.plan, ordinal, gap) && (!r.error ==> r.final.Some? && EndsBy(r.plan.schedule, r.final.value, gap))
  }

  /** No two children share a reseed, and no two founders a name. */
  predicate Distinct(ps: seq<Plan>) {
    && (forall i, j :: 0 <= i < j < |ps| && ps[i].gen > 0 && ps[j].gen > 0 ==> ps[i].reseed != ps[j].reseed)
    && (forall i, j :: 0 <= i < j < |ps| && ps[i].gen == 0 && ps[j].gen == 0 ==> ps[i].id != ps[j].id)
  }

  function PlansOf(lineage: seq<Record>): (ps: seq<Plan>)
    ensures |ps| == |lineage| && forall i :: 0 <= i < |ps| ==> ps[i] == lineage[i].plan
  {
    seq(|lineage|, i requires 0 <= i < |lineage| => lineage[i].plan)
  }

  /** A lineage and the nodes about to be run. */
  predicate Lawful(lineage: seq<Record>, pending: seq<Plan>, ordinal: nat, gap: nat) {
    && (forall r :: r in lineage ==> GoodRecord(r, ordinal, gap))
    && (forall p :: p in pending ==> GoodPlan(p, ordinal, gap))
    && Distinct(PlansOf(lineage) + pending)
  }

  // ----- faithful checkpoints -------------------------------------------------

  /** The checkpoint is the world its own meta file describes. */
  ghost predicate Honest<W>(s: Server<W>, c: Checkpoint<W>) {
    c.world == Rebuild(s, c.base, c.schedule, c.gametime) && Possible(s, c.base, c.schedule, c.gametime)
  }

  /** The checkpoint is the one a record of this plan and end speaks of. */
  predicate Matches<W>(p: Plan, final: Option<int>, c: Checkpoint<W>) {
    c.base == p.base && c.schedule == p.schedule && final == Some(c.gametime)
  }

  /** `world` is what the record says was checkpointed when it was written. */
  ghost predicate RecordedTrue<W>(s: Server<W>, r: Record, world: Option<W>) {
    && r.final.Some? && Possible(s, r.plan.base, r.plan.schedule, r.final.value)
    && world == Some(Rebuild(s, r.plan.base, r.plan.schedule, r.final.value))
  }

  /** Every checkpoint is honest, and every record without an error was written over
      the world it describes. */
  ghost predicate Truthful<W>(s: Server<W>, lineage: seq<Record>, cps: map<Id, Checkpoint<W>>, made: seq<Option<W>>) {
    && |made| == |lineage|
    && (forall id :: id in cps ==> Honest(s, cps[id]))
    && (forall i :: 0 <= i < |lineage| && !lineage[i].error ==> RecordedTrue(s, lineage[i], made[i]))
  }

  /** The checkpoint kept under a record's name is the one it speaks of. */
  ghost predicate Matched<W>(lineage: seq<Record>, cps: map<Id, Checkpoint<W>>) {
    forall r :: r in lineage && !r.error && r.plan.id in cps ==> Matches(r.plan, r.final, cps[r.plan.id])
  }

  /** The world a leg ticks. */
  function LegStart<W>(s: Server<W>, cps: map<Id, Checkpoint<W>>, p: Plan): W
    requires p.parent.Some? ==> p.parent.value in cps
  {
    if p.parent.None? then s.setup(p.base) else s.resume(cps[p.parent.value].world, p.reseed)
  }

  /** The node can start from what is on disk. */
  predicate Startable<W(!new)>(s: Server<W>, cps: map<Id, Checkpoint<W>>, p: Plan) {
    p.parent.Some? ==>
      p.parent.value in cps && (p.resumeAt.Some? ==> s.time(s.resume(cps[p.parent.value].world, p.reseed)) == p.resumeAt.value)
  }

  /** What was checkpointed when a record without an error was written: the node's
      leg, run from the checkpoint of its parent to the recorded gametime. */
  ghost predicate Told<W(!new)>(s: Server<W>, cps: map<Id, Checkpoint<W>>, r: Record, world: Option<W>) {
    !r.error ==>
      && Startable(s, cps, r.plan) && r.final.Some? && r.final.value >= s.time(LegStart(s, cps, r.plan))
      && world == Some(s.run(LegStart(s, cps, r.plan), r.final.value))
  }

  /** The node's parent is there, and the node's schedule continues its parent's. */
  predicate Grounded<W>(p: Plan, cps: map<Id, Checkpoint<W>>) {
    && (p.parent.None? ==> p.schedule == [])
    && (p.parent.Some? ==>
        && p.parent.value in cps && p.reseed.Some?
        && var c := cps[p.parent.value];
        && p.base == c.base && p.resumeAt == Some(c.gametime)
        && p.schedule == c.schedule + [Stop(c.gametime, p.reseed.value)])
  }

  /** A leg of a grounded node makes the world its lineage describes. */
  lemma LegIsRebuilt<W(!new)>(s: Server<W>, cps: map<Id, Checkpoint<W>>, p: Plan, g: int)
    requires Physical(s) && Grounded(p, cps)
    requires p.parent.Some? ==> Honest(s, cps[p.parent.value])
    ensures s.run(LegStart(s, cps, p), g) == Rebuild(s, p.base, p.schedule, g)
    ensures p.parent.Some? ==> s.time(LegStart(s, cps, p)) == cps[p.parent.value].gametime
    ensures g >= s.time(LegStart(s, cps, p)) ==> Possible(s, p.base, p.schedule, g)
  {
    if p.parent.Some? {
      var c := cps[p.parent.value];
      assert p.schedule[..|p.schedule| - 1] == c.schedule;
      RebuiltTime(s, c.base, c.schedule, c.gametime);
    }
  }

  /** Every resume point of the node has its checkpoint on disk. */
  ghost predicate Rooted<W>(p: Plan, cps: map<Id, Checkpoint<W>>) {
    forall k :: 0 <= k < |p.schedule| ==> HasAncestor(p, cps, k)
  }

  ghost predicate HasAncestor<W>(p: Plan, cps: map<Id, Checkpoint<W>>, k: nat)
    requires k < |p.schedule|
  {
    exists id :: id in cps && AncestorAt(id, cps[id], p, k)
  }

  predicate AncestorAt<W>(id: Id, c: Checkpoint<W>, p: Plan, k: nat)
    requires k < |p.schedule|
  {
    id.Searched? && id.gen == k && c.base == p.base && c.schedule == p.schedule[..k] && c.gametime == p.schedule[k].gametime
  }

  lemma ChildIsRooted<W>(parent: Plan, p: Plan, cps: map<Id, Checkpoint<W>>)
    requires Rooted(parent, cps) && Grounded(p, cps) && p.parent == Some(parent.id) && parent.id.Searched?
    requires parent.id.gen == |parent.schedule|
    requires cps[parent.id].base == parent.base && cps[parent.id].schedule == parent.schedule
    ensures Rooted(p, cps)
  {
    var n := |parent.schedule|;
    forall k | 0 <= k < |p.schedule| ensures HasAncestor(p, cps, k) {
      if k == n {
        assert p.schedule[..n] == parent.schedule;
        assert AncestorAt(parent.id, cps[parent.id], p, k);
      } else {
        assert HasAncestor(parent, cps, k);
        var id :| id in cps && AncestorAt(id, cps[id], parent, k);
        assert p.schedule[..k] == parent.schedule[..k];
        assert AncestorAt(id, cps[id], p, k);
      }
    }
  }

  /** Checkpoints of a later generation do not matter to a node's ancestry. */
  lemma RootsStay<W>(p: Plan, cps: map<Id, Checkpoint<W>>, after: map<Id, Checkpoint<W>>)
    requires Rooted(p, cps)
    requires forall id :: id in cps && id.Searched? && id.gen < |p.schedule| ==> id in after && after[id] == cps[id]
    ensures Rooted(p, after)
  {
    forall k | 0 <= k < |p.schedule| ensures HasAncestor(p, after, k) {
      assert HasAncestor(p, cps, k);
      var id :| id in cps && AncestorAt(id, cps[id], p, k);
      assert AncestorAt(id, after[id], p, k);
    }
  }

  /** Every record without an error whose checkpoint is kept has its ancestors'
      checkpoints kept. */
  ghost predicate RecordsRooted<W>(lineage: seq<Record>, cps: map<Id, Checkpoint<W>>) {
    forall r :: r in lineage && !r.error && r.plan.id in cps ==> Rooted(r.plan, cps)
  }

  // ----- names used twice -----------------------------------------------------

  lemma NamesakeDiffers(lineage: seq<Record>, p: Plan, e: Record, ordinal: nat, gap: nat)
    requires Lawful(lineage, [p], ordinal, gap) && e in lineage && e.plan.id == p.id && p.gen > 0
    ensures e.plan.schedule != p.schedule
  {
    var i :| 0 <= i < |lineage| && lineage[i] == e;
    var ps := PlansOf(lineage) + [p];
    assert ps[i] == e.plan && ps[|lineage|] == p;
    assert GoodRecord(e, ordinal, gap);
    assert p in [p] && GoodPlan(p, ordinal, gap);
    assert e.plan.schedule[e.plan.gen - 1].reseed == e.plan.reseed.value;
    assert p.schedule[p.gen - 1].reseed == p.reseed.value;
  }

  /** A node that completes under the name of an older record without an error
      replaces that record's checkpoint by another world's: after it, records and
      checkpoints match exactly when no older record without an error has its
      name. */
  lemma CompletionMatchesExactly<W>(lineage: seq<Record>, r: Record, cps: map<Id, Checkpoint<W>>, c: Checkpoint<W>,
                                    ordinal: nat, gap: nat)
    requires Lawful(lineage, [r.plan], ordinal, gap) && Matched(lineage, cps)
    requires !r.error && r.plan.gen > 0 && Matches(r.plan, r.final, c)
    ensures Matched(lineage + [r], cps[r.plan.id := c]) <==> forall e :: e in lineage && !e.error ==> e.plan.id != r.plan.id
  {
    var after := cps[r.plan.id := c];
    forall e | e in lineage && !e.error && e.plan.id == r.plan.id ensures e.plan.schedule != r.plan.schedule {
      NamesakeDiffers(lineage, r.plan, e, ordinal, gap);
    }
    if forall e :: e in lineage && !e.error ==> e.plan.id != r.plan.id {
      forall e | e in lineage + [r] && !e.error && e.plan.id in after ensures Matches(e.plan, e.final, after[e.plan.id]) {
      }
    } else {
      var e :| e in lineage && !e.error && e.plan.id == r.plan.id;
      assert e in lineage + [r];
    }
  }

  // ----- what a mismatch costs ------------------------------------------------

  /** The server that remembers everything done to a world. */
  datatype History = Began(base: int) | Reseeded(of: History, seed: Option<int>) | Ticked(of: History, until: int)

  function TimeOf(h: History): int {
    match h
    case Began(_) => 0
    case Reseeded(of, _) => TimeOf(of)
    case Ticked(_, until) => until
  }

  function Rememberer(): Server<History> {
    Server(base => Began(base), (w, seed) => Reseeded(w, seed), (w, g) => Ticked(w, g), w => TimeOf(w))
  }

  lemma RemembererIsPhysical()
    ensures Physical(Rememberer())
  {
  }

  /** No two different histories lead to the same world. */
  ghost predicate Remembers<W(!new)>(s: Server<W>) {
    && (forall a, b :: s.setup(a) == s.setup(b) ==> a == b)
    && (forall w: W, i, v: W, j :: s.resume(w, i) == s.resume(v, j) ==> w == v && i == j)
    && (forall w: W, g, v: W, h :: s.run(w, g) == s.run(v, h) ==> w == v && g == h)
    && (forall b, w: W, i :: s.setup(b) != s.resume(w, i))
  }

  lemma RemembererRemembers()
    ensures Remembers(Rememberer())
  {
  }

  lemma {:induction false} RebuildRemembers<W(!new)>(server: Server<W>, b: int, s: seq<Stop>, f: int, c: int, t: seq<Stop>, g: int)
    requires Remembers(server) && Rebuild(server, b, s, f) == Rebuild(server, c, t, g)
    ensures b == c && s == t && f == g
    decreases |s|
  {
    if s != [] && t != [] {
      var i, j := s[|s| - 1], t[|t| - 1];
      RebuildRemembers(server, b, s[..|s| - 1], i.gametime, c, t[..|t| - 1], j.gametime);
      assert s == s[..|s| - 1] + [i] && t == t[..|t| - 1] + [j];
    }
  }

  /** A record that is adopted as a parent stands for its checkpoint's world, on
      every server, exactly when the checkpoint's own meta file says what the
      record says. */
  lemma AdoptionExactly<W>(p: Plan, final: int, c: Checkpoint<W>)
    ensures Matches(p, Some(final), c) <==>
      forall s: Server<History> :: Physical(s) ==>
        Rebuild(s, p.base, p.schedule, final) == Rebuild(s, c.base, c.schedule, c.gametime)
  {
    if forall s: Server<History> :: Physical(s) ==>
         Rebuild(s, p.base, p.schedule, final) == Rebuild(s, c.base, c.schedule, c.gametime)
    {
      RemembererIsPhysical();
      RemembererRemembers();
      RebuildRemembers(Rememberer(), p.base, p.schedule, final, c.base, c.schedule, c.gametime);
    }
  }

  // ----- what becomes of an adopted record's children -------------------------

  /** The plan continues the record. */
  predicate ChildOf(p: Plan, r: Record) {
    && r.final.Some? && p.parent == Some(r.plan.id) && p.base == r.plan.base && p.reseed.Some? && p.resumeAt == r.final
    && p.schedule == r.plan.schedule + [Stop(r.final.value, p.reseed.value)]
  }

  lemma GroundedExactly<W>(p: Plan, r: Record, cps: map<Id, Checkpoint<W>>)
    requires ChildOf(p, r)
    ensures Grounded(p, cps) <==> r.plan.id in cps && Matches(r.plan, r.final, cps[r.plan.id])
  {
    if Grounded(p, cps) {
      var c := cps[r.plan.id];
      assert p.schedule[..|p.schedule| - 1] == c.schedule;
      assert p.schedule[..|p.schedule| - 1] == r.plan.schedule;
    }
  }

  /** A child of an adopted record was written over the world its own record
      describes if its parent's record matches the checkpoint it started from; on
      a server that forgets nothing, only then. */
  lemma ChildIsTrueExactly<W(!new)>(s: Server<W>, cps: map<Id, Checkpoint<W>>, r: Record, child: Record, world: Option<W>)
    requires Physical(s) && !child.error && ChildOf(child.plan, r) && Told(s, cps, child, world)
    requires Honest(s, cps[r.plan.id])
    ensures Matches(r.plan, r.final, cps[r.plan.id]) ==> RecordedTrue(s, child, world)
    ensures Remembers(s) && RecordedTrue(s, child, world) ==> Matches(r.plan, r.final, cps[r.plan.id])
  {
    var p, c := child.plan, cps[r.plan.id];
    GroundedExactly(p, r, cps);
    if Matches(r.plan, r.final, c) {
      LegIsRebuilt(s, cps, p, child.final.value);
    }
    if Remembers(s) && RecordedTrue(s, child, world) {
      var t := c.schedule + [Stop(c.gametime, p.reseed.value)];
      assert t[..|t| - 1] == c.schedule;
      assert Rebuild(s, c.base, t, child.final.value) == s.run(LegStart(s, cps, p), child.final.value);
      RebuildRemembers(s, p.base, p.schedule, child.final.value, c.base, t, child.final.value);
      assert p.schedule[..|t| - 1] == c.schedule && p.schedule[..|t| - 1] == r.plan.schedule;
      assert p.schedule[|t| - 1] == t[|t| - 1];
    }
  }
}
