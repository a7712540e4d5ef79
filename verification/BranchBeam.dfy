// The beam of a branching search (branch.py): which records a killed run can be
// resumed from, how parents are ranked, and how children are shared out.

module BranchBeam {
  import opened Options
  import opened Decimals
  import opened Division
  import opened BranchWorlds

  // ----- names as text --------------------------------------------------------

  function Text(id: Id): string {
    match id
    case Searched(gen, index) => "g" + PrintNat(gen) + "n" + PrintNat(index)
    case Replayed(of, leg) => Text(of) + "-r" + PrintNat(leg)
  }

  predicate LexLeq(a: string, b: string) {
    a == "" || (b != "" && (a[0] < b[0] || (a[0] == b[0] && LexLeq(a[1..], b[1..]))))
  }

  lemma {:induction false} LexTotal(a: string, b: string)
    ensures LexLeq(a, b) || LexLeq(b, a)
  {
    if a != "" && b != "" && a[0] == b[0] {
      LexTotal(a[1..], b[1..]);
    }
  }

  lemma {:induction false} LexTransitive(a: string, b: string, c: string)
    requires LexLeq(a, b) && LexLeq(b, c)
    ensures LexLeq(a, c)
  {
    if a != "" && a[0] == b[0] && b[0] == c[0] {
      LexTransitive(a[1..], b[1..], c[1..]);
    }
  }

  /** The character at which two texts part. */
  predicate PartAt(a: string, b: string, i: nat) {
    i < |a| && i < |b| && a[..i] == b[..i] && a[i] < b[i]
  }

  lemma PartsFirst(a: string, b: string, i: nat)
    requires PartAt(a, b, i)
    ensures i == 0 || a[0] == b[0]
  {
    if i > 0 {
      assert a[..i][0] == a[0] && b[..i][0] == b[0];
    }
  }

  /** A text comes before those that it begins, and before those that have a larger
      character where they part. */
  lemma {:induction false} LexIsOrder(a: string, b: string)
    ensures LexLeq(a, b) <==> a <= b || exists i: nat :: PartAt(a, b, i)
  {
    if a != "" && b != "" {
      if a[0] == b[0] {
        LexIsOrder(a[1..], b[1..]);
        assert a == [a[0]] + a[1..] && b == [b[0]] + b[1..];
        if i: nat :| PartAt(a[1..], b[1..], i) {
          assert a[..i + 1] == [a[0]] + a[1..][..i] && b[..i + 1] == [b[0]] + b[1..][..i];
          assert PartAt(a, b, i + 1);
        }
        if i: nat :| PartAt(a, b, i) {
          assert i > 0;
          assert a[..i][1..] == a[1..][..i - 1] && b[..i][1..] == b[1..][..i - 1];
          assert PartAt(a[1..], b[1..], i - 1);
        }
      } else {
        if a[0] < b[0] {
          assert PartAt(a, b, 0);
        }
        forall i: nat | PartAt(a, b, i) ensures i == 0 {
          PartsFirst(a, b, i);
        }
      }
    }
  }

  /** The better rank first, then the name. */
  predicate RankedBefore(a: Record, b: Record) {
    a.rank > b.rank || (a.rank == b.rank && LexLeq(Text(a.plan.id), Text(b.plan.id)))
  }

  lemma RankedTotal(a: Record, b: Record)
    ensures RankedBefore(a, b) || RankedBefore(b, a)
  {
    LexTotal(Text(a.plan.id), Text(b.plan.id));
  }

  lemma RankedTransitive(a: Record, b: Record, c: Record)
    requires RankedBefore(a, b) && RankedBefore(b, c)
    ensures RankedBefore(a, c)
  {
    if a.rank == b.rank == c.rank {
      LexTransitive(Text(a.plan.id), Text(b.plan.id), Text(c.plan.id));
    }
  }

  // ----- sharing children out -------------------------------------------------

  predicate NoRepeats(ids: seq<Id>) {
    forall i, j :: 0 <= i < j < |ids| ==> ids[i] != ids[j]
  }

  /** The keys of a dict filled in this order. */
  function KeysOf(ids: seq<Id>): (ks: seq<Id>)
    ensures NoRepeats(ks) && forall id :: id in ks <==> id in ids
    ensures |ks| <= |ids|
  {
    if ids == [] then []
    else
      var rest := KeysOf(ids[..|ids| - 1]);
      if ids[|ids| - 1] in rest then rest else rest + [ids[|ids| - 1]]
  }

  lemma {:induction false} KeysOfDistinct(ids: seq<Id>)
    ensures NoRepeats(ids) ==> KeysOf(ids) == ids
    ensures !NoRepeats(ids) ==> |KeysOf(ids)| < |ids|
  {
    if ids != [] {
      var front, last := ids[..|ids| - 1], ids[|ids| - 1];
      KeysOfDistinct(front);
      RepeatsSnoc(front, last);
      assert ids == front + [last];
      hide NoRepeats;
    }
  }

  function Sum(ids: seq<Id>, counts: map<Id, nat>): nat
    requires forall id :: id in ids ==> id in counts
  {
    if ids == [] then 0 else Sum(ids[..|ids| - 1], counts) + counts[ids[|ids| - 1]]
  }

  lemma {:induction false} SumBump(ids: seq<Id>, counts: map<Id, nat>, id: Id)
    requires NoRepeats(ids) && (forall k :: k in ids ==> k in counts) && id in counts
    ensures Sum(ids, counts[id := counts[id] + 1]) == Sum(ids, counts) + if id in ids then 1 else 0
  {
    if ids != [] {
      var front := ids[..|ids| - 1];
      SumBump(front, counts, id);
      assert ids == front + [ids[|ids| - 1]];
    }
  }

  lemma {:induction false} SumConst(ids: seq<Id>, counts: map<Id, nat>, n: nat)
    requires forall k :: k in ids ==> k in counts && counts[k] == n
    ensures Sum(ids, counts) == |ids| * n
  {
    if ids != [] {
      SumConst(ids[..|ids| - 1], counts, n);
    }
  }

  /** Counted once for every time they are kept, children are as many as counted
      once a key exactly when no name is kept twice. */
  lemma {:induction false} SumOfKeys(ids: seq<Id>, counts: map<Id, nat>)
    requires forall k :: k in ids ==> k in counts && counts[k] > 0
    ensures Sum(ids, counts) >= Sum(KeysOf(ids), counts)
    ensures Sum(ids, counts) == Sum(KeysOf(ids), counts) <==> NoRepeats(ids)
  {
    if ids != [] {
      var front, last := ids[..|ids| - 1], ids[|ids| - 1];
      SumOfKeys(front, counts);
      RepeatsSnoc(front, last);
      assert ids == front + [last] && last in ids;
      hide NoRepeats;
      var ks := KeysOf(ids);
      assert last !in KeysOf(front) ==> ks[..|ks| - 1] == KeysOf(front);
    }
  }

  lemma RepeatsSnoc(front: seq<Id>, last: Id)
    ensures NoRepeats(front + [last]) <==> NoRepeats(front) && last !in front
  {
    var ids := front + [last];
    if NoRepeats(ids) {
      assert forall i :: 0 <= i < |front| ==> front[i] == ids[i];
      assert ids[|front|] == last;
    }
  }

  /** After some rounds of the beam, and places up to `pos` of the next one. */
  ghost predicate Shared(ids: seq<Id>, counts: map<Id, nat>, children: nat, rounds: nat, pos: nat) {
    forall j :: 0 <= j < |ids| ==> ids[j] in counts && counts[ids[j]] == children + rounds + if j < pos then 1 else 0
  }

  lemma SharedStep(ids: seq<Id>, counts: map<Id, nat>, children: nat, rounds: nat, pos: nat)
    requires NoRepeats(ids) && Shared(ids, counts, children, rounds, pos) && pos < |ids|
    ensures
      var after := counts[ids[pos] := counts[ids[pos]] + 1];
      Shared(ids, after, children, rounds, pos + 1) && (pos + 1 == |ids| ==> Shared(ids, after, children, rounds + 1, 0))
  {
  }

  lemma SharedEvenly(ids: seq<Id>, counts: map<Id, nat>, children: nat, rounds: nat, pos: nat)
    requires Shared(ids, counts, children, rounds, pos)
    ensures forall i, j :: 0 <= i < j < |ids| ==>
      ids[i] in counts && ids[j] in counts && counts[ids[j]] <= counts[ids[i]] <= counts[ids[j]] + 1
  {
  }

  /** Give every kept parent its children, then hand out one more at a time, the
      best parent first, until the beam is as wide as it should be. */
  method ShareOut(ids: seq<Id>, children: nat, width: nat) returns (counts: map<Id, nat>)
    ensures forall id :: id in counts <==> id in ids
    ensures ids != [] ==> Sum(KeysOf(ids), counts) == if |KeysOf(ids)| * children < width then width else |KeysOf(ids)| * children
    ensures forall id :: id in counts ==> counts[id] >= children
    ensures NoRepeats(ids) ==>
      forall i, j :: 0 <= i < j < |ids| ==> counts[ids[j]] <= counts[ids[i]] <= counts[ids[j]] + 1
  {
    hide Sum, KeysOf, NoRepeats;
    counts := map id | id in ids :: children;
    var ks := KeysOf(ids);
    ghost var given := |ks| * children;
    SumConst(ks, counts, children);
    var i := 0;
    ghost var rounds: nat, pos: nat := 0, 0;
    while Sum(ks, counts) < width && ids != []
      invariant forall id :: id in counts <==> id in ids
      invariant forall id :: id in counts ==> counts[id] >= children
      invariant Sum(ks, counts) == given + i
      invariant i > 0 ==> given + i <= width
      invariant ids != [] ==> i == rounds * |ids| + pos && pos < |ids|
      invariant NoRepeats(ids) ==> Shared(ids, counts, children, rounds, pos)
      decreases width - Sum(ks, counts)
    {
      hide Shared;
      DivMod(rounds, pos, |ids|);
      var id := ids[i % |ids|];
      SumBump(ks, counts, id);
      if NoRepeats(ids) {
        SharedStep(ids, counts, children, rounds, pos);
      }
      counts := counts[id := counts[id] + 1];
      i := i + 1;
      pos := pos + 1;
      if pos == |ids| {
        assert (rounds + 1) * |ids| == rounds * |ids| + |ids|;
        rounds, pos := rounds + 1, 0;
      }
    }
    if NoRepeats(ids) {
      SharedEvenly(ids, counts, children, rounds, pos);
    }
  }

  // ----- where to resume ------------------------------------------------------

  /** The records of a generation that finished and whose checkpoint is there. */
  function Usable<W>(recs: seq<Record>, gen: nat, cps: map<Id, Checkpoint<W>>): (ok: seq<Record>)
    ensures forall r :: r in ok <==> r in recs && r.plan.gen == gen && !r.error && r.plan.id in cps
  {
    if recs == [] then []
    else
      var front, r := Usable(recs[..|recs| - 1], gen, cps), recs[|recs| - 1];
      if r.plan.gen == gen && !r.error && r.plan.id in cps then front + [r] else front
  }

  lemma {:induction false} UsableSnoc<W>(front: seq<Record>, r: Record, gen: nat, cps: map<Id, Checkpoint<W>>)
    ensures Usable(front + [r], gen, cps) ==
      Usable(front, gen, cps) + if r.plan.gen == gen && !r.error && r.plan.id in cps then [r] else []
  {
    assert (front + [r])[..|front|] == front;
  }

  ghost predicate IsLastUsable<W>(gen: nat, recs: seq<Record>, cps: map<Id, Checkpoint<W>>) {
    |Usable(recs, gen, cps)| >= 2 && forall g: nat :: g > gen ==> |Usable(recs, g, cps)| < 2
  }

  /** The last generation with at least two usable records, and those records. */
  method LastUsableGeneration<W>(recs: seq<Record>, cps: map<Id, Checkpoint<W>>) returns (gen: Option<nat>, ok: seq<Record>)
    ensures gen.Some? ==> IsLastUsable(gen.value, recs, cps) && ok == Usable(recs, gen.value, cps)
    ensures gen.None? ==> ok == [] && forall g: nat :: |Usable(recs, g, cps)| < 2
  {
    var top: nat := 0;
    for i := 0 to |recs|
      invariant forall j :: 0 <= j < i ==> recs[j].plan.gen <= top
    {
      if recs[i].plan.gen > top {
        top := recs[i].plan.gen;
      }
    }
    forall g: nat | g > top ensures Usable(recs, g, cps) == [] {
      NoneUsable(recs, g, cps);
    }
    var g: int := top;
    while g >= 0
      invariant -1 <= g <= top
      invariant forall h: nat :: h > g ==> |Usable(recs, h, cps)| < 2
    {
      ok := Usable(recs, g, cps);
      if |ok| >= 2 {
        return Some(g), ok;
      }
      g := g - 1;
    }
    return None, [];
  }

  lemma {:induction false} NoneUsable<W>(recs: seq<Record>, gen: nat, cps: map<Id, Checkpoint<W>>)
    requires forall i :: 0 <= i < |recs| ==> recs[i].plan.gen != gen
    ensures Usable(recs, gen, cps) == []
  {
    if recs != [] {
      NoneUsable(recs[..|recs| - 1], gen, cps);
    }
  }

  lemma MatchedNamesDiffer<W>(lineage: seq<Record>, i: nat, j: nat, cps: map<Id, Checkpoint<W>>, ordinal: nat, gap: nat)
    requires Lawful(lineage, [], ordinal, gap) && i < j < |lineage|
    requires forall k :: k == i || k == j ==>
      !lineage[k].error && lineage[k].plan.id in cps && Matches(lineage[k].plan, lineage[k].final, cps[lineage[k].plan.id])
    ensures lineage[i].plan.id != lineage[j].plan.id
  {
    var a, b := lineage[i], lineage[j];
    assert a in lineage && b in lineage;
    assert GoodRecord(a, ordinal, gap) && GoodRecord(b, ordinal, gap);
    var ps := PlansOf(lineage) + [];
    assert ps[i] == a.plan && ps[j] == b.plan;
  }

  predicate NamesDiffer(rs: seq<Record>) {
    forall i, j :: 0 <= i < j < |rs| ==> rs[i].plan.id != rs[j].plan.id
  }

  lemma NamesSnoc(rs: seq<Record>, r: Record)
    requires NamesDiffer(rs) && forall e :: e in rs ==> e.plan.id != r.plan.id
    ensures NamesDiffer(rs + [r])
  {
  }

  /** Every usable record speaks of the checkpoint that is under its name. */
  predicate UsableMatch<W>(lineage: seq<Record>, gen: nat, cps: map<Id, Checkpoint<W>>) {
    forall r :: r in Usable(lineage, gen, cps) ==> Matches(r.plan, r.final, cps[r.plan.id])
  }

  /** Records that match the checkpoints under their names have different names. */
  lemma {:induction false} UsableNamesDiffer<W>(lineage: seq<Record>, gen: nat, cps: map<Id, Checkpoint<W>>, ordinal: nat, gap: nat)
    requires Lawful(lineage, [], ordinal, gap) && UsableMatch(lineage, gen, cps)
    ensures NamesDiffer(Usable(lineage, gen, cps))
  {
    if lineage != [] {
      var n := |lineage| - 1;
      var front, r := lineage[..n], lineage[n];
      FrontIsLawful(lineage, ordinal, gap);
      assert forall e :: e in Usable(front, gen, cps) ==> e in Usable(lineage, gen, cps);
      hide Lawful, NamesDiffer;
      UsableNamesDiffer(front, gen, cps, ordinal, gap);
      if !r.error && r.plan.gen == gen && r.plan.id in cps {
        assert r in Usable(lineage, gen, cps);
        forall e | e in Usable(front, gen, cps) ensures e.plan.id != r.plan.id {
          var i :| 0 <= i < n && lineage[i] == e;
          MatchedNamesDiffer(lineage, i, n, cps, ordinal, gap);
        }
        NamesSnoc(Usable(front, gen, cps), r);
      }
    } else {
      assert Usable(lineage, gen, cps) == [];
    }
  }

  lemma FrontIsLawful(lineage: seq<Record>, ordinal: nat, gap: nat)
    requires Lawful(lineage, [], ordinal, gap) && lineage != []
    ensures Lawful(lineage[..|lineage| - 1], [], ordinal, gap)
  {
    var front := lineage[..|lineage| - 1];
    assert forall e :: e in front ==> e in lineage;
    assert forall i :: 0 <= i < |front| ==> (PlansOf(front) + [])[i] == (PlansOf(lineage) + [])[i];
  }
}
