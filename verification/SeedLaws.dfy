// What the seed source promises over whole runs: the stream never dies, entity
// seeds never repeat under one master, a reseed is the launch it is named after,
// and a save and restart anywhere in a run changes nothing that follows.

module SeedLaws {
  import opened Options
  import opened Longs
  import opened SeedMath
  import opened SeedSource
  import opened SeedValues

  // ----- reachable states -----------------------------------------------------

  /** A server whose world seed is bound and whose stream is alive. */
  predicate Live(s: State) {
    && s.worldSeedBound
    && s.baseMaster == Xor(s.propSeed, s.worldSeed)
    && s.words != Words(ZERO, ZERO)
  }

  predicate SameServer(s: State, t: State) {
    && s.propSeed == t.propSeed && s.worldSeed == t.worldSeed
    && s.worldSeedBound == t.worldSeedBound && s.baseMaster == t.baseMaster
  }

  lemma {:induction false} RunKeepsServer(s: State, ops: seq<Op>)
    ensures SameServer(s, Run(s, ops))
    ensures s.words != Words(ZERO, ZERO) ==> Run(s, ops).words != Words(ZERO, ZERO)
    decreases |ops|
  {
    hide Advance, Keyed, Expand, Increment, Xor;
    if ops != [] {
      AfterKeepsWordsAlive(s, ops[0]);
      RunKeepsServer(After(s, ops[0]), ops[1..]);
    }
  }

  lemma AfterKeepsWordsAlive(s: State, op: Op)
    ensures s.words != Words(ZERO, ZERO) ==> After(s, op).words != Words(ZERO, ZERO)
    ensures op.Reseed? ==> After(s, op).words != Words(ZERO, ZERO)
  {
    hide Advance, Keyed, Expand, Increment, Xor;
    match op
    case NextSeed => if s.words != Words(ZERO, ZERO) { AdvanceKeepsNonZero(s.words); }
    case EntitySeed =>
    case Reseed(n) => FallbackUnreachable(Xor(n, s.worldSeed));
  }

  /** Every boot, whatever is in the sidecar, and every run after it leaves the
      shared stream alive: the all-zero state is never reached. */
  lemma StreamNeverDies(propSeed: Long, preBind: seq<Op>, worldSeed: Long, file: Sidecar, ops: seq<Op>)
    ensures
      var s := Run(Boot(propSeed, preBind, worldSeed, file), ops);
      Live(s) && s.propSeed == propSeed && s.worldSeed == worldSeed
  {
    hide Keyed, Expand, Xor, Parsed, AllZero;
    BootIsLive(propSeed, preBind, worldSeed, file);
    RunKeepsServer(Boot(propSeed, preBind, worldSeed, file), ops);
  }

  lemma BootIsLive(propSeed: Long, preBind: seq<Op>, worldSeed: Long, file: Sidecar)
    ensures
      var s := Boot(propSeed, preBind, worldSeed, file);
      Live(s) && s.propSeed == propSeed && s.worldSeed == worldSeed
  {
    hide Keyed, Expand, Xor, Parsed;
    RunKeepsServer(Init(propSeed), preBind);
    FallbackUnreachable(Xor(propSeed, worldSeed));
  }

  // ----- save and restart -----------------------------------------------------

  lemma LongText(props: map<string, string>, key: string, x: Long)
    requires key in props && props[key] == PrintLong(x)
    ensures ParseLong(props, key) == Some(x)
  {
    hide Print, Parse, Signed, Low64;
    SignedRoundTrip(x, 0);
    ParsePrint(Signed(x));
  }

  lemma BoolText(b: bool)
    ensures ParseBool(PrintBool(b)) == b
  {
  }

  /** Any spelling of "true" in small and capital letters is true, and nothing else is. */
  lemma BoolIsTrue(s: string)
    ensures ParseBool(s) <==>
      |s| == 4 && s[0] in ['t', 'T'] && s[1] in ['r', 'R'] && s[2] in ['u', 'U'] && s[3] in ['e', 'E']
  {
  }

  lemma ParsePersisted(s: State)
    ensures Parsed(Persisted(s)) ==
      Some(Saved(s.currentMaster, s.baseMaster, s.reseeded, s.reseedArg, s.words, s.issued, s.entityOrdinal))
  {
    hide PrintLong, ParseLong, PrintBool, ParseBool;
    var props := Persisted(s);
    LongText(props, "masterSeed", s.currentMaster);
    LongText(props, "baseMaster", s.baseMaster);
    BoolText(s.reseeded);
    LongText(props, "reseedArg", s.reseedArg);
    LongText(props, "stateLo", s.words.lo);
    LongText(props, "stateHi", s.words.hi);
    LongText(props, "issued", s.issued);
    LongText(props, "entityOrdinal", s.entityOrdinal);
  }

  /** A sidecar brings back exactly the state it was written from. */
  lemma RestartRestores(s: State, preBind: seq<Op>)
    requires Live(s)
    ensures Boot(s.propSeed, preBind, s.worldSeed, Some(Persisted(s))) == s
  {
    hide Keyed, Expand, Xor, Parsed, Persisted;
    RunKeepsServer(Init(s.propSeed), preBind);
    ParsePersisted(s);
  }

  /** One server session: what was drawn before the world seed was bound, then
      the operations of the session, then a save and a shutdown. */
  datatype Session = Session(preBind: seq<Op>, ops: seq<Op>)

  function Flatten(sessions: seq<Session>): seq<Op> {
    if sessions == [] then [] else sessions[0].ops + Flatten(sessions[1..])
  }

  /** The state each session starts from, given that the first starts from `s`. */
  function CutState(s: State, sessions: seq<Session>): State
    decreases |sessions|
  {
    if sessions == [] then s else
      var saved := Persisted(Run(s, sessions[0].ops));
      CutState(Boot(s.propSeed, sessions[0].preBind, s.worldSeed, Some(saved)), sessions[1..])
  }

  function CutResults(s: State, sessions: seq<Session>): seq<Long>
    decreases |sessions|
  {
    if sessions == [] then [] else
      var saved := Persisted(Run(s, sessions[0].ops));
      Results(s, sessions[0].ops)
        + CutResults(Boot(s.propSeed, sessions[0].preBind, s.worldSeed, Some(saved)), sessions[1..])
  }

  lemma {:induction false} RunConcat(s: State, a: seq<Op>, b: seq<Op>)
    ensures Run(s, a + b) == Run(Run(s, a), b)
    ensures Results(s, a + b) == Results(s, a) + Results(Run(s, a), b)
    decreases |a|
  {
    hide After, Result;
    if a == [] {
      assert a + b == b;
    } else {
      assert (a + b)[0] == a[0] && (a + b)[1..] == a[1..] + b;
      RunConcat(After(s, a[0]), a[1..], b);
    }
  }

  /** However a run is cut into sessions, and whatever each restart draws before
      it knows the world seed, the seeds handed out and the final state are those
      of the uninterrupted run. */
  lemma {:induction false} CutRunEqualsUncut(s: State, sessions: seq<Session>)
    requires Live(s)
    ensures CutResults(s, sessions) == Results(s, Flatten(sessions))
    ensures CutState(s, sessions) == Run(s, Flatten(sessions))
    decreases |sessions|
  {
    if sessions != [] {
      hide Run, Results, Boot, Persisted, Live, SameServer;
      var ops := sessions[0].ops;
      var s' := Run(s, ops);
      RunIsLive(s, ops);
      RestartRestores(s', sessions[0].preBind);
      CutRunEqualsUncut(s', sessions[1..]);
      RunConcat(s, ops, Flatten(sessions[1..]));
    }
  }

  lemma RunIsLive(s: State, ops: seq<Op>)
    requires Live(s)
    ensures Live(Run(s, ops)) && Run(s, ops).propSeed == s.propSeed && Run(s, ops).worldSeed == s.worldSeed
  {
    hide Run, Xor;
    RunKeepsServer(s, ops);
  }

  /** A sidecar written before the reseed command existed carries five keys. */
  function OldPersisted(s: State): map<string, string> {
    Persisted(s) - {"baseMaster", "reseeded", "reseedArg"}
  }

  lemma ParseOldPersisted(s: State)
    ensures Parsed(OldPersisted(s)) ==
      Some(Saved(s.currentMaster, s.currentMaster, false, ZERO, s.words, s.issued, s.entityOrdinal))
  {
    hide PrintLong, ParseLong, PrintBool, ParseBool;
    var props := OldPersisted(s);
    LongText(props, "masterSeed", s.currentMaster);
    LongText(props, "stateLo", s.words.lo);
    LongText(props, "stateHi", s.words.hi);
    LongText(props, "issued", s.issued);
    LongText(props, "entityOrdinal", s.entityOrdinal);
  }

  /** Such a sidecar still restores a server that was never reseeded. */
  lemma OldSidecarRestores(s: State, preBind: seq<Op>)
    requires Live(s) && s.currentMaster == s.baseMaster && !s.reseeded && s.reseedArg == ZERO
    ensures Boot(s.propSeed, preBind, s.worldSeed, Some(OldPersisted(s))) == s
  {
    hide Keyed, Expand, Xor, Parsed, OldPersisted;
    RunKeepsServer(Init(s.propSeed), preBind);
    ParseOldPersisted(s);
  }

  // ----- entity seeds ---------------------------------------------------------

  function EntityCount(ops: seq<Op>): nat {
    if ops == [] then 0 else (if ops[0].EntitySeed? then 1 else 0) + EntityCount(ops[1..])
  }

  lemma {:induction false} OrdinalAfter(s: State, ops: seq<Op>)
    ensures Value(Run(s, ops).entityOrdinal) == (Value(s.entityOrdinal) + EntityCount(ops)) % TWO_64
    decreases |ops|
  {
    hide Value, Low64, Keyed, Expand, Advance, Xor;
    if ops != [] {
      var t := After(s, ops[0]);
      Low64Value(Value(s.entityOrdinal) + 1);
      OrdinalAfter(t, ops[1..]);
      CountModulo(Value(s.entityOrdinal), EntityCount(ops[1..]));
    }
  }

  lemma CountModulo(v: int, n: int)
    requires 0 <= v < TWO_64
    ensures (((v + 1) % TWO_64) + n) % TWO_64 == (v + 1 + n) % TWO_64
  {
    if v + 1 == TWO_64 {
      assert (v + 1 + n) % TWO_64 == n % TWO_64;
    }
  }

  /** No two entities constructed under one master share a seed: in any run that
      seeds at most 2^64 entities, reseeds in between included. */
  lemma EntitySeedsNeverRepeat(s: State, ops: seq<Op>, i: nat, j: nat)
    requires i < j < |ops| && ops[i].EntitySeed? && ops[j].EntitySeed?
    requires EntityCount(ops) <= TWO_64
    ensures Run(s, ops[..i]).currentMaster == Run(s, ops[..j]).currentMaster ==> Results(s, ops)[i] != Results(s, ops)[j]
  {
    hide Derive, Run, EntityCount, After, SeedMath.Output, Xor;
    var a, b := Run(s, ops[..i]), Run(s, ops[..j]);
    assert ops == ops[..i] + ops[i..] == ops[..j] + ops[j..];
    RunConcat(s, ops[..i], ops[i..]);
    RunConcat(s, ops[..j], ops[j..]);
    assert Results(s, ops)[i] == Results(a, ops[i..])[0] == Result(a, ops[i]);
    assert Results(s, ops)[j] == Results(b, ops[j..])[0] == Result(b, ops[j]);
    assert ops[..j] == ops[..i] + ops[i..j];
    RunConcat(s, ops[..i], ops[i..j]);
    CountWindow(ops, i, j);
    OrdinalMoves(a, ops[i..j]);
    if a.currentMaster == b.currentMaster {
      DerivedSeedsDistinct(a.currentMaster, DOMAIN_ENTITY, a.entityOrdinal, b.entityOrdinal);
    }
  }

  lemma OrdinalMoves(s: State, ops: seq<Op>)
    requires 0 < EntityCount(ops) < TWO_64
    ensures Run(s, ops).entityOrdinal != s.entityOrdinal
  {
    hide Value, Run, EntityCount;
    OrdinalAfter(s, ops);
    var v, n := Value(s.entityOrdinal), EntityCount(ops);
    if v + n >= TWO_64 {
      assert (v + n) % TWO_64 == v + n - TWO_64;
    }
  }

  lemma {:induction false} CountConcat(a: seq<Op>, b: seq<Op>)
    ensures EntityCount(a + b) == EntityCount(a) + EntityCount(b)
  {
    if a == [] {
      assert a + b == b;
    } else {
      assert (a + b)[1..] == a[1..] + b;
      CountConcat(a[1..], b);
    }
  }

  lemma CountWindow(ops: seq<Op>, i: nat, j: nat)
    requires i < j < |ops| && ops[i].EntitySeed? && ops[j].EntitySeed?
    ensures 0 < EntityCount(ops[i..j]) < EntityCount(ops)
  {
    assert ops == ops[..i] + ops[i..j] + ops[j..];
    CountConcat(ops[..i] + ops[i..j], ops[j..]);
    CountConcat(ops[..i], ops[i..j]);
    assert ops[i..j][0] == ops[i] && ops[j..][0] == ops[j];
  }

  // ----- reseeding ------------------------------------------------------------

  /** Two servers that hand out the same shared seeds from here on. */
  predicate SameStream(a: State, b: State) {
    && a.words == b.words && a.issued == b.issued
    && a.currentMaster == b.currentMaster && a.worldSeed == b.worldSeed
  }

  lemma SameStreamStep(a: State, b: State, op: Op)
    requires SameStream(a, b)
    ensures SameStream(After(a, op), After(b, op))
    ensures !op.EntitySeed? ==> Result(a, op) == Result(b, op)
    ensures a.entityOrdinal == b.entityOrdinal ==>
      Result(a, op) == Result(b, op) && After(a, op).entityOrdinal == After(b, op).entityOrdinal
  {
    hide Keyed, Expand, Advance, Increment, Xor, SeedMath.Output, Derive;
  }

  lemma {:induction false} SameStreamSameSeeds(a: State, b: State, ops: seq<Op>)
    requires SameStream(a, b)
    ensures SameStream(Run(a, ops), Run(b, ops))
    ensures forall k :: 0 <= k < |ops| && !ops[k].EntitySeed? ==> Results(a, ops)[k] == Results(b, ops)[k]
    ensures a.entityOrdinal == b.entityOrdinal ==> Results(a, ops) == Results(b, ops)
    decreases |ops|
  {
    hide After, Result, SameStream;
    if ops != [] {
      SameStreamStep(a, b, ops[0]);
      SameStreamSameSeeds(After(a, ops[0]), After(b, ops[0]), ops[1..]);
    }
  }

  /** A reseed to `n` puts the shared stream where a server launched with
      property seed `n` on the same world starts, and from there on the two hand
      out the same shared seeds and the same derived seed for equal ordinals. */
  lemma ReseedEqualsLaunch(s: State, n: Long, preBind: seq<Op>, ops: seq<Op>, domain: Long, ordinal: Long)
    requires s.worldSeedBound
    ensures
      var reseeded := After(s, Reseed(n));
      var launched := Boot(n, preBind, s.worldSeed, None);
      && SameStream(reseeded, launched)
      && (forall k :: 0 <= k < |ops| && !ops[k].EntitySeed? ==> Results(reseeded, ops)[k] == Results(launched, ops)[k])
      && Derive(reseeded.currentMaster, domain, ordinal) == Derive(launched.currentMaster, domain, ordinal)
      && reseeded.entityOrdinal == s.entityOrdinal
  {
    hide Keyed, Expand, Xor, Derive;
    RunKeepsServer(Init(n), preBind);
    SameStreamSameSeeds(After(s, Reseed(n)), Boot(n, preBind, s.worldSeed, None), ops);
  }

  // ----- what the seeds are -----------------------------------------------------

  function Draws(ops: seq<Op>): nat {
    if ops == [] then 0 else (if ops[0].NextSeed? then 1 else 0) + Draws(ops[1..])
  }

  predicate NoReseed(ops: seq<Op>) {
    forall k :: 0 <= k < |ops| ==> !ops[k].Reseed?
  }

  /** The words `n` steps back. */
  function BackBy(w: Words, n: nat): Words {
    if n == 0 then w else Retreat(BackBy(w, n - 1))
  }

  /** Every draw moves the stream by one step, and nothing else moves it. */
  lemma {:induction false} DrawsAreSteps(s: State, ops: seq<Op>)
    requires NoReseed(ops)
    ensures BackBy(Run(s, ops).words, Draws(ops)) == s.words
    ensures Value(Run(s, ops).issued) == (Value(s.issued) + Draws(ops)) % TWO_64
    ensures Run(s, ops).currentMaster == s.currentMaster
    decreases |ops|
  {
    hide Value, Low64, Advance, Retreat;
    if ops != [] {
      var t := After(s, ops[0]);
      DrawsAreSteps(t, ops[1..]);
      AdvanceIsBijective(s.words);
      Low64Value(Value(s.issued) + 1);
      CountModulo(Value(s.issued), Draws(ops[1..]));
    } else {
      SmallModulo(Value(s.issued));
    }
  }

  lemma SmallModulo(v: int)
    requires 0 <= v < TWO_64
    ensures v % TWO_64 == v
  {
  }

  /** A draw from a live stream leaves other words than it found. */
  lemma DrawMoves(s: State)
    requires s.words != Words(ZERO, ZERO)
    ensures After(s, NextSeed).words != s.words
  {
    hide Advance;
    StepMoves(s.words);
  }

  /** The number that words give out. */
  function OutputOf(w: Words): int {
    (RotatedLeft((Value(w.lo) + Value(w.hi)) % TWO_64, 17) + Value(w.lo)) % TWO_64
  }

  lemma ResultAt(s: State, ops: seq<Op>, k: nat)
    requires k < |ops|
    ensures Results(s, ops)[k] == Result(Run(s, ops[..k]), ops[k]) && Run(Run(s, ops[..k]), ops[k..]) == Run(s, ops)
  {
    hide Run, After, Result;
    var a := Run(s, ops[..k]);
    assert ops == ops[..k] + ops[k..];
    RunConcat(s, ops[..k], ops[k..]);
    assert Results(a, ops[k..])[0] == Result(a, ops[k]);
  }

  /** Each draw of a run is given out by the words that many steps before its end. */
  lemma DrawIs(s: State, ops: seq<Op>, k: nat)
    requires NoReseed(ops) && k < |ops| && ops[k].NextSeed?
    ensures Value(Results(s, ops)[k]) == OutputOf(BackBy(Run(s, ops).words, Draws(ops[k..])))
  {
    hide Value, Run, After, SeedMath.Output, RotatedLeft, Draws, Results;
    var a := Run(s, ops[..k]);
    ResultAt(s, ops, k);
    DrawsAreSteps(a, ops[k..]);
    OutputValue(a.words);
  }

  /** The entity seed of a number under a master, in integers. */
  function EntitySeedOf(master: nat, ordinal: nat): nat {
    Finalised(Finalised((Differing(master, 0x656E_7469_7479) + ordinal * 0x9E37_79B9_7F4A_7C15) % TWO_64))
  }

  /** Each entity seed of a run is that of its number under the master of the moment. */
  lemma EntitySeedIs(s: State, ops: seq<Op>, k: nat)
    requires k < |ops| && ops[k].EntitySeed?
    ensures Value(Results(s, ops)[k]) ==
      EntitySeedOf(Value(Run(s, ops[..k]).currentMaster), (Value(s.entityOrdinal) + EntityCount(ops[..k])) % TWO_64)
  {
    hide Value, Run, After, Derive, Finalised, Differing, EntityCount, Results;
    var a := Run(s, ops[..k]);
    ResultAt(s, ops, k);
    OrdinalAfter(s, ops[..k]);
    DeriveValue(a.currentMaster, DOMAIN_ENTITY, a.entityOrdinal);
    EntityDomain();
  }

  lemma EntityDomain()
    ensures Value(DOMAIN_ENTITY) == 0x656E_7469_7479
  {
    hide Value;
    HexDigit(Long(0x656E_7469_7479)); HexDigit(Long(0x656E_7469_747)); HexDigit(Long(0x656E_7469_74));
    HexDigit(Long(0x656E_7469_7)); HexDigit(Long(0x656E_7469)); HexDigit(Long(0x656E_746)); HexDigit(Long(0x656E_74));
    HexDigit(Long(0x656E_7)); HexDigit(Long(0x656E)); HexDigit(Long(0x656)); HexDigit(Long(0x65)); HexDigit(Long(0x6));
    ValueOfZero();
  }

  /** The words, in integers, of a stream keyed by a master. */
  predicate KeyedBy(w: Words, master: nat) {
    && Value(w.lo) == Finalised((master + 0x9E37_79B9_7F4A_7C15) % TWO_64)
    && Value(w.hi) == Finalised((master + 2 * 0x9E37_79B9_7F4A_7C15) % TWO_64)
  }

  lemma IsKeyedBy(seed: Long)
    ensures KeyedBy(Keyed(seed), Value(seed))
  {
    hide Value, Keyed, Finalised;
    KeyedValue(seed);
  }

  /** From a reseed to the next one the master is the argument XOR the world seed,
      the stream is the one that master keys, the draws are counted from nothing,
      and the entities are counted on. */
  lemma ReseedIs(s: State, n: Long, ops: seq<Op>)
    requires NoReseed(ops)
    ensures
      var r := Run(After(s, Reseed(n)), ops);
      && Value(r.currentMaster) == Differing(Value(n), Value(s.worldSeed))
      && KeyedBy(BackBy(r.words, Draws(ops)), Differing(Value(n), Value(s.worldSeed)))
      && Value(r.issued) == Draws(ops) % TWO_64
      && Value(r.entityOrdinal) == (Value(s.entityOrdinal) + EntityCount(ops)) % TWO_64
  {
    hide Value, Keyed, Finalised, Differing, Run, Xor, Draws, EntityCount, KeyedBy;
    var t := After(s, Reseed(n));
    DrawsAreSteps(t, ops);
    OrdinalAfter(t, ops);
    IsKeyedBy(Xor(n, s.worldSeed));
    ValueXor(n, s.worldSeed);
    ValueOfZero();
  }

  /** Until the world seed is known the stream is the property seed's; a server that
      finds no sidecar then starts with the property seed XOR the world seed, whatever
      was drawn before. */
  lemma LaunchIs(propSeed: Long, preBind: seq<Op>, worldSeed: Long)
    ensures Init(propSeed).currentMaster == propSeed && KeyedBy(Init(propSeed).words, Value(propSeed))
    ensures
      var s := Boot(propSeed, preBind, worldSeed, None);
      && Value(s.currentMaster) == Differing(Value(propSeed), Value(worldSeed)) && KeyedBy(s.words, Value(s.currentMaster))
      && s.issued == ZERO && Value(s.entityOrdinal) == EntityCount(preBind) % TWO_64
  {
    hide Value, Keyed, Finalised, Differing, Run, Xor, EntityCount, KeyedBy;
    RunKeepsServer(Init(propSeed), preBind);
    OrdinalAfter(Init(propSeed), preBind);
    IsKeyedBy(propSeed);
    IsKeyedBy(Xor(propSeed, worldSeed));
    ValueXor(propSeed, worldSeed);
    ValueOfZero();
  }

  /** A sidecar written under another property seed or for another world is as good
      as none. */
  lemma OtherServersIgnored(t: State, propSeed: Long, preBind: seq<Op>, worldSeed: Long)
    requires t.baseMaster != Xor(propSeed, worldSeed)
    ensures Boot(propSeed, preBind, worldSeed, Some(Persisted(t))) == Boot(propSeed, preBind, worldSeed, None)
  {
    hide Keyed, Xor, Parsed, Persisted;
    RunKeepsServer(Init(propSeed), preBind);
    ParsePersisted(t);
  }

  /** A number that must be there is missing or malformed, or one that may be missing
      is malformed. */
  predicate Malformed(props: map<string, string>) {
    || (exists key :: key in ["masterSeed", "stateLo", "stateHi", "issued", "entityOrdinal"] && (key in props ==> Parse(props[key]).None?))
    || (exists key :: key in ["baseMaster", "reseedArg"] && key in props && Parse(props[key]).None?)
  }

  lemma MalformedIgnored(props: map<string, string>, propSeed: Long, preBind: seq<Op>, worldSeed: Long)
    requires Malformed(props)
    ensures Boot(propSeed, preBind, worldSeed, Some(props)) == Boot(propSeed, preBind, worldSeed, None)
  {
    hide Keyed, Xor, Run, Parse, Low64;
    assert Parsed(props).None?;
  }
}
