// The server-wide seed source (DetRng.java): a keyed stream, an entity ordinal,
// a reseed command, and a sidecar file that carries the stream across restarts.

module SeedSource {
  import opened Options
  import opened Longs
  import opened SeedMath

  /** The static fields of the seed source. */
  datatype State = State(
    propSeed: Long,
    worldSeed: Long,
    worldSeedBound: bool,
    issued: Long,
    words: Words,
    currentMaster: Long,
    baseMaster: Long,
    reseedArg: Long,
    reseeded: bool,
    entityOrdinal: Long
  )

  /** The sidecar's key and value texts; None when there is no file. */
  type Sidecar = Option<map<string, string>>

  function Increment(x: Long): Long {
    Low64(Value(x) + 1)
  }

  // ----- operations -----------------------------------------------------------

  function Rekeyed(s: State, seed: Long): State {
    s.(currentMaster := seed, words := Keyed(seed), issued := ZERO)
  }

  /** The static initialiser. */
  function Init(propSeed: Long): State {
    Rekeyed(State(propSeed, ZERO, false, ZERO, Words(ZERO, ZERO), ZERO, ZERO, ZERO, false, ZERO), propSeed).(baseMaster := propSeed)
  }

  function Bound(s: State, seed: Long): State {
    if s.worldSeedBound then s else
      var base := Xor(s.propSeed, seed);
      Rekeyed(s.(worldSeed := seed, worldSeedBound := true, baseMaster := base), base)
  }

  datatype Op = NextSeed | EntitySeed | Reseed(newSeed: Long)

  function After(s: State, op: Op): State {
    match op
    case NextSeed => s.(words := Advance(s.words), issued := Increment(s.issued))
    case EntitySeed => s.(entityOrdinal := Increment(s.entityOrdinal))
    case Reseed(n) => Rekeyed(s, Xor(n, s.worldSeed)).(reseedArg := n, reseeded := true)
  }

  /** The value the operation returns to its caller. */
  function Result(s: State, op: Op): Long {
    match op
    case NextSeed => SeedMath.Output(s.words)
    case EntitySeed => Derive(s.currentMaster, DOMAIN_ENTITY, s.entityOrdinal)
    case Reseed(n) => Xor(n, s.worldSeed)
  }

  function Run(s: State, ops: seq<Op>): State
    decreases |ops|
  {
    if ops == [] then s else Run(After(s, ops[0]), ops[1..])
  }

  function Results(s: State, ops: seq<Op>): (rs: seq<Long>)
    ensures |rs| == |ops|
    decreases |ops|
  {
    if ops == [] then [] else [Result(s, ops[0])] + Results(After(s, ops[0]), ops[1..])
  }

  // ----- the sidecar ----------------------------------------------------------

  function PrintLong(x: Long): string { Print(Signed(x)) }
  function PrintBool(b: bool): string { if b then "true" else "false" }

  function LowerCase(c: char): char {
    if 'A' <= c <= 'Z' then (c as int + 32) as char else c
  }

  /** `Boolean.parseBoolean`: case is ignored and anything else is false. */
  predicate ParseBool(s: string) {
    |s| == 4 && LowerCase(s[0]) == 't' && LowerCase(s[1]) == 'r' && LowerCase(s[2]) == 'u' && LowerCase(s[3]) == 'e'
  }

  function Persisted(s: State): map<string, string> {
    map[
      "masterSeed" := PrintLong(s.currentMaster),
      "baseMaster" := PrintLong(s.baseMaster),
      "reseeded" := PrintBool(s.reseeded),
      "reseedArg" := PrintLong(s.reseedArg),
      "stateLo" := PrintLong(s.words.lo),
      "stateHi" := PrintLong(s.words.hi),
      "issued" := PrintLong(s.issued),
      "entityOrdinal" := PrintLong(s.entityOrdinal)
    ]
  }

  /** `Long.parseLong(props.getProperty(key))`, None for either exception. */
  function ParseLong(props: map<string, string>, key: string): Option<Long> {
    if key !in props then None
    else match Parse(props[key])
      case None => None
      case Some(v) => Some(Low64(v))
  }

  function ParseLongOr(props: map<string, string>, key: string, default: Long): Option<Long> {
    if key in props then ParseLong(props, key) else Some(default)
  }

  /** What the sidecar says, or None when some number in it is malformed. */
  datatype Saved = Saved(master: Long, base: Long, reseeded: bool, reseedArg: Long, words: Words, issued: Long, ordinal: Long)

  function Parsed(props: map<string, string>): Option<Saved> {
    var master := ParseLong(props, "masterSeed");
    if master.None? then None else
    var base := ParseLongOr(props, "baseMaster", master.value);
    var reseeded := "reseeded" in props && ParseBool(props["reseeded"]);
    var reseedArg := ParseLongOr(props, "reseedArg", ZERO);
    var lo := ParseLong(props, "stateLo");
    var hi := ParseLong(props, "stateHi");
    var issued := ParseLong(props, "issued");
    var ordinal := ParseLong(props, "entityOrdinal");
    if base.None? || reseedArg.None? || lo.None? || hi.None? || issued.None? || ordinal.None? then None
    else Some(Saved(master.value, base.value, reseeded, reseedArg.value, Words(lo.value, hi.value), issued.value, ordinal.value))
  }

  function Restored(s: State, file: Sidecar): State {
    if file.None? then s
    else match Parsed(file.value)
      case None => s
      case Some(f) =>
        if f.base != Xor(s.propSeed, s.worldSeed) || AllZero(f.words.lo, f.words.hi) then s
        else s.(currentMaster := f.master, reseeded := f.reseeded, reseedArg := f.reseedArg,
                words := f.words, issued := f.issued, entityOrdinal := f.ordinal)
  }

  /** A server start: static initialiser, draws made before the world seed is
      known, the binding of the world seed, and the restore. */
  function Boot(propSeed: Long, preBind: seq<Op>, worldSeed: Long, file: Sidecar): State {
    Restored(Bound(Run(Init(propSeed), preBind), worldSeed), file)
  }

  // ----- the class ------------------------------------------------------------

  class DetRng {
    const propSeed: Long
    const persist: bool
    var worldSeed: Long
    var worldSeedBound: bool
    var issued: Long
    var stateLo: Long
    var stateHi: Long
    var currentMaster: Long
    var baseMaster: Long
    var reseedArg: Long
    var reseeded: bool
    var entityOrdinal: Long

    function View(): State
      reads this
    {
      State(propSeed, worldSeed, worldSeedBound, issued, Words(stateLo, stateHi), currentMaster,
            baseMaster, reseedArg, reseeded, entityOrdinal)
    }

    constructor (seed: Long, persistRng: bool)
      ensures propSeed == seed && persist == persistRng
      ensures View() == Init(seed)
    {
      hide Keyed;
      propSeed, persist := seed, persistRng;
      worldSeed, worldSeedBound, issued, stateLo, stateHi := ZERO, false, ZERO, ZERO, ZERO;
      currentMaster, baseMaster, reseedArg, reseeded, entityOrdinal := ZERO, ZERO, ZERO, false, ZERO;
      new;
      Rekey(seed);
      baseMaster := seed;
    }

    method Rekey(seed: Long)
      modifies this
      ensures View() == Rekeyed(old(View()), seed)
    {
      hide MixStafford13, Golden, Low64, AllZero;
      currentMaster := seed;
      var z := Golden(seed);
      stateLo := MixStafford13(z);
      stateHi := MixStafford13(Golden(z));
      if AllZero(stateLo, stateHi) {
        stateLo := Low64(SILVER_RATIO_64);
        stateHi := Low64(GOLDEN_RATIO_64);
      }
      issued := ZERO;
    }

    method BindWorldSeed(seed: Long)
      modifies this
      ensures View() == Bound(old(View()), seed)
    {
      hide Keyed, Xor;
      if worldSeedBound {
        return;
      }
      worldSeed := seed;
      worldSeedBound := true;
      baseMaster := Xor(propSeed, seed);
      Rekey(baseMaster);
    }

    method NextSeed() returns (result: Long)
      modifies this
      ensures View() == After(old(View()), Op.NextSeed)
      ensures result == Result(old(View()), Op.NextSeed)
    {
      hide Plus, Xor, RotL17, RotL49, RotL28, Shl21, Increment;
      var lo, hi := stateLo, stateHi;
      result := Plus(RotL17(Plus(lo, hi)), lo);
      hi := Xor(hi, lo);
      stateLo := Xor(Xor(RotL49(lo), hi), Shl21(hi));
      stateHi := RotL28(hi);
      issued := Increment(issued);
    }

    method EntitySeed() returns (result: Long)
      modifies this
      ensures View() == After(old(View()), Op.EntitySeed)
      ensures result == Result(old(View()), Op.EntitySeed)
    {
      hide Derive, Increment;
      result := Derive(currentMaster, DOMAIN_ENTITY, entityOrdinal);
      entityOrdinal := Increment(entityOrdinal);
    }

    method DerivedSeed(domain: Long, ordinal: Long) returns (result: Long)
      ensures result == Derive(currentMaster, domain, ordinal)
    {
      result := Derive(currentMaster, domain, ordinal);
    }

    method Reseed(newSeed: Long) returns (result: Long)
      modifies this
      ensures View() == After(old(View()), Op.Reseed(newSeed))
      ensures result == Result(old(View()), Op.Reseed(newSeed)) == currentMaster
    {
      hide Keyed, Xor;
      Rekey(Xor(newSeed, worldSeed));
      reseedArg := newSeed;
      reseeded := true;
      result := currentMaster;
    }

    method PersistState() returns (file: Sidecar)
      ensures file == if persist then Some(Persisted(View())) else None
    {
      if !persist {
        return None;
      }
      file := Some(Persisted(View()));
    }

    method RestoreState(file: Sidecar)
      modifies this
      ensures View() == if persist then Restored(old(View()), file) else old(View())
    {
      hide Parsed, Xor, AllZero;
      if !persist || file.None? {
        return;
      }
      match Parsed(file.value)
      case None =>
      case Some(f) =>
        var expected := Xor(propSeed, worldSeed);
        if f.base != expected {
          return;
        }
        if AllZero(f.words.lo, f.words.hi) {
          return;
        }
        currentMaster := f.master;
        reseeded := f.reseeded;
        reseedArg := f.reseedArg;
        stateLo, stateHi := f.words.lo, f.words.hi;
        issued := f.issued;
        entityOrdinal := f.ordinal;
    }
  }
}
