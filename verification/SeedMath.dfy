// The arithmetic of the seed source (DetRng.java): the splitmix64 finaliser, the
// derived seeds built on it, and the xoroshiro128++ state step.  All three are
// shown to be invertible, which is what the seed source's promises rest on.

module SeedMath {
  import opened Longs

  const GOLDEN_RATIO_64: int := -7046029254386353131
  const SILVER_RATIO_64: int := 7640891576956012809
  const FACTOR_1: int := -4658895280553007687
  const FACTOR_2: int := -7723592293110705685

  const DOMAIN_ENTITY: Long := Long(0x656E_7469_7479)

  // ----- exclusive or ---------------------------------------------------------

  function Xor(a: Long, b: Long): Long { Long(a.bits ^ b.bits) }

  lemma XorCancels(z: Long, a: Long)
    ensures Xor(Xor(z, a), a) == z
    ensures Xor(z, ZERO) == z
  {
  }

  lemma XorLeftCancels(a: Long, b: Long)
    ensures Xor(a, Xor(a, b)) == b
  {
  }

  lemma XorTelescopes(z: Long, a: Long, b: Long)
    ensures Xor(Xor(z, a), Xor(a, b)) == Xor(z, b)
  {
  }

  lemma XorAssociates(z: Long, a: Long, b: Long)
    ensures Xor(Xor(z, a), b) == Xor(z, Xor(a, b))
  {
    hide Xor;
    XorLeftCancels(a, b);
    XorTelescopes(z, a, Xor(a, b));
  }

  // ----- xorshift folds -------------------------------------------------------

  function Shr30(z: Long): Long { Long(z.bits >> 30) }
  function Shr60(z: Long): Long { Long(z.bits >> 60) }
  function Shr27(z: Long): Long { Long(z.bits >> 27) }
  function Shr54(z: Long): Long { Long(z.bits >> 54) }
  function Shr31(z: Long): Long { Long(z.bits >> 31) }
  function Shr62(z: Long): Long { Long(z.bits >> 62) }

  lemma Shift30(a: Long, b: Long)
    ensures Shr30(Xor(a, b)) == Xor(Shr30(a), Shr30(b))
  {
  }

  lemma Shift30Twice(a: Long)
    ensures Shr30(Shr30(a)) == Shr60(a) && Shr30(Shr60(a)) == ZERO
    ensures Shr60(Xor(a, Shr30(a))) == Shr60(a)
  {
  }

  lemma Shift27(a: Long, b: Long)
    ensures Shr27(Xor(a, b)) == Xor(Shr27(a), Shr27(b))
  {
  }

  lemma Shift27Twice(a: Long)
    ensures Shr27(Shr27(a)) == Shr54(a) && Shr27(Shr54(a)) == ZERO
    ensures Shr54(Xor(a, Shr27(a))) == Shr54(a)
  {
  }

  lemma Shift31(a: Long, b: Long)
    ensures Shr31(Xor(a, b)) == Xor(Shr31(a), Shr31(b))
  {
  }

  lemma Shift31Twice(a: Long)
    ensures Shr31(Shr31(a)) == Shr62(a) && Shr31(Shr62(a)) == ZERO
    ensures Shr62(Xor(a, Shr31(a))) == Shr62(a)
  {
  }

  function Fold30(z: Long): Long { Xor(z, Shr30(z)) }
  function Fold27(z: Long): Long { Xor(z, Shr27(z)) }
  function Fold31(z: Long): Long { Xor(z, Shr31(z)) }

  function Unfold30(y: Long): Long { Xor(Xor(y, Shr30(y)), Shr60(y)) }
  function Unfold27(y: Long): Long { Xor(Xor(y, Shr27(y)), Shr54(y)) }
  function Unfold31(y: Long): Long { Xor(Xor(y, Shr31(y)), Shr62(y)) }

  /** The common shape of the three folds: `a` is `z` shifted once, `b` twice. */
  lemma FoldAlgebra(z: Long, a: Long, b: Long)
    ensures Xor(Xor(Xor(z, a), Xor(a, b)), b) == z
    ensures Xor(Xor(Xor(z, a), b), Xor(Xor(a, b), ZERO)) == z
  {
    XorTelescopes(z, a, b);
    XorCancels(z, b);
    XorAssociates(z, a, b);
    XorCancels(z, Xor(a, b));
    XorCancels(Xor(a, b), ZERO);
    hide Xor;
  }

  lemma Fold30Inverse(z: Long)
    ensures Unfold30(Fold30(z)) == z && Fold30(Unfold30(z)) == z
  {
    hide Xor, Shr30, Shr60;
    var a, b := Shr30(z), Shr60(z);
    Shift30(z, a);
    Shift30Twice(z);
    Shift30(Xor(z, a), b);
    FoldAlgebra(z, a, b);
  }

  lemma Fold27Inverse(z: Long)
    ensures Unfold27(Fold27(z)) == z && Fold27(Unfold27(z)) == z
  {
    hide Xor, Shr27, Shr54;
    var a, b := Shr27(z), Shr54(z);
    Shift27(z, a);
    Shift27Twice(z);
    Shift27(Xor(z, a), b);
    FoldAlgebra(z, a, b);
  }

  lemma Fold31Inverse(z: Long)
    ensures Unfold31(Fold31(z)) == z && Fold31(Unfold31(z)) == z
  {
    hide Xor, Shr31, Shr62;
    var a, b := Shr31(z), Shr62(z);
    Shift31(z, a);
    Shift31Twice(z);
    Shift31(Xor(z, a), b);
    FoldAlgebra(z, a, b);
  }

  // ----- odd multipliers ------------------------------------------------------

  // Inverses modulo 2^64 of the three odd constants.
  const INVERSE_1: int := 0x96DE_1B17_3F11_9089
  const INVERSE_2: int := 0x3196_42B2_D24D_8EC3
  const INVERSE_GOLDEN: int := 0xF1DE_83E1_9937_733D

  predicate Inverses(c: int, d: int) {
    c * d % TWO_64 == 1
  }

  lemma ProductModulo(v: int, c: int, d: int)
    requires 0 <= v < TWO_64 && Inverses(c, d)
    ensures (v * c % TWO_64) * d % TWO_64 == v
  {
    var q := v * c / TWO_64;
    var k := c * d / TWO_64;
    calc {
      (v * c % TWO_64) * d;
      (v * c - q * TWO_64) * d;
      v * (c * d) - q * d * TWO_64;
      v * (1 + k * TWO_64) - q * d * TWO_64;
      v + (v * k - q * d) * TWO_64;
    }
    MultipleVanishes(v, v * k - q * d);
  }

  lemma MultipleVanishes(v: int, n: int)
    requires 0 <= v < TWO_64
    ensures (v + n * TWO_64) % TWO_64 == v
  {
  }

  /** Multiplying by an odd constant loses nothing. */
  lemma ScaleInverse(z: Long, c: int, d: int)
    requires Inverses(c, d) && Inverses(d, c)
    ensures Scale(Scale(z, c), d) == z && Scale(Scale(z, d), c) == z
  {
    hide Low64, Value;
    ProductModulo(Value(z), c, d);
    ProductModulo(Value(z), d, c);
    Low64Value(Value(z) * c);
    Low64Value(Value(z) * d);
    Low64Value(Value(Scale(z, c)) * d);
    Low64Value(Value(Scale(z, d)) * c);
    SameValue(Scale(Scale(z, c), d), z);
    SameValue(Scale(Scale(z, d), c), z);
  }

  // ----- the finaliser --------------------------------------------------------

  function MixStafford13(z: Long): Long {
    Fold31(Scale(Fold27(Scale(Fold30(z), FACTOR_1)), FACTOR_2))
  }

  function Unmix(y: Long): Long {
    Unfold30(Scale(Unfold27(Scale(Unfold31(y), INVERSE_2)), INVERSE_1))
  }

  /** The finaliser is a bijection on the 2^64 words. */
  lemma MixIsBijective(z: Long)
    ensures Unmix(MixStafford13(z)) == z
    ensures MixStafford13(Unmix(z)) == z
  {
    hide Fold30, Fold27, Fold31, Unfold30, Unfold27, Unfold31, Scale;
    assert Inverses(FACTOR_1, INVERSE_1) && Inverses(INVERSE_1, FACTOR_1);
    assert Inverses(FACTOR_2, INVERSE_2) && Inverses(INVERSE_2, FACTOR_2);
    var a := Scale(Fold30(z), FACTOR_1);
    var b := Scale(Fold27(a), FACTOR_2);
    Fold30Inverse(z);
    ScaleInverse(Fold30(z), FACTOR_1, INVERSE_1);
    Fold27Inverse(a);
    ScaleInverse(Fold27(a), FACTOR_2, INVERSE_2);
    Fold31Inverse(b);
    var u := Scale(Unfold31(z), INVERSE_2);
    var v := Scale(Unfold27(u), INVERSE_1);
    Fold31Inverse(z);
    ScaleInverse(Unfold31(z), FACTOR_2, INVERSE_2);
    Fold27Inverse(u);
    ScaleInverse(Unfold27(u), FACTOR_1, INVERSE_1);
    Fold30Inverse(v);
  }

  // ----- derived seeds --------------------------------------------------------

  function DeriveKey(master: Long, domain: Long, ordinal: Long): Long {
    Plus(Xor(master, domain), Scale(ordinal, GOLDEN_RATIO_64))
  }

  function Derive(master: Long, domain: Long, ordinal: Long): Long {
    MixStafford13(MixStafford13(DeriveKey(master, domain, ordinal)))
  }

  function Minus(a: Long, b: Long): Long {
    Low64(Value(a) - Value(b))
  }

  lemma DifferenceModulo(v: int, w: int)
    requires 0 <= v < TWO_64 && 0 <= w < TWO_64
    ensures ((v + w) % TWO_64 - v) % TWO_64 == w
    ensures (v + (w - v) % TWO_64) % TWO_64 == w
  {
    assert (v + w) % TWO_64 == if v + w < TWO_64 then v + w else v + w - TWO_64;
    assert (w - v) % TWO_64 == if w < v then w - v + TWO_64 else w - v;
  }

  lemma MinusUndoesPlus(a: Long, x: Long)
    ensures Minus(Plus(a, x), a) == x
  {
    hide Low64, Value;
    Low64Value(Value(a) + Value(x));
    Low64Value(Value(Plus(a, x)) - Value(a));
    DifferenceModulo(Value(a), Value(x));
    SameValue(Minus(Plus(a, x), a), x);
  }

  lemma PlusUndoesMinus(a: Long, x: Long)
    ensures Plus(a, Minus(x, a)) == x
  {
    hide Low64, Value;
    Low64Value(Value(x) - Value(a));
    Low64Value(Value(a) + Value(Minus(x, a)));
    DifferenceModulo(Value(a), Value(x));
    SameValue(Plus(a, Minus(x, a)), x);
  }

  /** Two derived seeds are the same exactly when the keys they are mixed from are. */
  lemma SameSeedSameKey(j: Long, k: Long)
    ensures MixStafford13(MixStafford13(j)) == MixStafford13(MixStafford13(k)) ==> j == k
  {
    hide MixStafford13, Unmix;
    MixIsBijective(j);
    MixIsBijective(k);
    MixIsBijective(MixStafford13(j));
    MixIsBijective(MixStafford13(k));
  }

  /** A derived seed determines its ordinal: for one master and one domain no
      two of the 2^64 ordinals share a seed. */
  lemma DerivedSeedsDistinct(master: Long, domain: Long, a: Long, b: Long)
    requires a != b
    ensures Derive(master, domain, a) != Derive(master, domain, b)
  {
    hide MixStafford13, Unmix, Scale, Plus, Minus, Xor;
    var ka, kb := DeriveKey(master, domain, a), DeriveKey(master, domain, b);
    SameSeedSameKey(ka, kb);
    assert Inverses(GOLDEN_RATIO_64, INVERSE_GOLDEN) && Inverses(INVERSE_GOLDEN, GOLDEN_RATIO_64);
    ScaleInverse(a, GOLDEN_RATIO_64, INVERSE_GOLDEN);
    ScaleInverse(b, GOLDEN_RATIO_64, INVERSE_GOLDEN);
    MinusUndoesPlus(Xor(master, domain), Scale(a, GOLDEN_RATIO_64));
    MinusUndoesPlus(Xor(master, domain), Scale(b, GOLDEN_RATIO_64));
  }

  /** Domains do not keep seeds apart: under one master every ordinal of a domain
      shares its seed with exactly one ordinal of any other. */
  lemma DomainsShareSeeds(master: Long, d: Long, e: Long, a: Long) returns (b: Long)
    ensures Derive(master, e, b) == Derive(master, d, a)
    ensures forall c :: Derive(master, e, c) == Derive(master, d, a) ==> c == b
  {
    var k := DeriveKey(master, d, a);
    b := Scale(Minus(k, Xor(master, e)), INVERSE_GOLDEN);
    hide MixStafford13, Unmix, Scale, Plus, Minus, Xor;
    assert Inverses(GOLDEN_RATIO_64, INVERSE_GOLDEN) && Inverses(INVERSE_GOLDEN, GOLDEN_RATIO_64);
    ScaleInverse(Minus(k, Xor(master, e)), GOLDEN_RATIO_64, INVERSE_GOLDEN);
    PlusUndoesMinus(Xor(master, e), k);
    forall c | Derive(master, e, c) == Derive(master, d, a) ensures c == b {
      if c != b {
        DerivedSeedsDistinct(master, e, c, b);
      }
    }
  }

  // ----- the stream state -----------------------------------------------------

  /** The two xoroshiro words. */
  datatype Words = Words(lo: Long, hi: Long)

  function Golden(z: Long): Long {
    Low64(Value(z) + GOLDEN_RATIO_64)
  }

  /** splitmix64 expansion of a seed, before the all-zero test. */
  function Expand(seed: Long): Words {
    Words(MixStafford13(Golden(seed)), MixStafford13(Golden(Golden(seed))))
  }

  predicate AllZero(lo: Long, hi: Long) { lo == ZERO && hi == ZERO }

  /** The words `rekey` stores. */
  function Keyed(seed: Long): Words {
    var w := Expand(seed);
    if AllZero(w.lo, w.hi) then Words(Low64(SILVER_RATIO_64), Low64(GOLDEN_RATIO_64)) else w
  }

  lemma ZeroIsFixed()
    ensures Xor(ZERO, ZERO) == ZERO && Shr30(ZERO) == ZERO && Shr27(ZERO) == ZERO && Shr31(ZERO) == ZERO
  {
  }

  lemma ScaleZero(c: int)
    ensures Scale(ZERO, c) == ZERO
  {
    hide Value, Low64;
    ValueOfZero();
    Low64Value(0);
    SameValue(Scale(ZERO, c), ZERO);
  }

  lemma MixOfZero()
    ensures MixStafford13(ZERO) == ZERO
  {
    hide Xor, Shr30, Shr27, Shr31, Scale;
    ZeroIsFixed();
    ScaleZero(FACTOR_1);
    ScaleZero(FACTOR_2);
  }

  lemma GoldenValue(z: Long)
    ensures Value(Golden(z)) == (Value(z) + GOLDEN_RATIO_64) % TWO_64
  {
    hide Value, Low64;
    Low64Value(Value(z) + GOLDEN_RATIO_64);
  }

  lemma GoldenStepsApart(z: Long)
    ensures !(Golden(z) == ZERO && Golden(Golden(z)) == ZERO)
  {
    hide Golden, Value;
    GoldenValue(z);
    GoldenValue(Golden(z));
    ValueOfZero();
  }

  /** The all-zero fallback of `rekey` is never taken. */
  lemma FallbackUnreachable(seed: Long)
    ensures Expand(seed) != Words(ZERO, ZERO)
    ensures Keyed(seed) == Expand(seed)
  {
    hide MixStafford13, Unmix, Golden;
    MixOfZero();
    MixIsBijective(ZERO);
    GoldenStepsApart(seed);
    MixIsBijective(Golden(seed));
    MixIsBijective(Golden(Golden(seed)));
  }

  function RotL17(z: Long): Long { Long(z.bits.RotateLeft(17)) }
  function RotL49(z: Long): Long { Long(z.bits.RotateLeft(49)) }
  function RotR49(z: Long): Long { Long(z.bits.RotateRight(49)) }
  function RotL28(z: Long): Long { Long(z.bits.RotateLeft(28)) }
  function RotR28(z: Long): Long { Long(z.bits.RotateRight(28)) }
  function Shl21(z: Long): Long { Long(z.bits << 21) }

  function Output(w: Words): Long {
    Plus(RotL17(Plus(w.lo, w.hi)), w.lo)
  }

  function Advance(w: Words): Words {
    var h := Xor(w.hi, w.lo);
    Words(Xor(Xor(RotL49(w.lo), h), Shl21(h)), RotL28(h))
  }

  function Retreat(w: Words): Words {
    var h := RotR28(w.hi);
    var lo := RotR49(Xor(Xor(w.lo, h), Shl21(h)));
    Words(lo, Xor(h, lo))
  }

  lemma Rotations28(z: Long)
    ensures RotR28(RotL28(z)) == z == RotL28(RotR28(z))
  {
  }

  lemma Rotations49(z: Long)
    ensures RotR49(RotL49(z)) == z == RotL49(RotR49(z))
  {
  }

  /** The stream step is a bijection, so no run of it ever loses state. */
  lemma AdvanceIsBijective(w: Words)
    ensures Retreat(Advance(w)) == w
    ensures Advance(Retreat(w)) == w
  {
    hide Xor, RotL49, RotR49, RotL28, RotR28, Shl21;
    var h := Xor(w.hi, w.lo);
    Rotations28(h);
    MaskTwice(RotL49(w.lo), h, Shl21(h));
    Rotations49(w.lo);
    XorCancels(w.hi, w.lo);
    var k := RotR28(w.hi);
    var lo := RotR49(Xor(Xor(w.lo, k), Shl21(k)));
    Rotations28(w.hi);
    Rotations49(Xor(Xor(w.lo, k), Shl21(k)));
    MaskTwice(w.lo, k, Shl21(k));
    XorCancels(k, lo);
  }

  lemma MaskTwice(z: Long, a: Long, b: Long)
    ensures Xor(Xor(Xor(Xor(z, a), b), a), b) == z
  {
    hide Xor;
    var m := Xor(a, b);
    XorAssociates(z, a, b);
    XorAssociates(Xor(z, m), a, b);
    XorCancels(z, m);
  }

  lemma ZeroStays()
    ensures Advance(Words(ZERO, ZERO)) == Words(ZERO, ZERO) == Retreat(Words(ZERO, ZERO))
  {
  }

  lemma AdvanceKeepsNonZero(w: Words)
    requires w != Words(ZERO, ZERO)
    ensures Advance(w) != Words(ZERO, ZERO)
  {
    hide Advance, Retreat;
    AdvanceIsBijective(w);
    ZeroStays();
  }
}
