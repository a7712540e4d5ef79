// The seed source's arithmetic (DetRng.java) on integers: what its exclusive ors,
// shifts, rotations, sums and products are on unsigned values, and with that what
// the finaliser, the derived seeds, the stream step and its output are.

module SeedValues {
  import opened Longs
  import opened SeedMath
  import opened Division

  // ----- halves and doubles -----------------------------------------------------

  lemma ValueHalf(x: Long)
    ensures Value(Half(x)) == Value(x) / 2 && (Odd(x) <==> Value(x) % 2 == 1)
  {
    hide Value, Half, Odd, Twice, TwiceOne, Word;
    var v := Value(x);
    ValueRoundTrip(x, v / 2);
    WordUnfold(v / 2);
    Mask63();
    WordWithin(v / 2, 63);
    HalfOfTwice(Word(v / 2));
    assert v == 2 * (v / 2) || v == 2 * (v / 2) + 1;
  }

  /** A word is sixteen times its half's half's half's half, and its last four bits. */
  lemma HexDigit(x: Long)
    ensures
      var h := Half(x);
      Value(x) == 16 * Value(Half(Half(Half(h)))) + (if Odd(Half(Half(h))) then 8 else 0) + (if Odd(Half(h)) then 4 else 0)
        + (if Odd(h) then 2 else 0) + (if Odd(x) then 1 else 0)
  {
    hide Value, Half, Odd;
    var h := Half(x);
    ValueHalf(x);
    ValueHalf(h);
    ValueHalf(Half(h));
    ValueHalf(Half(Half(h)));
  }

  /** The words have the same bits under the mask. */
  predicate Agree(x: Long, y: Long, mask: Long) { (x.bits ^ y.bits) & mask.bits == 0 }

  lemma HalvesAgree(x: Long, y: Long, m: Long)
    requires Agree(x, y, TwiceOne(m))
    ensures Agree(Half(x), Half(y), m) && (Odd(x) <==> Odd(y))
  {
  }

  lemma {:induction false} AgreeingLowBits(x: Long, y: Long, k: nat)
    requires Agree(x, y, Mask(k))
    ensures LowBits(x, k) == LowBits(y, k)
    decreases k
  {
    hide Agree, Half, Odd, TwiceOne;
    if k > 0 {
      HalvesAgree(x, y, Mask(k - 1));
      AgreeingLowBits(Half(x), Half(y), k - 1);
    }
  }

  /** Fewer bits are a remainder. */
  lemma {:induction false} FewerBits(x: Long, j: nat, k: nat)
    requires k <= j
    ensures LowBits(x, j) % Pow2(k) == LowBits(x, k)
    decreases k
  {
    hide Half, Odd;
    if k > 0 {
      FewerBits(Half(x), j - 1, k - 1);
      TwiceModulo(LowBits(Half(x), j - 1), Pow2(k - 1), if Odd(x) then 1 else 0);
    }
  }

  lemma TwiceModulo(n: int, m: int, b: int)
    requires m > 0 && 0 <= b < 2
    ensures (2 * n + b) % (2 * m) == 2 * (n % m) + b
  {
    var q := n / m;
    assert 2 * n + b == 2 * (q * m + n % m) + b;
    assert 2 * (q * m) == q * (2 * m);
    DivMod(q, 2 * (n % m) + b, 2 * m);
  }

  lemma DoubleLoses(x: Long)
    ensures Agree(Half(Twice(x)), x, Long(0x7fff_ffff_ffff_ffff)) && !Odd(Twice(x))
    ensures Agree(Half(TwiceOne(x)), x, Long(0x7fff_ffff_ffff_ffff)) && Odd(TwiceOne(x))
  {
  }

  lemma ValueIsLow(x: Long)
    ensures Value(x) == LowBits(x, 64)
  {
  }

  lemma ValueTwice(x: Long)
    ensures Value(Twice(x)) == 2 * Value(x) % TWO_64
    ensures Value(TwiceOne(x)) == 2 * Value(x) % TWO_64 + 1
  {
    hide Value, LowBits, Twice, TwiceOne, Half, Odd, Agree;
    ValueIsLow(x);
    ValueIsLow(Twice(x));
    ValueIsLow(TwiceOne(x));
    Mask63();
    DoubleLoses(x);
    AgreeingLowBits(Half(Twice(x)), x, 63);
    AgreeingLowBits(Half(TwiceOne(x)), x, 63);
    LowBitsUnfold(Twice(x), 64);
    LowBitsUnfold(TwiceOne(x), 64);
    FewerBits(x, 64, 63);
    TwiceModulo(Value(x), TWO_63, 0);
  }

  // ----- rotations --------------------------------------------------------------

  predicate Top(x: Long) { x.bits >> 63 == 1 }

  lemma TopIsHigh(x: Long)
    ensures Top(x) <==> Value(x) >= TWO_63
  {
    hide Value, Within, Word, LowBits, Top;
    Mask63();
    ValueRoundTrip(x, 0);
    TopIsOutside(x);
    if Value(x) < TWO_63 {
      WordWithin(Value(x), 63);
    }
    if !Top(x) {
      WordOfLowBits(x, 63);
      ValueRoundTrip(x, LowBits(x, 63));
    }
  }

  lemma TopIsOutside(x: Long)
    ensures !Top(x) <==> Within(x, Long(0x7fff_ffff_ffff_ffff))
  {
  }

  /** Rotated left by one bit. */
  function Turned(x: Long): Long { if Top(x) then TwiceOne(x) else Twice(x) }

  function TurnedBy(x: Long, n: nat): Long {
    if n == 0 then x else Turned(TurnedBy(x, n - 1))
  }

  /** The binary digits of a number below 2^64, turned left `n` times: doubled, with
      the digit that falls off put back at the end. */
  function RotatedLeft(v: nat, n: nat): (r: nat)
    requires v < TWO_64
    ensures r < TWO_64
  {
    if n == 0 then v
    else
      var w := RotatedLeft(v, n - 1);
      if w < TWO_63 then 2 * w else 2 * w - TWO_64 + 1
  }

  lemma {:induction false} ValueTurned(x: Long, n: nat)
    ensures Value(TurnedBy(x, n)) == RotatedLeft(Value(x), n)
  {
    hide Value, Twice, TwiceOne, Top;
    if n > 0 {
      ValueTurned(x, n - 1);
      ValueTwice(TurnedBy(x, n - 1));
      TopIsHigh(TurnedBy(x, n - 1));
    }
  }

  function RotL1(x: Long): Long { Long(x.bits.RotateLeft(1)) }
  function RotL7(x: Long): Long { Long(x.bits.RotateLeft(7)) }

  lemma TurnedIsRotated(x: Long)
    ensures Turned(x) == RotL1(x)
  {
  }

  lemma SevenTurns(x: Long)
    ensures RotL1(RotL1(RotL1(RotL1(RotL1(RotL1(RotL1(x))))))) == RotL7(x)
  {
  }

  lemma Rotation17(x: Long)
    ensures RotL1(RotL1(RotL1(RotL7(RotL7(x))))) == RotL17(x)
  {
  }

  lemma Rotation28(x: Long)
    ensures RotL7(RotL7(RotL7(RotL7(x)))) == RotL28(x)
  {
  }

  lemma Rotation49(x: Long)
    ensures RotL7(RotL7(RotL7(RotL28(x)))) == RotL49(x)
  {
  }

  lemma TurnOn(x: Long, n: nat)
    ensures TurnedBy(x, n + 1) == RotL1(TurnedBy(x, n))
  {
    hide Turned, RotL1;
    TurnedIsRotated(TurnedBy(x, n));
  }

  lemma SevenMore(x: Long, n: nat)
    ensures TurnedBy(x, n + 7) == RotL7(TurnedBy(x, n))
  {
    hide *;
    TurnOn(x, n); TurnOn(x, n + 1); TurnOn(x, n + 2); TurnOn(x, n + 3); TurnOn(x, n + 4); TurnOn(x, n + 5); TurnOn(x, n + 6);
    SevenTurns(TurnedBy(x, n));
  }

  lemma NoTurn(x: Long)
    ensures TurnedBy(x, 0) == x
  {
  }

  lemma ValueRotations(x: Long)
    ensures Value(RotL17(x)) == RotatedLeft(Value(x), 17)
    ensures Value(RotL28(x)) == RotatedLeft(Value(x), 28)
    ensures Value(RotL49(x)) == RotatedLeft(Value(x), 49)
  {
    hide *;
    NoTurn(x);
    SevenMore(x, 0); SevenMore(x, 7);
    TurnOn(x, 14); TurnOn(x, 15); TurnOn(x, 16);
    SevenMore(x, 14); SevenMore(x, 21);
    SevenMore(x, 28); SevenMore(x, 35); SevenMore(x, 42);
    Rotation17(x);
    Rotation28(x);
    Rotation49(x);
    ValueTurned(x, 17);
    ValueTurned(x, 28);
    ValueTurned(x, 49);
  }

  // ----- shifts -----------------------------------------------------------------

  function HalvedBy(x: Long, n: nat): Long {
    if n == 0 then x else Half(HalvedBy(x, n - 1))
  }

  lemma {:induction false} ValueHalved(x: Long, n: nat)
    ensures Value(HalvedBy(x, n)) == Value(x) / Pow2(n)
  {
    hide Value, Half;
    if n > 0 {
      ValueHalved(x, n - 1);
      ValueHalf(HalvedBy(x, n - 1));
      HalfOfQuotient(Value(x), Pow2(n - 1));
    }
  }

  lemma HalfOfQuotient(v: int, m: int)
    requires m > 0
    ensures v / m / 2 == v / (2 * m)
  {
    var q := v / m;
    assert v == q * m + v % m;
    assert q == 2 * (q / 2) + q % 2;
    assert v == (2 * (q / 2) + q % 2) * m + v % m;
    assert (2 * (q / 2) + q % 2) * m == (q / 2) * (2 * m) + (q % 2) * m;
    DivMod(q / 2, (q % 2) * m + v % m, 2 * m);
  }

  function Shr9(x: Long): Long { Long(x.bits >> 9) }
  function Shr18(x: Long): Long { Long(x.bits >> 18) }
  function Shr3(x: Long): Long { Long(x.bits >> 3) }

  lemma ThreeHalves(x: Long)
    ensures Half(Half(Half(x))) == Shr3(x)
  {
  }

  lemma NineHalves(x: Long)
    ensures Shr3(Shr3(Shr3(x))) == Shr9(x)
  {
  }

  lemma TwoNines(x: Long)
    ensures Shr9(Shr9(x)) == Shr18(x)
  {
  }

  lemma Shift27Is(x: Long)
    ensures Shr9(Shr18(x)) == Shr27(x)
  {
  }

  lemma Shift30Is(x: Long)
    ensures Shr3(Shr27(x)) == Shr30(x)
  {
  }

  lemma Shift31Is(x: Long)
    ensures Half(Shr30(x)) == Shr31(x)
  {
  }

  lemma HalveOn(x: Long, n: nat)
    ensures HalvedBy(x, 0) == x && HalvedBy(x, n + 1) == Half(HalvedBy(x, n))
  {
  }

  lemma ThreeMore(x: Long, n: nat)
    ensures HalvedBy(x, n + 3) == Shr3(HalvedBy(x, n))
  {
    hide *;
    HalveOn(x, n); HalveOn(x, n + 1); HalveOn(x, n + 2);
    ThreeHalves(HalvedBy(x, n));
  }

  lemma NineMore(x: Long, n: nat)
    ensures HalvedBy(x, n + 9) == Shr9(HalvedBy(x, n))
  {
    hide *;
    ThreeMore(x, n); ThreeMore(x, n + 3); ThreeMore(x, n + 6);
    NineHalves(HalvedBy(x, n));
  }

  lemma HalvedPowers()
    ensures Pow2(27) == 0x800_0000 && Pow2(30) == 0x4000_0000 && Pow2(31) == 0x8000_0000
  {
    Mask32();
    assert Pow2(32) == 2 * Pow2(31) && Pow2(31) == 2 * Pow2(30) && Pow2(30) == 2 * Pow2(29);
    assert Pow2(29) == 2 * Pow2(28) && Pow2(28) == 2 * Pow2(27);
  }

  lemma ValueShifts(x: Long)
    ensures Value(Shr27(x)) == Value(x) / 0x800_0000
    ensures Value(Shr30(x)) == Value(x) / 0x4000_0000
    ensures Value(Shr31(x)) == Value(x) / 0x8000_0000
  {
    hide *;
    HalveOn(x, 30);
    NineMore(x, 0); NineMore(x, 9); NineMore(x, 18);
    ThreeMore(x, 27);
    TwoNines(x);
    Shift27Is(x);
    Shift30Is(x);
    Shift31Is(x);
    ValueHalved(x, 27);
    ValueHalved(x, 30);
    ValueHalved(x, 31);
    HalvedPowers();
  }

  // ----- the left shift ---------------------------------------------------------

  function DoubledBy(x: Long, n: nat): Long {
    if n == 0 then x else Twice(DoubledBy(x, n - 1))
  }

  lemma {:induction false} ValueDoubled(x: Long, n: nat)
    ensures Value(DoubledBy(x, n)) == Value(x) * Pow2(n) % TWO_64
  {
    hide Value, Twice;
    if n > 0 {
      ValueDoubled(x, n - 1);
      ValueTwice(DoubledBy(x, n - 1));
      DoubleModulo(Value(x), Pow2(n - 1));
    } else {
      assert Value(x) * 1 == Value(x);
    }
  }

  lemma DoubleModulo(v: int, m: int)
    ensures 2 * (v * m % TWO_64) % TWO_64 == v * (2 * m) % TWO_64
  {
    assert v * (2 * m) == 2 * (v * m);
    DoubledRemainder(v * m);
  }

  lemma DoubledRemainder(p: int)
    ensures 2 * (p % TWO_64) % TWO_64 == 2 * p % TWO_64
  {
  }

  function Shl3(x: Long): Long { Long(x.bits << 3) }
  function Shl9(x: Long): Long { Long(x.bits << 9) }

  lemma ThreeDoubles(x: Long)
    ensures Twice(Twice(Twice(x))) == Shl3(x)
  {
  }

  lemma NineDoubles(x: Long)
    ensures Shl3(Shl3(Shl3(x))) == Shl9(x)
  {
  }

  lemma Shift21Is(x: Long)
    ensures Shl3(Shl9(Shl9(x))) == Shl21(x)
  {
  }

  lemma DoubleOn(x: Long, n: nat)
    ensures DoubledBy(x, 0) == x && DoubledBy(x, n + 1) == Twice(DoubledBy(x, n))
  {
  }

  lemma ThreeDoublesMore(x: Long, n: nat)
    ensures DoubledBy(x, n + 3) == Shl3(DoubledBy(x, n))
  {
    hide *;
    DoubleOn(x, n); DoubleOn(x, n + 1); DoubleOn(x, n + 2);
    ThreeDoubles(DoubledBy(x, n));
  }

  lemma NineDoublesMore(x: Long, n: nat)
    ensures DoubledBy(x, n + 9) == Shl9(DoubledBy(x, n))
  {
    hide *;
    ThreeDoublesMore(x, n); ThreeDoublesMore(x, n + 3); ThreeDoublesMore(x, n + 6);
    NineDoubles(DoubledBy(x, n));
  }

  lemma Power21()
    ensures Pow2(21) == 0x20_0000
  {
    FourMore(0); FourMore(4); FourMore(8); FourMore(12); FourMore(16);
    assert Pow2(21) == 2 * Pow2(20);
  }

  lemma ValueShl21(x: Long)
    ensures Value(Shl21(x)) == Value(x) * 0x20_0000 % TWO_64
  {
    hide *;
    DoubleOn(x, 0);
    NineDoublesMore(x, 0); NineDoublesMore(x, 9);
    ThreeDoublesMore(x, 18);
    Shift21Is(x);
    ValueDoubled(x, 21);
    Power21();
  }

  // ----- exclusive or -----------------------------------------------------------

  /** The binary digits in which two numbers differ. */
  function Differing(a: nat, b: nat): nat
    decreases a + b
  {
    if a == 0 && b == 0 then 0
    else 2 * Differing(a / 2, b / 2) + (if a % 2 == b % 2 then 0 else 1)
  }

  lemma XorHalves(x: Long, y: Long)
    ensures Half(Xor(x, y)) == Xor(Half(x), Half(y)) && (Odd(Xor(x, y)) <==> Odd(x) != Odd(y))
  {
  }

  lemma {:induction false} LowBitsDiffer(x: Long, y: Long, k: nat)
    ensures LowBits(Xor(x, y), k) == Differing(LowBits(x, k), LowBits(y, k))
    decreases k
  {
    hide Half, Odd, Xor;
    if k > 0 {
      XorHalves(x, y);
      LowBitsDiffer(Half(x), Half(y), k - 1);
      var a, b := LowBits(Half(x), k - 1), LowBits(Half(y), k - 1);
      var c, d := LowBits(x, k), LowBits(y, k);
      assert c / 2 == a && d / 2 == b;
    }
  }

  lemma ValueXor(x: Long, y: Long)
    ensures Value(Xor(x, y)) == Differing(Value(x), Value(y))
  {
    hide LowBits, Differing, Xor;
    ValueIsLow(x);
    ValueIsLow(y);
    ValueIsLow(Xor(x, y));
    LowBitsDiffer(x, y, 64);
  }

  // ----- the finaliser and the derived seeds --------------------------------------

  /** The finaliser on integers. */
  function Finalised(v: nat): nat {
    var a := Differing(v, v / 0x4000_0000) * 0xBF58_476D_1CE4_E5B9 % TWO_64;
    var b := Differing(a, a / 0x800_0000) * 0x94D0_49BB_1331_11EB % TWO_64;
    Differing(b, b / 0x8000_0000)
  }

  lemma ScaleModulo(v: int, c: int, d: int)
    requires d == c + TWO_64
    ensures v * c % TWO_64 == v * d % TWO_64
  {
    assert v * d == v * c + v * TWO_64;
  }

  lemma ValueScale(z: Long, c: int, d: int)
    requires d == c + TWO_64
    ensures Value(Scale(z, c)) == Value(z) * d % TWO_64
  {
    hide Value, Low64;
    Low64Value(Value(z) * c);
    ScaleModulo(Value(z), c, d);
  }

  lemma MixValue(z: Long)
    ensures Value(MixStafford13(z)) == Finalised(Value(z))
  {
    hide Value, Xor, Shr30, Shr27, Shr31, Scale, Differing;
    ValueShifts(z);
    ValueXor(z, Shr30(z));
    ValueScale(Fold30(z), FACTOR_1, 0xBF58_476D_1CE4_E5B9);
    var a := Scale(Fold30(z), FACTOR_1);
    ValueShifts(a);
    ValueXor(a, Shr27(a));
    ValueScale(Fold27(a), FACTOR_2, 0x94D0_49BB_1331_11EB);
    var b := Scale(Fold27(a), FACTOR_2);
    ValueShifts(b);
    ValueXor(b, Shr31(b));
  }

  lemma ValuePlus(a: Long, b: Long)
    ensures Value(Plus(a, b)) == (Value(a) + Value(b)) % TWO_64
  {
    hide Value, Low64;
    Low64Value(Value(a) + Value(b));
  }

  lemma SumModulo(a: int, b: int)
    ensures (a + b % TWO_64) % TWO_64 == (a + b) % TWO_64
  {
  }

  /** A derived seed is the finaliser, twice, of the master XOR the domain plus the
      ordinal times the golden ratio. */
  lemma DeriveValue(master: Long, domain: Long, ordinal: Long)
    ensures Value(Derive(master, domain, ordinal)) ==
      Finalised(Finalised((Differing(Value(master), Value(domain)) + Value(ordinal) * 0x9E37_79B9_7F4A_7C15) % TWO_64))
  {
    hide Value, Xor, Scale, Plus, MixStafford13, Finalised, Differing;
    ValueXor(master, domain);
    ValueScale(ordinal, GOLDEN_RATIO_64, 0x9E37_79B9_7F4A_7C15);
    ValuePlus(Xor(master, domain), Scale(ordinal, GOLDEN_RATIO_64));
    SumModulo(Differing(Value(master), Value(domain)), Value(ordinal) * 0x9E37_79B9_7F4A_7C15);
    MixValue(DeriveKey(master, domain, ordinal));
    MixValue(MixStafford13(DeriveKey(master, domain, ordinal)));
  }

  /** A stream keyed by a seed starts from the finalised seed plus one golden ratio,
      and plus two. */
  lemma KeyedValue(seed: Long)
    ensures Value(Keyed(seed).lo) == Finalised((Value(seed) + 0x9E37_79B9_7F4A_7C15) % TWO_64)
    ensures Value(Keyed(seed).hi) == Finalised((Value(seed) + 2 * 0x9E37_79B9_7F4A_7C15) % TWO_64)
  {
    hide Value, MixStafford13, Golden, Finalised;
    FallbackUnreachable(seed);
    hide Keyed;
    GoldenValue(seed);
    GoldenValue(Golden(seed));
    MixValue(Golden(seed));
    MixValue(Golden(Golden(seed)));
  }

  // ----- the stream ---------------------------------------------------------------

  /** The output is the sum of the words, turned left by 17, plus the low word. */
  lemma OutputValue(w: Words)
    ensures Value(SeedMath.Output(w)) == (RotatedLeft((Value(w.lo) + Value(w.hi)) % TWO_64, 17) + Value(w.lo)) % TWO_64
  {
    hide Value, Plus, RotL17, RotatedLeft;
    ValuePlus(w.lo, w.hi);
    ValueRotations(Plus(w.lo, w.hi));
    ValuePlus(RotL17(Plus(w.lo, w.hi)), w.lo);
  }

  /** The words after a step. */
  lemma AdvanceValue(w: Words)
    ensures
      var h := Differing(Value(w.hi), Value(w.lo));
      && h < TWO_64
      && Value(Advance(w).lo) == Differing(Differing(RotatedLeft(Value(w.lo), 49), h), h * 0x20_0000 % TWO_64)
      && Value(Advance(w).hi) == RotatedLeft(h, 28)
  {
    hide Value, Xor, RotL49, RotL28, Shl21, RotatedLeft, Differing;
    var h := Xor(w.hi, w.lo);
    ValueXor(w.hi, w.lo);
    ValueRotations(w.lo);
    ValueRotations(h);
    ValueShl21(h);
    ValueXor(RotL49(w.lo), h);
    ValueXor(Xor(RotL49(w.lo), h), Shl21(h));
  }

  // ----- no step stands still -------------------------------------------------------

  function RotL13(x: Long): Long { Long(x.bits.RotateLeft(13)) }

  lemma TurnsAdd(a: Long, b: Long)
    ensures RotL49(Xor(a, b)) == Xor(RotL49(a), RotL49(b))
  {
  }

  lemma TurnsWrap(h: Long)
    ensures RotL49(RotL28(h)) == RotL13(h)
  {
  }

  lemma FixedBits(h: bv64, a: bv64, b: bv64, c: bv64, d: bv64)
    requires a == h.RotateLeft(28) && b == h.RotateLeft(49) && c == h.RotateLeft(13) && d == h << 21
    requires a ^ b ^ c == d
    ensures h == 0
  {
  }

  lemma TurnBits28(h: Long)
    ensures RotL28(h).bits == h.bits.RotateLeft(28)
  {
  }

  lemma TurnBits49(h: Long)
    ensures RotL49(h).bits == h.bits.RotateLeft(49)
  {
  }

  lemma TurnBits13(h: Long)
    ensures RotL13(h).bits == h.bits.RotateLeft(13)
  {
  }

  lemma ShiftBits21(h: Long)
    ensures Shl21(h).bits == h.bits << 21
  {
  }

  lemma XorBits(a: Long, b: Long, c: Long)
    ensures Xor(Xor(a, b), c).bits == a.bits ^ b.bits ^ c.bits
  {
  }

  lemma OnlyZeroIsFixed(h: Long)
    requires Xor(Xor(RotL28(h), RotL49(h)), RotL13(h)) == Shl21(h)
    ensures h.bits == 0
  {
    hide *;
    TurnBits28(h); TurnBits49(h); TurnBits13(h); ShiftBits21(h);
    XorBits(RotL28(h), RotL49(h), RotL13(h));
    FixedBits(h.bits, RotL28(h).bits, RotL49(h).bits, RotL13(h).bits, Shl21(h).bits);
  }

  lemma FixedWords(a: Long, h: Long, r: Long, s: Long, t: Long)
    requires Xor(h, r) == Xor(Xor(Xor(a, t), h), s)
    ensures Xor(Xor(r, a), t) == s
  {
    hide Xor;
    var m := Xor(a, t);
    XorSwaps(m, h);
    XorAssociates(h, m, s);
    XorLeftCancels(h, r);
    XorLeftCancels(h, Xor(m, s));
    XorAssociates(r, a, t);
    XorSwaps(m, s);
    XorCancels(s, m);
  }

  /** Words that are not all zero differ after a step. */
  lemma StepMoves(w: Words)
    requires w != Words(ZERO, ZERO)
    ensures Advance(w) != w
  {
    hide Xor, RotL49, RotL28, Shl21, RotL13;
    if Advance(w) == w {
      var h := Xor(w.hi, w.lo);
      XorLeftCancels(w.hi, w.lo);
      XorSwaps(w.hi, w.lo);
      XorLeftCancels(h, w.lo);
      XorSwaps(h, w.hi);
      assert w.lo == Xor(h, RotL28(h));
      TurnsAdd(h, RotL28(h));
      TurnsWrap(h);
      FixedWords(RotL49(h), h, RotL28(h), Shl21(h), RotL13(h));
      OnlyZeroIsFixed(h);
      ZeroTurns();
    }
  }

  lemma XorSwaps(a: Long, b: Long)
    ensures Xor(a, b) == Xor(b, a)
  {
  }

  lemma ZeroTurns()
    ensures RotL28(ZERO) == ZERO && Xor(ZERO, ZERO) == ZERO
  {
  }
}
