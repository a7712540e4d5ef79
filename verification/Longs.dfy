// 64-bit longs.  A Java `long` is a bv64.  This file relates it to its unsigned
// and signed integer values, on which sums and products are taken, and to the
// decimal text that `Long.toString` and `Long.parseLong` exchange.
//
// The bit operations are named one by one: each identity about bits is proved in
// a lemma of its own, and the inductions above them only see the names.

module Longs {
  import opened Options
  import opened Decimals

  /** A Java `long`.  The bits are wrapped so that only the lemmas about bits see
      bit vectors; everything else compares longs as plain values. */
  datatype Long = Long(bits: bv64)

  const ZERO: Long := Long(0)

  const TWO_63: int := 0x8000_0000_0000_0000
  const TWO_64: int := 0x1_0000_0000_0000_0000

  function Twice(y: Long): Long { Long(y.bits << 1) }
  function TwiceOne(y: Long): Long { Long((y.bits << 1) | 1) }
  function Half(x: Long): Long { Long(x.bits >> 1) }
  predicate Odd(x: Long) { x.bits & 1 == 1 }
  predicate Within(x: Long, mask: Long) { x.bits & !mask.bits == 0 }

  // ----- words and natural numbers --------------------------------------------

  /** The word that the natural number `n` leaves in 64 bits. */
  function Word(n: nat): Long {
    if n == 0 then ZERO else if n % 2 == 0 then Twice(Word(n / 2)) else TwiceOne(Word(n / 2))
  }

  /** The value of the low `k` bits of a word. */
  function LowBits(x: Long, k: nat): (n: nat)
    ensures n < Pow2(k)
    decreases k
  {
    if k == 0 then 0 else 2 * LowBits(Half(x), k - 1) + (if Odd(x) then 1 else 0)
  }

  lemma Recompose(x: Long)
    ensures x == if Odd(x) then TwiceOne(Half(x)) else Twice(Half(x))
  {
  }

  lemma TwiceZero()
    ensures Twice(ZERO) == ZERO
  {
  }

  lemma {:induction false} WordOfLowBits(x: Long, k: nat)
    requires Within(x, Mask(k))
    ensures Word(LowBits(x, k)) == x
    decreases k
  {
    hide Word;
    TwiceZero();
    if k == 0 {
      WithinZero(x);
      WordUnfold(0);
    } else {
      Recompose(x);
      HalfWithin(x, Mask(k - 1));
      var n := LowBits(Half(x), k - 1);
      WordOfLowBits(Half(x), k - 1);
      WordUnfold(n);
    }
  }

  lemma WordUnfold(n: nat)
    ensures Word(0) == ZERO && Word(2 * n) == Twice(Word(n)) && Word(2 * n + 1) == TwiceOne(Word(n))
  {
    TwiceZero();
    assert (2 * n) / 2 == n && (2 * n + 1) / 2 == n;
  }

  lemma WithinZero(x: Long)
    requires Within(x, ZERO)
    ensures x == ZERO
  {
  }

  lemma HalfWithin(x: Long, m: Long)
    requires Within(x, TwiceOne(m))
    ensures Within(Half(x), m)
  {
  }

  // ----- the 64-bit bound -----------------------------------------------------

  function Pow2(k: nat): (p: nat)
    ensures p >= 1
  {
    if k == 0 then 1 else 2 * Pow2(k - 1)
  }

  /** The word with the low `k` bits set. */
  function Mask(k: nat): Long {
    if k == 0 then ZERO else TwiceOne(Mask(k - 1))
  }

  function Ones8(m: Long): Long { Long((m.bits << 8) | 0xff) }

  lemma OnesBits(m: Long)
    ensures TwiceOne(TwiceOne(TwiceOne(TwiceOne(TwiceOne(TwiceOne(TwiceOne(TwiceOne(m)))))))) == Ones8(m)
  {
  }

  /** Eight more bits, of the mask and of the bound it stands for. */
  lemma EightMore(k: nat)
    ensures Mask(k + 8) == Ones8(Mask(k))
    ensures Pow2(k + 8) == 256 * Pow2(k)
  {
    OnesBits(Mask(k));
    FourMore(k);
    FourMore(k + 4);
  }

  lemma MaskStep(k: nat)
    ensures Mask(k + 1) == TwiceOne(Mask(k)) && Pow2(k + 1) == 2 * Pow2(k)
  {
  }

  lemma FourMore(k: nat)
    ensures Mask(k + 4) == TwiceOne(TwiceOne(TwiceOne(TwiceOne(Mask(k)))))
    ensures Pow2(k + 4) == 16 * Pow2(k)
  {
    hide *;
    MaskStep(k); MaskStep(k + 1); MaskStep(k + 2); MaskStep(k + 3);
  }

  lemma Mask32()
    ensures Mask(32) == Long(0xffff_ffff) && Pow2(32) == 0x1_0000_0000
  {
    EightMore(0); EightMore(8); EightMore(16); EightMore(24);
  }

  lemma Mask64()
    ensures Mask(64) == Long(0xffff_ffff_ffff_ffff) && Pow2(64) == TWO_64
  {
    Mask32();
    EightMore(32); EightMore(40); EightMore(48); EightMore(56);
  }

  lemma TwiceWithin(y: Long, m: Long)
    requires Within(y, m)
    ensures Within(Twice(y), TwiceOne(m)) && Within(TwiceOne(y), TwiceOne(m))
  {
  }

  lemma ZeroWithin(m: Long)
    ensures Within(ZERO, m)
  {
  }

  lemma {:induction false} WordWithin(n: nat, k: nat)
    requires n < Pow2(k)
    ensures Within(Word(n), Mask(k))
  {
    if n == 0 {
      ZeroWithin(Mask(k));
    } else {
      WordWithin(n / 2, k - 1);
      TwiceWithin(Word(n / 2), Mask(k - 1));
    }
  }

  lemma EveryWordWithin(x: Long)
    ensures Within(x, Long(0xffff_ffff_ffff_ffff))
  {
  }

  lemma Mask63()
    ensures Mask(63) == Long(0x7fff_ffff_ffff_ffff) && Pow2(63) == TWO_63
  {
    Mask32();
    EightMore(32); EightMore(40); EightMore(48);
    assert Mask(56) == Long(0xff_ffff_ffff_ffff) && Pow2(56) == 0x100_0000_0000_0000;
    FourMore(56);
    assert Mask(60) == Long(0xfff_ffff_ffff_ffff);
    assert Mask(61) == TwiceOne(Mask(60)) && Mask(62) == TwiceOne(Mask(61)) && Mask(63) == TwiceOne(Mask(62));
    assert Pow2(61) == 2 * Pow2(60) && Pow2(62) == 2 * Pow2(61);
  }

  lemma {:induction false} Pow2Grows(j: nat, k: nat)
    requires j <= k
    ensures Pow2(j) <= Pow2(k)
  {
    if j < k {
      Pow2Grows(j, k - 1);
    }
  }

  lemma HalfOfTwice(y: Long)
    requires Within(y, Long(0x7fff_ffff_ffff_ffff))
    ensures Half(Twice(y)) == y == Half(TwiceOne(y)) && !Odd(Twice(y)) && Odd(TwiceOne(y))
  {
  }

  lemma LowBitsUnfold(x: Long, k: nat)
    requires k > 0
    ensures LowBits(x, k) == 2 * LowBits(Half(x), k - 1) + (if Odd(x) then 1 else 0)
  {
  }

  lemma {:induction false} LowBitsOfWord(n: nat, k: nat)
    requires n < Pow2(k) && k <= 64
    ensures LowBits(Word(n), k) == n
  {
    if k > 0 {
      var h := n / 2;
      LowBitsOfWord(h, k - 1);
      Pow2Grows(k - 1, 63);
      WordWithin(h, 63);
      Mask63();
      HalfOfTwice(Word(h));
      hide *;
      assert n == 2 * h || n == 2 * h + 1;
      WordUnfold(h);
      LowBitsUnfold(Word(n), k);
    }
  }

  // ----- unsigned and signed values -------------------------------------------

  function WordSize(): nat { 64 }

  /** The unsigned value of a word. */
  function Value(x: Long): (n: nat)
    ensures n < TWO_64
  {
    Mask64();
    LowBits(x, WordSize())
  }

  lemma ValueRoundTrip(x: Long, n: nat)
    ensures Word(Value(x)) == x
    ensures n < TWO_64 ==> Value(Word(n)) == n
  {
    Mask64();
    EveryWordWithin(x);
    WordOfLowBits(x, 64);
    if n < TWO_64 {
      LowBitsOfWord(n, 64);
    }
  }

  /** The long that an integer leaves in 64 bits. */
  function Low64(v: int): Long {
    Word(v % TWO_64)
  }

  /** Java's `a + b` on longs. */
  function Plus(a: Long, b: Long): Long {
    Low64(Value(a) + Value(b))
  }

  /** Java's `a * c` on longs, for a constant `c`. */
  function Scale(a: Long, c: int): Long {
    Low64(Value(a) * c)
  }

  lemma Low64Value(v: int)
    ensures Value(Low64(v)) == v % TWO_64
  {
    hide Value, Word;
    ValueRoundTrip(ZERO, v % TWO_64);
  }

  lemma SameValue(a: Long, b: Long)
    requires Value(a) == Value(b)
    ensures a == b
  {
    ValueRoundTrip(a, 0);
    ValueRoundTrip(b, 0);
  }

  lemma ValueOfZero()
    ensures Value(ZERO) == 0
  {
    hide Value;
    ValueRoundTrip(ZERO, 0);
  }

  predicate InLongRange(v: int) {
    -TWO_63 <= v < TWO_63
  }

  /** The value a Java program sees in the word `x`. */
  function Signed(x: Long): (v: int)
    ensures InLongRange(v)
  {
    if Value(x) < TWO_63 then Value(x) else Value(x) - TWO_64
  }

  lemma SignedRoundTrip(x: Long, v: int)
    ensures Low64(Signed(x)) == x
    ensures InLongRange(v) ==> Signed(Low64(v)) == v
  {
    hide Value, Low64;
    Low64Value(Signed(x));
    assert Signed(x) % TWO_64 == Value(x);
    SameValue(Low64(Signed(x)), x);
    Low64Value(v);
  }

  // ----- decimal text ---------------------------------------------------------

  /** `Long.toString`. */
  function Print(v: int): string {
    if v < 0 then "-" + PrintNat(-v) else PrintNat(v)
  }

  /** `Long.parseLong`: None is its NumberFormatException. */
  function Parse(s: string): (r: Option<int>)
    ensures r.Some? ==> InLongRange(r.value)
  {
    if s == "" then None else
      var negative := s[0] == '-';
      var digits := if negative || s[0] == '+' then s[1..] else s;
      if digits == "" then None
      else match ParseNat(digits)
        case None => None
        case Some(n) =>
          var magnitude: int := n;
          var v := if negative then -magnitude else magnitude;
          if InLongRange(v) then Some(v) else None
  }

  /** Every long survives `Long.toString` followed by `Long.parseLong`. */
  lemma ParsePrint(v: int)
    requires InLongRange(v)
    ensures Parse(Print(v)) == Some(v)
  {
    hide PrintNat, ParseNat;
    var digits := PrintNat(if v < 0 then -v else v);
    ParsePrintNat(if v < 0 then -v else v);
    if v < 0 {
      assert Print(v)[0] == '-' && Print(v)[1..] == digits;
    } else {
      assert Print(v) == digits && IsDigit(digits[0]);
    }
  }
}
