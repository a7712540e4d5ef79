// Saved block sections (camera/blockdiff.py and the column reader of branch.py):
// the bit-packed palette, and the arithmetic that finds a block's cell.

module Palette {
  import opened Options
  import opened Division
  import opened Longs

  const AIR: string := "minecraft:air"

  /** The blocks of a section. */
  const SECTION: int := 4096

  // ----- shifts and bits ------------------------------------------------------

  /** `w >> n`. */
  function ShiftRight(w: nat, n: nat): nat {
    if n == 0 then w else ShiftRight(w / 2, n - 1)
  }

  /** `n.bit_length()`. */
  function BitLength(n: nat): nat {
    if n == 0 then 0 else 1 + BitLength(n / 2)
  }

  lemma {:induction false} BitLengthFits(n: nat)
    ensures n < Pow2(BitLength(n))
  {
    if n > 0 {
      BitLengthFits(n / 2);
    }
  }

  lemma {:induction false} BitLengthLeast(n: nat, k: nat)
    requires n < Pow2(k)
    ensures BitLength(n) <= k
  {
    if n > 0 {
      BitLengthLeast(n / 2, k - 1);
    }
  }

  lemma {:induction false} ShiftTwice(w: nat, a: nat, b: nat)
    ensures ShiftRight(w, a + b) == ShiftRight(ShiftRight(w, a), b)
  {
    if a > 0 {
      ShiftTwice(w / 2, a - 1, b);
    }
  }

  /** The low bits fall off, the high part comes down. */
  lemma {:induction false} ShiftSplit(low: nat, high: nat, b: nat)
    requires low < Pow2(b)
    ensures ShiftRight(low + Pow2(b) * high, b) == high
    ensures (low + Pow2(b) * high) % Pow2(b) == low
  {
    DivMod(high, low, Pow2(b));
    Commute(Pow2(b), high);
    if b > 0 {
      var p := Pow2(b - 1);
      assert Pow2(b) * high == 2 * (p * high) by {
        Regroup(2, p, high);
      }
      assert (low + 2 * (p * high)) / 2 == low / 2 + p * high;
      ShiftSplit(low / 2, high, b - 1);
    }
  }

  lemma Commute(a: int, b: int)
    ensures a * b == b * a
  {
  }

  lemma Regroup(a: int, b: int, c: int)
    ensures (a * b) * c == a * (b * c)
  {
  }

  // ----- decoding -------------------------------------------------------------

  function BitsFor(palette: seq<string>): (bits: nat)
    requires |palette| > 0
    ensures bits >= 4
  {
    var n := BitLength(|palette| - 1);
    if n < 4 then 4 else n
  }

  /** How many entries one long holds. */
  function PerLong(bits: nat): nat
    requires bits > 0
  {
    64 / bits
  }

  /** Entry `n` of the packed data. */
  function Entry(data: seq<int>, bits: nat, n: nat): nat
    requires bits > 0 && PerLong(bits) > 0 && n < |data| * PerLong(bits)
  {
    RowOf(n, |data|, PerLong(bits));
    ShiftRight(data[n / PerLong(bits)] % TWO_64, (n % PerLong(bits)) * bits) % Pow2(bits)
  }

  /** How many entries a section reads. */
  function EntriesRead(data: seq<int>, bits: nat): nat
    requires bits > 0
  {
    var n := |data| * PerLong(bits);
    if n < SECTION then n else SECTION
  }

  /** Every entry a section reads is an index of its palette. */
  predicate AllIndices(palette: seq<string>, data: seq<int>, bits: nat)
    requires bits > 0 && PerLong(bits) > 0
  {
    forall n :: 0 <= n < EntriesRead(data, bits) ==> Entry(data, bits, n) < |palette|
  }

  /** The blocks of a section, cell by cell: None if some entry is past the palette;
      cells without an entry are air. */
  function Decode(palette: seq<string>, data: seq<int>): (blocks: Option<seq<string>>)
    ensures blocks.Some? ==> |blocks.value| == SECTION
  {
    if |palette| <= 1 then Some(seq(SECTION, _ => if palette == [] then AIR else palette[0]))
    else
      var bits := BitsFor(palette);
      if PerLong(bits) == 0 then Some(seq(SECTION, _ => AIR))
      else if !AllIndices(palette, data, bits) then None
      else Some(seq(SECTION, n requires 0 <= n < SECTION =>
        if n < EntriesRead(data, bits) then palette[Entry(data, bits, n)] else AIR))
  }

  /** Decode a section.  None is the IndexError of an entry past the palette. */
  method SectionBlocks(palette: seq<string>, data: seq<int>) returns (blocks: Option<seq<string>>)
    ensures blocks == Decode(palette, data)
    ensures |palette| <= 1 ==> blocks.Some? && forall n :: 0 <= n < SECTION ==> blocks.value[n] == if palette == [] then AIR else palette[0]
  {
    hide Entry, BitLength, ShiftRight, Pow2;
    if |palette| <= 1 {
      return Some(seq(SECTION, _ => if palette == [] then AIR else palette[0]));
    }
    var bits := BitsFor(palette);
    var per := PerLong(bits);
    var out: seq<string> := [];
    for i := 0 to |data|
      invariant |out| == if i * per < SECTION then i * per else SECTION
      invariant per > 0 ==> forall n :: 0 <= n < |out| ==>
        n < |data| * per && Entry(data, bits, n) < |palette| && out[n] == palette[Entry(data, bits, n)]
    {
      var w := data[i] % TWO_64;
      var k := 0;
      RowEnds(i, |data|, per);
      while k < per && |out| < SECTION
        invariant 0 <= k <= per
        invariant |out| == if i * per + k < SECTION then i * per + k else SECTION
        invariant per > 0 ==> forall n :: 0 <= n < |out| ==>
          n < |data| * per && Entry(data, bits, n) < |palette| && out[n] == palette[Entry(data, bits, n)]
      {
        EntryHere(data, bits, i, k);
        var e := ShiftRight(w, k * bits) % Pow2(bits);
        if e >= |palette| {
          return None;
        }
        out := out + [palette[e]];
        k := k + 1;
      }
      assert (i + 1) * per == i * per + per;
    }
    blocks := Some(out + seq(SECTION - |out|, _ => AIR));
    assert Decode(palette, data).Some?;
    assert blocks.value == Decode(palette, data).value;
  }

  lemma RowEnds(i: nat, words: nat, per: nat)
    requires i < words
    ensures i * per + per <= words * per
  {
    Grows(i + 1, words, per);
    TimesNext(i, per);
  }

  lemma EntryHere(data: seq<int>, bits: nat, i: nat, k: nat)
    requires bits > 0 && i < |data| && k < PerLong(bits)
    ensures i * PerLong(bits) + k < |data| * PerLong(bits)
    ensures Entry(data, bits, i * PerLong(bits) + k) == ShiftRight(data[i] % TWO_64, k * bits) % Pow2(bits)
  {
    var per := PerLong(bits);
    RowEnds(i, |data|, per);
    DivMod(i, k, per);
  }

  // ----- packing --------------------------------------------------------------

  /** Entries packed into one word, the first lowest. */
  function Packed(entries: seq<nat>, bits: nat): nat {
    if entries == [] then 0 else entries[0] + Pow2(bits) * Packed(entries[1..], bits)
  }

  function AsSigned(w: nat): int {
    if w < TWO_63 then w else w - TWO_64
  }

  /** Entries packed into signed 64-bit words, none straddling two. */
  function Pack(entries: seq<nat>, bits: nat): (data: seq<int>)
    requires bits > 0 && PerLong(bits) > 0
  {
    var per := PerLong(bits);
    if entries == [] then []
    else if |entries| <= per then [AsSigned(Packed(entries, bits))]
    else [AsSigned(Packed(entries[..per], bits))] + Pack(entries[per..], bits)
  }

  lemma {:induction false} PackedFits(entries: seq<nat>, bits: nat)
    requires forall k :: 0 <= k < |entries| ==> entries[k] < Pow2(bits)
    ensures Packed(entries, bits) < Pow2(bits * |entries|)
  {
    if entries == [] {
      assert bits * 0 == 0;
    } else {
      var rest := entries[1..];
      PackedFits(rest, bits);
      assert bits * |entries| == bits + bits * |rest|;
      Pow2Adds(bits, bits * |rest|);
      HighPart(entries[0], Packed(rest, bits), Pow2(bits), Pow2(bits * |rest|));
    }
  }

  lemma HighPart(low: nat, high: nat, m: nat, p: nat)
    requires low < m && high < p
    ensures low + m * high < m * p
  {
    Stretch(high, p, m);
  }

  lemma {:induction false} Pow2Adds(a: nat, b: nat)
    ensures Pow2(a + b) == Pow2(a) * Pow2(b)
  {
    if a > 0 {
      Pow2Adds(a - 1, b);
      Regroup(2, Pow2(a - 1), Pow2(b));
    }
  }

  /** Entry `k` of a packed word is the one that was put there. */
  lemma {:induction false} PackedEntry(entries: seq<nat>, bits: nat, k: nat)
    requires k < |entries| && forall j :: 0 <= j < |entries| ==> entries[j] < Pow2(bits)
    ensures ShiftRight(Packed(entries, bits), k * bits) % Pow2(bits) == entries[k]
  {
    var rest := entries[1..];
    ShiftSplit(entries[0], Packed(rest, bits), bits);
    if k > 0 {
      assert k * bits == bits + (k - 1) * bits;
      ShiftTwice(Packed(entries, bits), bits, (k - 1) * bits);
      PackedEntry(rest, bits, k - 1);
    } else {
      assert k * bits == 0;
    }
  }

  lemma SignedKeepsWord(w: nat)
    requires w < TWO_64
    ensures AsSigned(w) % TWO_64 == w
  {
  }

  /** A packed word fits in 64 bits. */
  lemma WordFits(entries: seq<nat>, bits: nat)
    requires bits > 0 && |entries| <= PerLong(bits)
    requires forall k :: 0 <= k < |entries| ==> entries[k] < Pow2(bits)
    ensures Packed(entries, bits) < TWO_64
  {
    PackedFits(entries, bits);
    FewBits(|entries|, bits);
    Pow2Grows(bits * |entries|, WordSize());
    Mask64();
  }

  lemma FewBits(n: nat, bits: nat)
    requires bits > 0 && n <= PerLong(bits)
    ensures bits * n <= WordSize()
  {
    assert bits * PerLong(bits) + 64 % bits == 64;
    Grows(n, PerLong(bits), bits);
  }

  lemma {:induction false} PackLength(entries: seq<nat>, bits: nat)
    requires bits > 0 && PerLong(bits) > 0
    ensures |entries| <= |Pack(entries, bits)| * PerLong(bits)
  {
    var per := PerLong(bits);
    if |entries| > per {
      PackLength(entries[per..], bits);
      var n := |Pack(entries[per..], bits)|;
      assert (n + 1) * per == n * per + per;
    }
  }

  /** Unpacking inverts packing, entry by entry. */
  lemma {:induction false} EntryOfPack(entries: seq<nat>, bits: nat, n: nat)
    requires bits > 0 && PerLong(bits) > 0 && n < |entries|
    requires forall k :: 0 <= k < |entries| ==> entries[k] < Pow2(bits)
    ensures n < |Pack(entries, bits)| * PerLong(bits) && Entry(Pack(entries, bits), bits, n) == entries[n]
    decreases |entries|
  {
    hide ShiftRight, Pow2, Packed, Entry;
    var per := PerLong(bits);
    var data := Pack(entries, bits);
    PackLength(entries, bits);
    if n < per {
      var first := if |entries| <= per then entries else entries[..per];
      WordFits(first, bits);
      SignedKeepsWord(Packed(first, bits));
      PackedEntry(first, bits, n);
      EntryHere(data, bits, 0, n);
    } else {
      var rest := entries[per..];
      EntryOfPack(rest, bits, n - per);
      NextRow(Pack(rest, bits), data[0], bits, n - per);
      assert data == [data[0]] + Pack(rest, bits);
    }
  }

  lemma NextRow(data: seq<int>, head: int, bits: nat, n: nat)
    requires bits > 0 && PerLong(bits) > 0 && n < |data| * PerLong(bits)
    ensures n + PerLong(bits) < (|data| + 1) * PerLong(bits)
    ensures Entry([head] + data, bits, n + PerLong(bits)) == Entry(data, bits, n)
  {
    hide Entry, PerLong, ShiftRight, Pow2;
    var i, k := RowAndNext(n, |data|, PerLong(bits));
    EntryHere(data, bits, i, k);
    EntryHere([head] + data, bits, i + 1, k);
    assert ([head] + data)[i + 1] == data[i];
  }

  /** The row and place of an item, and of the one a row further. */
  lemma RowAndNext(n: nat, words: nat, per: nat) returns (i: nat, k: nat)
    requires per > 0 && n < words * per
    ensures i < words && k < per && n == i * per + k && n + per == (i + 1) * per + k && n + per < (words + 1) * per
  {
    i, k := n / per, n % per;
    RowOf(n, words, per);
    assert n == i * per + k;
    TimesNext(i, per);
    TimesNext(words, per);
  }

  /** Beyond what was packed a word holds zeros. */
  lemma {:induction false} ShiftedOut(w: nat, n: nat)
    requires w < Pow2(n)
    ensures ShiftRight(w, n) == 0
  {
    if n > 0 {
      ShiftedOut(w / 2, n - 1);
    }
  }

  lemma PackedPadding(entries: seq<nat>, bits: nat, k: nat)
    requires |entries| <= k && forall j :: 0 <= j < |entries| ==> entries[j] < Pow2(bits)
    ensures ShiftRight(Packed(entries, bits), k * bits) % Pow2(bits) == 0
  {
    PackedFits(entries, bits);
    Commute(bits, |entries|);
    Grows(|entries|, k, bits);
    Pow2Grows(bits * |entries|, k * bits);
    ShiftedOut(Packed(entries, bits), k * bits);
  }

  /** Entries that were not packed read as the first name's. */
  lemma {:induction false} PaddingIsZero(entries: seq<nat>, bits: nat, n: nat)
    requires bits > 0 && PerLong(bits) > 0 && |entries| <= n < |Pack(entries, bits)| * PerLong(bits)
    requires forall k :: 0 <= k < |entries| ==> entries[k] < Pow2(bits)
    ensures Entry(Pack(entries, bits), bits, n) == 0
    decreases |entries|
  {
    hide ShiftRight, Pow2, Packed, Entry;
    var per := PerLong(bits);
    var data := Pack(entries, bits);
    if |entries| <= per {
      WordFits(entries, bits);
      SignedKeepsWord(Packed(entries, bits));
      PackedPadding(entries, bits, n);
      EntryHere(data, bits, 0, n);
    } else {
      var rest := entries[per..];
      TimesNext(|Pack(rest, bits)|, per);
      PaddingIsZero(rest, bits, n - per);
      NextRow(Pack(rest, bits), data[0], bits, n - per);
      assert data == [data[0]] + Pack(rest, bits);
    }
  }

  /** The width a section of so many names is packed with: four bits up to sixteen
      names, and as many as it takes to number them from then on. */
  predicate WidthOf(names: nat, k: nat) {
    if k == 4 then 2 <= names <= 16 else 5 <= k <= 64 && Pow2(k - 1) < names <= Pow2(k)
  }

  lemma WidthIsRead(palette: seq<string>, k: nat)
    requires WidthOf(|palette|, k)
    ensures BitsFor(palette) == k && PerLong(k) > 0 && |palette| > 1 && |palette| <= Pow2(k)
  {
    hide *;
    var n := |palette| - 1;
    FourBits();
    WidthMeans(|palette|, k);
    BitLengthFits(n);
    BitLengthLeast(n, k);
    if BitLength(n) < k {
      Pow2Grows(BitLength(n), k - 1);
    }
    AtLeastOne(k);
    BitsAre(palette);
  }

  lemma WidthMeans(names: nat, k: nat)
    requires WidthOf(names, k)
    ensures 4 <= k <= 64 && 1 < names <= Pow2(k) && (k > 4 ==> Pow2(k - 1) < names)
  {
    FourBits();
    if k > 4 {
      Pow2Grows(4, k - 1);
    }
  }

  lemma FourBits()
    ensures Pow2(4) == 16
  {
  }

  lemma BitsAre(palette: seq<string>)
    requires |palette| > 0
    ensures BitsFor(palette) == if BitLength(|palette| - 1) < 4 then 4 else BitLength(|palette| - 1)
  {
    hide BitLength;
  }

  /** A section packed at the width of its palette decodes cell by cell to the names
      that were packed, and to air past the last word; it is refused exactly if some
      packed index is no name's. */
  lemma DecodeAtWidth(palette: seq<string>, entries: seq<nat>, k: nat)
    requires WidthOf(|palette|, k) && |entries| <= SECTION && forall n :: 0 <= n < |entries| ==> entries[n] < Pow2(k)
    ensures
      var blocks := Decode(palette, Pack(entries, k));
      && (blocks.None? <==> exists n :: 0 <= n < |entries| && entries[n] >= |palette|)
      && (blocks.Some? ==> forall n :: 0 <= n < SECTION ==>
            blocks.value[n] ==
              if n < |entries| then palette[entries[n]]
              else if n < |Pack(entries, k)| * (64 / k) then palette[0] else AIR)
  {
    hide Pack, Entry, Pow2, BitsFor, ShiftRight;
    WidthIsRead(palette, k);
    var data := Pack(entries, k);
    PackLength(entries, k);
    forall n | 0 <= n < |data| * PerLong(k)
      ensures Entry(data, k, n) == if n < |entries| then entries[n] else 0
    {
      if n < |entries| {
        EntryOfPack(entries, k, n);
      } else {
        PaddingIsZero(entries, k, n);
      }
    }
  }

  /** Palette decoding inverts packing: a section whose cells were packed as valid
      indices of a palette of two names or more decodes to those names. */
  lemma DecodeInvertsPack(palette: seq<string>, entries: seq<nat>)
    requires 1 < |palette| <= TWO_64 && |entries| == SECTION
    requires forall n :: 0 <= n < SECTION ==> entries[n] < |palette|
    ensures PerLong(BitsFor(palette)) > 0
    ensures
      var blocks := Decode(palette, Pack(entries, BitsFor(palette)));
      blocks.Some? && forall n :: 0 <= n < SECTION ==> blocks.value[n] == palette[entries[n]]
  {
    hide Pack, Entry, Pow2, BitsFor, ShiftRight;
    var bits := BitsFor(palette);
    BitsAreEnough(palette);
    var data := Pack(entries, bits);
    forall n | 0 <= n < SECTION
      ensures n < |data| * PerLong(bits) && Entry(data, bits, n) == entries[n]
    {
      EntryOfPack(entries, bits, n);
    }
    PackLength(entries, bits);
  }

  /** The indices of a palette fit in the bits it is packed with, and the bits fit
      in a word. */
  lemma BitsAreEnough(palette: seq<string>)
    requires 1 < |palette| <= TWO_64
    ensures |palette| <= Pow2(BitsFor(palette))
    ensures BitsFor(palette) <= 64 && PerLong(BitsFor(palette)) > 0
  {
    var n := |palette| - 1;
    BitLengthFits(n);
    hide Pow2, BitLength, PerLong;
    Pow2Grows(BitLength(n), BitsFor(palette));
    Mask64();
    BitLengthLeast(n, WordSize());
    AtLeastOne(BitsFor(palette));
  }

  lemma AtLeastOne(bits: nat)
    requires 0 < bits <= 64
    ensures PerLong(bits) > 0
  {
  }
}
