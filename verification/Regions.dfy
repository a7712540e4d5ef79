// Two readers of a saved world: one takes a horizontal slice of every chunk
// (camera/blockdiff.py), the other one column of one chunk (branch.py).

module Regions {
  import opened Options
  import opened Palette
  import opened Patterns

  datatype Section = Section(y: int, palette: seq<string>, data: seq<int>)

  type Chunk = seq<Section>

  /** A region file `r.<rx>.<rz>.mca`: the chunks in its 1024 slots. */
  datatype Region = Region(rx: int, rz: int, slots: map<int, Chunk>)

  predicate Files(regions: seq<Region>) {
    forall i, j :: 0 <= i < j < |regions| ==> (regions[i].rx, regions[i].rz) != (regions[j].rx, regions[j].rz)
  }

  const NOT_SAVED: string := "<chunk not saved>"

  // ----- where a chunk is -----------------------------------------------------

  /** The chunk in slot `i` of a region, as the iterator over chunks numbers it. */
  function ChunkX(rx: int, i: int): int { rx * 32 + i % 32 }
  function ChunkZ(rz: int, i: int): int { rz * 32 + i / 32 }

  /** The slot of a chunk, as the column reader finds it. */
  function SlotOf(cx: int, cz: int): int {
    (cz % 32) * 32 + cx % 32
  }

  /** For every chunk, negative ones included, both arithmetics name the same
      region and slot. */
  lemma SlotIsChunk(cx: int, cz: int, rx: int, rz: int, i: int)
    requires 0 <= i < 1024
    ensures (ChunkX(rx, i) == cx && ChunkZ(rz, i) == cz) <==> (rx == cx / 32 && rz == cz / 32 && i == SlotOf(cx, cz))
  {
    assert cx == 32 * (cx / 32) + cx % 32 && cz == 32 * (cz / 32) + cz % 32;
    assert i == 32 * (i / 32) + i % 32;
  }

  /** The first region file of that name that holds the chunk. */
  function ChunkAt(regions: seq<Region>, cx: int, cz: int): Option<Chunk> {
    if regions == [] then None
    else
      var r := regions[0];
      if r.rx == cx / 32 && r.rz == cz / 32 then
        if SlotOf(cx, cz) in r.slots then Some(r.slots[SlotOf(cx, cz)]) else None
      else ChunkAt(regions[1..], cx, cz)
  }

  lemma {:induction false} ChunkAtIs(regions: seq<Region>, a: nat, cx: int, cz: int)
    requires a < |regions| && Files(regions) && regions[a].rx == cx / 32 && regions[a].rz == cz / 32
    ensures ChunkAt(regions, cx, cz) ==
      if SlotOf(cx, cz) in regions[a].slots then Some(regions[a].slots[SlotOf(cx, cz)]) else None
  {
    if a > 0 {
      ChunkAtIs(regions[1..], a - 1, cx, cz);
    }
  }

  lemma {:induction false} ChunkNowhere(regions: seq<Region>, cx: int, cz: int)
    requires forall a :: 0 <= a < |regions| ==> (regions[a].rx, regions[a].rz) != (cx / 32, cz / 32)
    ensures ChunkAt(regions, cx, cz) == None
  {
    if regions != [] {
      ChunkNowhere(regions[1..], cx, cz);
    }
  }

  // ----- where a block is -----------------------------------------------------

  function FirstAt(chunk: Chunk, y: int): Option<Section> {
    if chunk == [] then None else if chunk[0].y == y then Some(chunk[0]) else FirstAt(chunk[1..], y)
  }

  function LastAt(chunk: Chunk, y: int): Option<Section> {
    if chunk == [] then None
    else
      var last := chunk[|chunk| - 1];
      if last.y == y then Some(last) else LastAt(chunk[..|chunk| - 1], y)
  }

  /** At most one section is at that height. */
  predicate Sole(heights: seq<int>, h: int) {
    forall i, j :: 0 <= i < j < |heights| ==> !(heights[i] == h && heights[j] == h)
  }

  function Heights(chunk: Chunk): (hs: seq<int>)
    ensures |hs| == |chunk| && forall i :: 0 <= i < |hs| ==> hs[i] == chunk[i].y
  {
    seq(|chunk|, i requires 0 <= i < |chunk| => chunk[i].y)
  }

  /** The index of a block in its section. */
  function CellOf(x: int, y: int, z: int): (i: int)
    ensures 0 <= i < SECTION
  {
    (y % 16) * 256 + ((z % 16) * 16 + x % 16)
  }

  /** The block at (x, y, z) in the slice reader's eyes: None if there is no such
      section, or it cannot be decoded. */
  function SliceBlock(regions: seq<Region>, x: int, y: int, z: int): Option<string> {
    var chunk := ChunkAt(regions, x / 16, z / 16);
    if chunk.None? then None
    else
      var section := FirstAt(chunk.value, y / 16);
      if section.None? then None
      else
        var blocks := Decode(section.value.palette, section.value.data);
        if blocks.None? then None else Some(blocks.value[CellOf(x, y, z)])
  }

  /** The block at (x, y, z) in the column reader's eyes. */
  function ColumnBlock(regions: seq<Region>, x: int, y: int, z: int): Option<string> {
    var chunk := ChunkAt(regions, x / 16, z / 16);
    if chunk.None? then Some(NOT_SAVED)
    else
      var section := LastAt(chunk.value, y / 16);
      if section.None? then Some(NOT_SAVED)
      else
        var blocks := Decode(section.value.palette, section.value.data);
        if blocks.None? then None else Some(blocks.value[CellOf(x, y, z)])
  }

  lemma FirstIsLast(chunk: Chunk, y: int)
    ensures Sole(Heights(chunk), y) ==> FirstAt(chunk, y) == LastAt(chunk, y)
    ensures FirstAt(chunk, y).Some? <==> LastAt(chunk, y).Some?
  {
    FirstFound(chunk, y);
    LastFound(chunk, y);
  }

  predicate IsFirstAt(chunk: Chunk, y: int, i: int) {
    0 <= i < |chunk| && chunk[i].y == y && forall k :: 0 <= k < i ==> chunk[k].y != y
  }

  predicate IsLastAt(chunk: Chunk, y: int, i: int) {
    0 <= i < |chunk| && chunk[i].y == y && forall k :: i < k < |chunk| ==> chunk[k].y != y
  }

  lemma {:induction false} FirstFound(chunk: Chunk, y: int)
    ensures FirstAt(chunk, y).None? <==> forall i :: 0 <= i < |chunk| ==> chunk[i].y != y
    ensures FirstAt(chunk, y).Some? ==> exists i :: IsFirstAt(chunk, y, i) && FirstAt(chunk, y).value == chunk[i]
  {
    if chunk != [] {
      var rest := chunk[1..];
      FirstFound(rest, y);
      assert forall i :: 0 < i < |chunk| ==> chunk[i] == rest[i - 1];
      assert forall i :: 0 <= i < |rest| ==> rest[i] == chunk[i + 1];
      if chunk[0].y == y {
        assert IsFirstAt(chunk, y, 0);
      } else if FirstAt(rest, y).Some? {
        var i :| IsFirstAt(rest, y, i) && FirstAt(rest, y).value == rest[i];
        assert IsFirstAt(chunk, y, i + 1);
      }
    }
  }

  lemma {:induction false} LastFound(chunk: Chunk, y: int)
    ensures LastAt(chunk, y).None? <==> forall i :: 0 <= i < |chunk| ==> chunk[i].y != y
    ensures LastAt(chunk, y).Some? ==> exists i :: IsLastAt(chunk, y, i) && LastAt(chunk, y).value == chunk[i]
  {
    if chunk != [] {
      var n := |chunk| - 1;
      LastFound(chunk[..n], y);
      if chunk[n].y == y {
        assert IsLastAt(chunk, y, n);
      } else if LastAt(chunk[..n], y).Some? {
        var i :| IsLastAt(chunk[..n], y, i) && LastAt(chunk[..n], y).value == chunk[..n][i];
        assert IsLastAt(chunk, y, i);
      }
    }
  }

  /** Where the slice reader sees a block the column reader sees it too; where it
      sees none, the column reader fails or says that nothing is saved. */
  predicate Agree(regions: seq<Region>, x: int, y: int, z: int) {
    var slice, column := SliceBlock(regions, x, y, z), ColumnBlock(regions, x, y, z);
    if slice.Some? then column == slice else column.None? || column == Some(NOT_SAVED)
  }

  /** The two readers see the same block wherever the chunk has at most one section
      for the height. */
  lemma ReadersAgree(regions: seq<Region>, x: int, y: int, z: int)
    requires
      var chunk := ChunkAt(regions, x / 16, z / 16);
      chunk.Some? ==> Sole(Heights(chunk.value), y / 16)
    ensures Agree(regions, x, y, z)
  {
    var chunk := ChunkAt(regions, x / 16, z / 16);
    if chunk.Some? {
      FirstIsLast(chunk.value, y / 16);
    }
  }

  /** Sections at these heights, of one block up to number `i` and of another after. */
  function Halves(heights: seq<int>, i: int): (chunk: Chunk)
    ensures Heights(chunk) == heights
  {
    seq(|heights|, k requires 0 <= k < |heights| => Section(heights[k], [if k <= i then "stone" else "sand"], []))
  }

  /** One region file with one chunk, at (x, z). */
  function Saved(chunk: Chunk, x: int, z: int): seq<Region> {
    [Region(x / 16 / 32, z / 16 / 32, map[SlotOf(x / 16, z / 16) := chunk])]
  }

  /** Two sections at one height: the slice reader sees the first of them and the
      column reader the last. */
  lemma DoubledSection(heights: seq<int>, i: int, j: int, x: int, y: int, z: int)
    requires 0 <= i < j < |heights| && heights[i] == heights[j] == y / 16
    ensures
      var regions := Saved(Halves(heights, i), x, z);
      SliceBlock(regions, x, y, z) == Some("stone") && ColumnBlock(regions, x, y, z) == Some("sand")
  {
    var chunk := Halves(heights, i);
    assert chunk[i].y == y / 16 && chunk[j].y == y / 16;
    FirstFound(chunk, y / 16);
    LastFound(chunk, y / 16);
    assert ChunkAt(Saved(chunk, x, z), x / 16, z / 16) == Some(chunk);
  }

  /** Whatever the sections of a chunk hold, the readers agree about a height:
      that is so exactly for the chunks with at most one section there. */
  lemma ReadersAgreeExactly(heights: seq<int>, x: int, y: int, z: int)
    ensures Sole(heights, y / 16) <==>
      forall regions :: (var chunk := ChunkAt(regions, x / 16, z / 16); chunk.Some? && Heights(chunk.value) == heights) ==>
        Agree(regions, x, y, z)
  {
    hide SliceBlock, ColumnBlock;
    if Sole(heights, y / 16) {
      forall regions | var chunk := ChunkAt(regions, x / 16, z / 16); chunk.Some? && Heights(chunk.value) == heights
        ensures Agree(regions, x, y, z)
      {
        ReadersAgree(regions, x, y, z);
      }
    } else {
      var i, j :| 0 <= i < j < |heights| && heights[i] == y / 16 && heights[j] == y / 16;
      DoubledSection(heights, i, j, x, y, z);
      var regions := Saved(Halves(heights, i), x, z);
      assert ChunkAt(regions, x / 16, z / 16) == Some(Halves(heights, i));
      assert "stone"[1] == 't' && "sand"[1] == 'a';
      assert !Agree(regions, x, y, z);
    }
  }

  // ----- the column reader ----------------------------------------------------

  /** A section of the chunk at a wanted height cannot be decoded. */
  ghost predicate Unreadable(chunk: Chunk, ys: seq<int>) {
    exists s, y :: s in chunk && y in ys && s.y == y / 16 && Decode(s.palette, s.data).None?
  }

  /** Read one column.  None is an error in decoding a section it reads. */
  method BlockColumn(regions: seq<Region>, x: int, z: int, ys: seq<int>) returns (column: Option<map<int, string>>)
    requires Files(regions)
    ensures column.Some? ==>
      (forall y :: y in column.value <==> y in ys)
      && forall y :: y in ys ==> ColumnBlock(regions, x, y, z) == Some(column.value[y])
    ensures column.None? <==>
      var chunk := ChunkAt(regions, x / 16, z / 16);
      chunk.Some? && Unreadable(chunk.value, ys)
  {
    hide SlotOf, Decode;
    var cx, cz := x / 16, z / 16;
    var sections: map<int, seq<string>> := map[];
    var found := FindFile(regions, cx / 32, cz / 32);
    if found.Some? {
      ChunkAtIs(regions, found.value, cx, cz);
      var slots := regions[found.value].slots;
      if SlotOf(cx, cz) in slots {
        var read := ReadSections(slots[SlotOf(cx, cz)], ys);
        if read.None? {
          return None;
        }
        sections := read.value;
      }
    } else {
      ChunkNowhere(regions, cx, cz);
    }
    column := Some(map y | y in ys :: if y / 16 in sections then sections[y / 16][CellOf(x, y, z)] else NOT_SAVED);
  }

  method FindFile(regions: seq<Region>, rx: int, rz: int) returns (found: Option<nat>)
    ensures found.Some? ==> found.value < |regions| && regions[found.value].rx == rx && regions[found.value].rz == rz
    ensures found.None? ==> forall a :: 0 <= a < |regions| ==> (regions[a].rx, regions[a].rz) != (rx, rz)
  {
    for a := 0 to |regions|
      invariant forall b :: 0 <= b < a ==> (regions[b].rx, regions[b].rz) != (rx, rz)
    {
      if regions[a].rx == rx && regions[a].rz == rz {
        return Some(a);
      }
    }
    found := None;
  }

  /** The sections wanted, by height: the last of each. */
  method ReadSections(chunk: Chunk, ys: seq<int>) returns (sections: Option<map<int, seq<string>>>)
    ensures sections.Some? ==> forall y :: y in ys ==>
      var s := LastAt(chunk, y / 16);
      (y / 16 in sections.value <==> s.Some?)
      && (s.Some? ==> Decode(s.value.palette, s.value.data) == Some(sections.value[y / 16]))
    ensures sections.None? <==> Unreadable(chunk, ys)
  {
    hide Decode;
    var read: map<int, seq<string>> := map[];
    var want := set y | y in ys :: y / 16;
    for i := 0 to |chunk|
      invariant forall h :: h in want ==>
        var s := LastAt(chunk[..i], h);
        (h in read <==> s.Some?) && (s.Some? ==> Decode(s.value.palette, s.value.data) == Some(read[h]))
      invariant forall j :: 0 <= j < i && chunk[j].y in want ==> Decode(chunk[j].palette, chunk[j].data).Some?
    {
      assert chunk[..i + 1][..i] == chunk[..i];
      if chunk[i].y in want {
        var blocks := SectionBlocks(chunk[i].palette, chunk[i].data);
        if blocks.None? {
          var y :| y in ys && y / 16 == chunk[i].y;
          assert chunk[i] in chunk;
          return None;
        }
        read := read[chunk[i].y := blocks.value];
      }
    }
    assert chunk[..|chunk|] == chunk;
    sections := Some(read);
  }

  // ----- the slice reader -----------------------------------------------------

  function Has(out: map<Cell, string>, x: int, z: int): Option<string> {
    if Cell(x, z) in out then Some(out[Cell(x, z)]) else None
  }

  predicate InFile(r: Region, x: int, z: int) {
    r.rx == x / 16 / 32 && r.rz == z / 16 / 32
  }

  /** The block at (x, y, z), read from a slot of a region. */
  function SlotBlock(r: Region, i: int, x: int, y: int, z: int): Option<string> {
    if i !in r.slots then None
    else
      var section := FirstAt(r.slots[i], y / 16);
      if section.None? then None
      else
        var blocks := Decode(section.value.palette, section.value.data);
        if blocks.None? then None else Some(blocks.value[CellOf(x, y, z)])
  }

  lemma SliceOfLast(front: seq<Region>, r: Region, x: int, y: int, z: int)
    requires Files(front + [r])
    ensures SliceBlock(front + [r], x, y, z) ==
      if InFile(r, x, z) then SlotBlock(r, SlotOf(x / 16, z / 16), x, y, z) else SliceBlock(front, x, y, z)
    ensures InFile(r, x, z) ==> SliceBlock(front, x, y, z) == None
  {
    var all := front + [r];
    assert all[|front|] == r;
    assert forall a :: 0 <= a < |front| ==> all[a] == front[a];
    if InFile(r, x, z) {
      ChunkAtIs(all, |front|, x / 16, z / 16);
      ChunkNowhere(front, x / 16, z / 16);
    } else {
      ChunkAtSkips(front, r, x / 16, z / 16);
    }
  }

  lemma {:induction false} ChunkAtSkips(front: seq<Region>, r: Region, cx: int, cz: int)
    requires (r.rx, r.rz) != (cx / 32, cz / 32)
    ensures ChunkAt(front + [r], cx, cz) == ChunkAt(front, cx, cz)
  {
    if front == [] {
      assert [r][1..] == [] && front + [r] == [r];
    } else {
      ChunkAtSkips(front[1..], r, cx, cz);
      assert (front + [r])[1..] == front[1..] + [r];
    }
  }

  /** The section a slice reads of some chunk of the file cannot be decoded. */
  ghost predicate FileUnreadable(r: Region, y: int) {
    exists i :: 0 <= i < 1024 && SlotUnreadable(r, i, y)
  }

  predicate SlotUnreadable(r: Region, i: int, y: int) {
    i in r.slots
    && var s := FirstAt(r.slots[i], y / 16);
    s.Some? && Decode(s.value.palette, s.value.data).None?
  }

  lemma NothingSaved(x: int, y: int, z: int)
    ensures SliceBlock([], x, y, z) == None
  {
  }

  /** Read one horizontal slice of every chunk.  None is an error in decoding. */
  method BlocksAtY(regions: seq<Region>, y: int) returns (slice: Option<map<Cell, string>>)
    requires Files(regions)
    ensures slice.Some? ==> forall x, z :: Has(slice.value, x, z) == SliceBlock(regions, x, y, z)
    ensures slice.None? <==> exists a :: 0 <= a < |regions| && FileUnreadable(regions[a], y)
  {
    hide SliceBlock, SlotBlock, InFile, SlotOf, FileUnreadable;
    var out: map<Cell, string> := map[];
    forall x, z ensures SliceBlock(regions[..0], x, y, z) == None {
      NothingSaved(x, y, z);
    }
    for a := 0 to |regions|
      invariant forall x, z :: Has(out, x, z) == SliceBlock(regions[..a], x, y, z)
      invariant forall b :: 0 <= b < a ==> !FileUnreadable(regions[b], y)
    {
      assert regions[..a + 1] == regions[..a] + [regions[a]];
      var more := ReadFile(out, regions[a], y);
      if more.None? {
        return None;
      }
      forall x, z ensures Has(more.value, x, z) == SliceBlock(regions[..a + 1], x, y, z) {
        SliceOfLast(regions[..a], regions[a], x, y, z);
        SlotInFile(x, z);
      }
      out := more.value;
    }
    assert regions[..|regions|] == regions;
    slice := Some(out);
  }

  /** Read the slice of one region file. */
  method ReadFile(out: map<Cell, string>, r: Region, y: int) returns (more: Option<map<Cell, string>>)
    ensures more.Some? ==> forall x, z :: Has(more.value, x, z) == Over(out, r, 1024, x, y, z)
    ensures more.None? <==> FileUnreadable(r, y)
  {
    hide SlotBlock, InFile, SlotOf, Decode, FirstAt, SlotUnreadable;
    var cur := out;
    forall x, z ensures Has(cur, x, z) == Over(out, r, 0, x, y, z) {
      SlotInFile(x, z);
    }
    for i := 0 to 1024
      invariant forall x, z :: Has(cur, x, z) == Over(out, r, i, x, y, z)
      invariant forall j :: 0 <= j < i ==> !SlotUnreadable(r, j, y)
    {
      var next := ReadSlot(cur, r, i, y);
      if next.None? {
        return None;
      }
      forall x, z ensures Has(next.value, x, z) == Over(out, r, i + 1, x, y, z) {
        OverStep(out, r, i, x, y, z);
      }
      cur := next.value;
    }
    more := Some(cur);
  }

  lemma SlotInFile(x: int, z: int)
    ensures 0 <= SlotOf(x / 16, z / 16) < 1024
  {
  }

  /** The slice after the first `i` slots of a file were laid over `out`. */
  function Over(out: map<Cell, string>, r: Region, i: int, x: int, y: int, z: int): Option<string> {
    var slot := SlotOf(x / 16, z / 16);
    if InFile(r, x, z) && slot < i && SlotBlock(r, slot, x, y, z).Some? then SlotBlock(r, slot, x, y, z) else Has(out, x, z)
  }

  predicate IsIn(r: Region, i: int, x: int, z: int) {
    x / 16 == ChunkX(r.rx, i) && z / 16 == ChunkZ(r.rz, i)
  }

  lemma OverStep(out: map<Cell, string>, r: Region, i: int, x: int, y: int, z: int)
    requires 0 <= i < 1024
    ensures Over(out, r, i + 1, x, y, z) ==
      if IsIn(r, i, x, z) && SlotBlock(r, i, x, y, z).Some? then SlotBlock(r, i, x, y, z) else Over(out, r, i, x, y, z)
  {
    hide SlotBlock;
    SlotIsChunk(x / 16, z / 16, r.rx, r.rz, i);
    SlotInFile(x, z);
  }

  method ReadSlot(out: map<Cell, string>, r: Region, i: int, y: int) returns (more: Option<map<Cell, string>>)
    requires 0 <= i < 1024
    ensures more.None? <==> SlotUnreadable(r, i, y)
    ensures more.Some? ==> forall x, z ::
      Has(more.value, x, z) == if IsIn(r, i, x, z) && SlotBlock(r, i, x, y, z).Some? then SlotBlock(r, i, x, y, z) else Has(out, x, z)
  {
    hide Decode, FirstAt, ChunkX, ChunkZ;
    if i !in r.slots {
      return Some(out);
    }
    var section := FindSection(r.slots[i], y / 16);
    if section.None? {
      return Some(out);
    }
    var blocks := SectionBlocks(section.value.palette, section.value.data);
    if blocks.None? {
      return None;
    }
    var filled := FillChunk(out, ChunkX(r.rx, i), ChunkZ(r.rz, i), y, blocks.value);
    more := Some(filled);
  }

  method FindSection(chunk: Chunk, y: int) returns (section: Option<Section>)
    ensures section == FirstAt(chunk, y)
  {
    for i := 0 to |chunk|
      invariant FirstAt(chunk, y) == FirstAt(chunk[i..], y)
    {
      assert chunk[i..][1..] == chunk[i + 1..];
      if chunk[i].y == y {
        return Some(chunk[i]);
      }
    }
    section := None;
  }

  /** Add the 256 columns of a chunk. */
  method FillChunk(out: map<Cell, string>, cx: int, cz: int, y: int, blocks: seq<string>)
    returns (more: map<Cell, string>)
    requires |blocks| == SECTION
    ensures forall x, z ::
      Has(more, x, z) == if x / 16 == cx && z / 16 == cz then Some(blocks[CellOf(x, y, z)]) else Has(out, x, z)
  {
    more := out;
    for i := 0 to 256
      invariant forall x, z :: Has(more, x, z) == Filled(out, cx, cz, y, blocks, i, x, z)
    {
      FillStep(more, out, cx, cz, y, blocks, i);
      more := more[Cell(cx * 16 + i % 16, cz * 16 + i / 16) := blocks[(y % 16) * 256 + i]];
    }
  }

  lemma FillStep(more: map<Cell, string>, out: map<Cell, string>, cx: int, cz: int, y: int, blocks: seq<string>, i: int)
    requires |blocks| == SECTION && 0 <= i < 256
    requires forall x, z :: Has(more, x, z) == Filled(out, cx, cz, y, blocks, i, x, z)
    ensures
      var next := more[Cell(cx * 16 + i % 16, cz * 16 + i / 16) := blocks[(y % 16) * 256 + i]];
      forall x, z :: Has(next, x, z) == Filled(out, cx, cz, y, blocks, i + 1, x, z)
  {
    var next := more[Cell(cx * 16 + i % 16, cz * 16 + i / 16) := blocks[(y % 16) * 256 + i]];
    forall x, z ensures Has(next, x, z) == Filled(out, cx, cz, y, blocks, i + 1, x, z) {
      CellOfChunk(cx, cz, i, x, z);
      assert Has(more, x, z) == Filled(out, cx, cz, y, blocks, i, x, z);
    }
  }

  function Filled(out: map<Cell, string>, cx: int, cz: int, y: int, blocks: seq<string>, i: int, x: int, z: int): Option<string>
    requires |blocks| == SECTION
  {
    if x / 16 == cx && z / 16 == cz && (z % 16) * 16 + x % 16 < i then Some(blocks[CellOf(x, y, z)]) else Has(out, x, z)
  }

  lemma CellOfChunk(cx: int, cz: int, i: int, x: int, z: int)
    requires 0 <= i < 256
    ensures (x == cx * 16 + i % 16 && z == cz * 16 + i / 16) <==>
      (x / 16 == cx && z / 16 == cz && (z % 16) * 16 + x % 16 == i)
  {
    assert x == 16 * (x / 16) + x % 16 && z == 16 * (z / 16) + z % 16 && i == 16 * (i / 16) + i % 16;
  }
}
