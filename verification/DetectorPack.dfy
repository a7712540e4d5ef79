// The generated datapack (run.py, detector_pack): the load, tick, gate, check and
// hit functions of a list of detectors, and each detector's check lines.

module DetectorPack {
  import opened Options
  import opened Mcfunction
  import opened Patterns
  import opened PatternPack

  datatype Kind =
    | Idle
    | Custom
    | ColumnStack(stack: Area, base: int, height: int)
    | PatternScan(pattern: Pattern, area: Area, low: int, levels: int)

  datatype Detector = Detector(name: string, kind: Kind, needs: seq<string>)

  datatype PackError = DuplicateNames | CustomCombined | UnknownRequired(detector: string)

  datatype Result<+T> = Ok(value: T) | Err(error: PackError)

  type Pack = map<string, seq<Command>>

  // ----- names ----------------------------------------------------------------

  function HitOf(name: string): string { "#hit_" + name }
  function GametimeOf(name: string): string { "#gt_" + name }
  function ValueOf(name: string): string { "#val_" + name }
  function ThresholdOf(name: string): string { "#th_" + name }
  function CounterOf(name: string): string { Truncate("#c_" + name) }

  function Armed(): string { "#armed" }
  function TickCount(): string { "#tick" }
  function LoadedFlag(): string { "#loaded" }
  function AnyHit(): string { "#hit" }
  function FirstHit(): string { "#hitgt" }

  function HitFn(name: string): string { "detmc:hit_" + name }
  function CheckFn(name: string): string { "detmc:check_" + name }
  function CountFn(name: string): string { "detmc:count_" + name }

  const MAX_INT: int := 2147483647
  const MIN_INT: int := -2147483648

  /** `matches v` */
  function Exactly(v: int): Range { Range(Some(v), Some(v)) }

  /** `matches v..` */
  function AtLeast(v: int): Range { Range(Some(v), None) }

  // ----- the functions --------------------------------------------------------

  function HitLines(name: string): seq<Command> {
    [SetScore(HitOf(name), 1),
     StoreGametime(GametimeOf(name)),
     Execute([Check(IfScore(AnyHit(), Exactly(0)))], StoreGametime(FirstHit())),
     SetScore(AnyHit(), 1)]
  }

  function ResetLines(name: string): seq<Command> {
    [SetScore(HitOf(name), 0), SetScore(GametimeOf(name), -1),
     SetScore(ValueOf(name), 0), SetScore(ThresholdOf(name), MAX_INT)]
  }

  function ResetAll(dets: seq<Detector>): seq<Command> {
    if dets == [] then [] else ResetLines(dets[0].name) + ResetAll(dets[1..])
  }

  /** The load function: everything is reset except `#armed`, which is only given
      a value when it has none. */
  function LoadHead(): seq<Command> {
    [Comment,
     AddObjective,
     SetScore(AnyHit(), 0),
     SetScore(FirstHit(), -1),
     Execute([Check(UnlessScore(Armed(), AtLeast(MIN_INT)))], SetScore(Armed(), 0)),
     SetScore(TickCount(), 0),
     SetScore(LoadedFlag(), 1)]
  }

  function LoadLines(dets: seq<Detector>): seq<Command> {
    LoadHead() + ResetAll(dets)
  }

  function NeedTests(needs: seq<string>): seq<Modifier> {
    if needs == [] then [] else [Check(IfScore(HitOf(needs[0]), Exactly(1)))] + NeedTests(needs[1..])
  }

  /** The line of the check function that runs one detector's own check. */
  function GateLine(d: Detector): Command {
    Execute([Check(IfScore(HitOf(d.name), Exactly(0)))] + NeedTests(d.needs), Call(CheckFn(d.name)))
  }

  function CheckAllLines(dets: seq<Detector>): seq<Command> {
    if dets == [] then [] else [GateLine(dets[0])] + CheckAllLines(dets[1..])
  }

  function TickLines(every: int): seq<Command> {
    if every > 1 then
      [AddScore(TickCount(), 1),
       Execute([Check(IfScore(Armed(), Exactly(1))), Check(IfScore(TickCount(), AtLeast(every)))], Call("detmc:gate"))]
    else
      [Execute([Check(IfScore(Armed(), Exactly(1)))], Call("detmc:check"))]
  }

  function GateLines(): seq<Command> {
    [SetScore(TickCount(), 0), Call("detmc:check")]
  }

  // ----- one detector's check -------------------------------------------------

  function SolidFrom(x: int, y: int, z: int, n: int): seq<Modifier>
    decreases Max(n, 0)
  {
    if n <= 0 then []
    else [Check(UnlessAir(Place(Abs(x), Abs(y), Abs(z))))] + SolidFrom(x, y + 1, z, n - 1)
  }

  function ColumnLine(name: string, w: Window, height: int): Command {
    Execute([Check(IfScore(HitOf(name), Exactly(0)))] + SolidFrom(w.x, w.y, w.z, height), Call(HitFn(name)))
  }

  function ColumnLines(name: string, ws: seq<Window>, height: int): seq<Command> {
    if ws == [] then [] else [ColumnLine(name, ws[0], height)] + ColumnLines(name, ws[1..], height)
  }

  /** Columns are scanned in the order of windows one cell wide. */
  function Columns(a: Area, base: int): seq<Window> {
    Windows(a, 1, [base])
  }

  function ScanLevels(low: int, levels: int): (ys: seq<int>)
    ensures forall y :: y in ys <==> low <= y < low + levels
    decreases Max(levels, 0)
  {
    if levels <= 0 then [] else [low] + ScanLevels(low + 1, levels - 1)
  }

  /** The commands a detector's check function must hold. */
  function Body(d: Detector): seq<Command>
    requires d.kind.ColumnStack? || d.kind.PatternScan?
  {
    match d.kind
    case ColumnStack(a, base, height) => [Comment] + ColumnLines(d.name, Columns(a, base), height)
    case PatternScan(p, a, low, levels) =>
      [Comment] + WindowLines(p, Windows(a, p.size, ScanLevels(low, levels)), HitOf(d.name), CountFn(d.name))
  }

  lemma {:induction false} ColumnLinesExtend(name: string, ws: seq<Window>, w: Window, height: int)
    ensures ColumnLines(name, ws + [w], height) == ColumnLines(name, ws, height) + [ColumnLine(name, w, height)]
  {
    if ws == [] {
      assert (ws + [w])[1..] == [];
    } else {
      assert (ws + [w])[0] == ws[0] && (ws + [w])[1..] == ws[1..] + [w];
      ColumnLinesExtend(name, ws[1..], w, height);
    }
  }

  lemma ColumnLinesNone(name: string, height: int)
    ensures ColumnLines(name, [], height) == []
  {
  }

  lemma ColumnsUnfold(a: Area, base: int)
    ensures Columns(a, base) == WindowsFrom(a, 1, base, Min(a.x1, a.x2), Min(a.z1, a.z2))
  {
    var row := WindowsFrom(a, 1, base, Min(a.x1, a.x2), Min(a.z1, a.z2));
    assert [base][1..] == [];
    assert Windows(a, 1, []) == [];
    assert Columns(a, base) == row + [];
  }

  method ColumnBody(name: string, a: Area, base: int, height: int) returns (lines: seq<Command>)
    ensures lines == [Comment] + ColumnLines(name, Columns(a, base), height)
  {
    hide Min, Max, ColumnLine, ColumnLines, WindowsFrom, Columns, Windows;
    ColumnLinesNone(name, height);
    ColumnsUnfold(a, base);
    var xa, xb := Min(a.x1, a.x2), Max(a.x1, a.x2);
    var za, zb := Min(a.z1, a.z2), Max(a.z1, a.z2);
    lines := [Comment];
    ghost var done: seq<Window> := [];
    var x := xa;
    assert done + WindowsFrom(a, 1, base, x, za) == Columns(a, base);
    while x < xb + 1
      invariant done + WindowsFrom(a, 1, base, x, za) == Columns(a, base)
      invariant lines == [Comment] + ColumnLines(name, done, height)
    {
      var z := za;
      while z < zb + 1
        invariant done + WindowsFrom(a, 1, base, x, z) == Columns(a, base)
        invariant lines == [Comment] + ColumnLines(name, done, height)
      {
        var w := Window(x, base, z);
        WindowsFromUnfold(a, 1, base, x, z);
        ColumnLinesExtend(name, done, w, height);
        lines := lines + [ColumnLine(name, w, height)];
        done := done + [w];
        z := z + 1;
      }
      WindowsFromUnfold(a, 1, base, x, z);
      x := x + 1;
    }
    WindowsFromUnfold(a, 1, base, x, za);
    assert done + [] == done;
  }

  // ----- the pack -------------------------------------------------------------

  predicate DistinctNames(dets: seq<Detector>) {
    forall i, j :: 0 <= i < j < |dets| ==> dets[i].name != dets[j].name
  }

  function Names(dets: seq<Detector>): set<string> {
    set d | d in dets :: d.name
  }

  predicate NeedsKnown(d: Detector, dets: seq<Detector>) {
    forall r :: r in d.needs ==> r in Names(dets)
  }

  /** Detectors a pack can be generated for. */
  predicate Sound(dets: seq<Detector>) {
    && DistinctNames(dets)
    && forall d :: d in dets ==> (d.kind.ColumnStack? || d.kind.PatternScan?) && NeedsKnown(d, dets)
  }

  /** The function files one detector has in the pack. */
  predicate HoldsFilesOf(pack: Pack, d: Detector)
    requires d.kind.ColumnStack? || d.kind.PatternScan?
  {
    && CheckFn(d.name) in pack && pack[CheckFn(d.name)] == Body(d)
    && HitFn(d.name) in pack && pack[HitFn(d.name)] == HitLines(d.name)
    && (d.kind.PatternScan? ==>
        CountFn(d.name) in pack
        && pack[CountFn(d.name)] ==
          SecondStage(d.kind.pattern, HitFn(d.name), CounterOf(d.name), RestCounter(CounterOf(d.name))))
  }

  predicate PackFor(pack: Pack, dets: seq<Detector>, every: int)
    requires Sound(dets)
  {
    && "detmc:load" in pack && pack["detmc:load"] == LoadLines(dets)
    && "detmc:tick" in pack && pack["detmc:tick"] == TickLines(every)
    && "detmc:check" in pack && pack["detmc:check"] == CheckAllLines(dets)
    && (every > 1 ==> "detmc:gate" in pack && pack["detmc:gate"] == GateLines())
    && forall d :: d in dets ==> HoldsFilesOf(pack, d)
  }

  /** The detectors that are not switched off. */
  function Watching(dets: seq<Detector>): (w: seq<Detector>)
    ensures forall d :: d in w <==> d in dets && !d.kind.Idle?
    ensures DistinctNames(dets) ==> DistinctNames(w)
  {
    if dets == [] then []
    else
      var rest := Watching(dets[1..]);
      assert DistinctNames(dets) ==> DistinctNames(dets[1..]);
      assert DistinctNames(dets) ==> forall d :: d in dets[1..] ==> d.name != dets[0].name;
      if dets[0].kind.Idle? then rest else [dets[0]] + rest
  }

  lemma FileNames()
    ensures forall a: string, b: string {:trigger CheckFn(a), CheckFn(b)} :: CheckFn(a) == CheckFn(b) ==> a == b
    ensures forall a: string, b: string {:trigger HitFn(a), HitFn(b)} :: HitFn(a) == HitFn(b) ==> a == b
    ensures forall a: string, b: string {:trigger CountFn(a), CountFn(b)} :: CountFn(a) == CountFn(b) ==> a == b
    ensures forall a: string, b: string {:trigger CheckFn(a), HitFn(b)} :: CheckFn(a) != HitFn(b)
    ensures forall a: string, b: string {:trigger CheckFn(a), CountFn(b)} :: CheckFn(a) != CountFn(b)
    ensures forall a: string, b: string {:trigger HitFn(a), CountFn(b)} :: HitFn(a) != CountFn(b)
    ensures forall a: string {:trigger CheckFn(a)} :: CheckFn(a) !in FIXED_FILES
    ensures forall a: string {:trigger HitFn(a)} :: HitFn(a) !in FIXED_FILES
    ensures forall a: string {:trigger CountFn(a)} :: CountFn(a) !in FIXED_FILES
  {
    forall a: string ensures CheckFn(a)[12..] == a && CheckFn(a)[6..9] == "che" && |CheckFn(a)| >= 12 {
    }
    forall a: string ensures HitFn(a)[10..] == a && HitFn(a)[6..9] == "hit" {
    }
    forall a: string ensures CountFn(a)[12..] == a && CountFn(a)[6..9] == "cou" {
    }
    assert "detmc:load"[6..9] == "loa" && "detmc:tick"[6..9] == "tic" && "detmc:gate"[6..9] == "gat";
    assert "detmc:check"[6..9] == "che" && |"detmc:check"| == 11;
    assert "che"[0] == 'c' && "hit"[0] == 'h' && "cou"[0] == 'c' && "che"[1] == 'h' && "cou"[1] == 'o';
    assert "loa"[0] == 'l' && "tic"[0] == 't' && "gat"[0] == 'g';
  }

  const FIXED_FILES: set<string> := {"detmc:load", "detmc:tick", "detmc:check", "detmc:gate"}

  lemma ResetAllExtend(dets: seq<Detector>, i: nat)
    requires i < |dets|
    ensures ResetAll(dets[..i + 1]) == ResetAll(dets[..i]) + ResetLines(dets[i].name)
    decreases i
  {
    hide ResetLines;
    assert dets[..i + 1][1..] == dets[1..][..i];
    if i > 0 {
      assert dets[..i][1..] == dets[1..][..i - 1];
      ResetAllExtend(dets[1..], i - 1);
    }
  }

  lemma CheckAllExtend(dets: seq<Detector>, i: nat)
    requires i < |dets|
    ensures CheckAllLines(dets[..i + 1]) == CheckAllLines(dets[..i]) + [GateLine(dets[i])]
    decreases i
  {
    hide GateLine;
    assert dets[..i + 1][1..] == dets[1..][..i];
    if i > 0 {
      assert dets[..i][1..] == dets[1..][..i - 1];
      CheckAllExtend(dets[1..], i - 1);
    }
  }

  /** A detector's check lines, and its counting function when it is a pattern. */
  method CheckBody(d: Detector, files: Pack) returns (lines: seq<Command>, more: Pack)
    requires d.kind.ColumnStack? || d.kind.PatternScan?
    ensures lines == Body(d)
    ensures d.kind.ColumnStack? ==> more == files
    ensures d.kind.PatternScan? ==>
      more == files[CountFn(d.name) :=
        SecondStage(d.kind.pattern, HitFn(d.name), CounterOf(d.name), RestCounter(CounterOf(d.name)))]
  {
    hide Columns, ColumnLines, WindowLines, Windows, SecondStage, RestCounter, Truncate;
    match d.kind
    case ColumnStack(a, base, height) =>
      lines := ColumnBody(d.name, a, base, height);
      more := files;
    case PatternScan(p, a, low, levels) =>
      assert "#c_" + d.name != "";
      var count := CountFunction(p, HitFn(d.name), Some("#c_" + d.name));
      more := files[CountFn(d.name) := count];
      lines := CheckLines(p, a, ScanLevels(low, levels), HitOf(d.name), CountFn(d.name));
  }

  /** A detector's files, put into a pack. */
  function WithFiles(files: Pack, d: Detector): (more: Pack)
    requires d.kind.ColumnStack? || d.kind.PatternScan?
  {
    var counted :=
      if d.kind.PatternScan? then
        files[CountFn(d.name) :=
          SecondStage(d.kind.pattern, HitFn(d.name), CounterOf(d.name), RestCounter(CounterOf(d.name)))]
      else files;
    counted[CheckFn(d.name) := Body(d)][HitFn(d.name) := HitLines(d.name)]
  }

  lemma FilesAdded(files: Pack, d: Detector, e: Detector)
    requires (d.kind.ColumnStack? || d.kind.PatternScan?) && (e.kind.ColumnStack? || e.kind.PatternScan?)
    requires e == d || (e.name != d.name && HoldsFilesOf(files, e))
    ensures HoldsFilesOf(WithFiles(files, d), e)
  {
    FileNames();
    hide Body, HitLines, SecondStage, HitFn, CheckFn, CountFn, CounterOf, RestCounter;
  }

  lemma FixedFilesAdded(files: Pack, name: string, lines: seq<Command>, e: Detector)
    requires (e.kind.ColumnStack? || e.kind.PatternScan?) && HoldsFilesOf(files, e) && name in FIXED_FILES
    ensures HoldsFilesOf(files[name := lines], e)
  {
    FileNames();
    hide Body, HitLines, SecondStage, HitFn, CheckFn, CountFn, CounterOf, RestCounter;
  }

  /** Why a list of detectors has no pack, in the order the generator notices. */
  ghost predicate Refused(dets: seq<Detector>, e: PackError) {
    match e
    case DuplicateNames => !DistinctNames(dets)
    case CustomCombined => DistinctNames(dets) && |dets| > 1 && exists d :: d in dets && d.kind.Custom?
    case UnknownRequired(n) =>
      DistinctNames(dets) && (forall d :: d in dets ==> !d.kind.Custom?) && FirstUnknown(Watching(dets), n)
  }

  predicate FirstUnknownAt(dets: seq<Detector>, i: nat)
    requires i < |dets|
  {
    !NeedsKnown(dets[i], dets) && forall j :: 0 <= j < i ==> NeedsKnown(dets[j], dets)
  }

  ghost predicate FirstUnknown(dets: seq<Detector>, n: string) {
    exists i :: 0 <= i < |dets| && FirstUnknownAt(dets, i) && dets[i].name == n
  }

  method HasDuplicates(dets: seq<Detector>) returns (dup: bool)
    ensures dup <==> !DistinctNames(dets)
  {
    var seen: set<string> := {};
    for i := 0 to |dets|
      invariant forall n :: n in seen <==> exists k :: 0 <= k < i && dets[k].name == n
      invariant forall a, b :: 0 <= a < b < i ==> dets[a].name != dets[b].name
    {
      if dets[i].name in seen {
        return true;
      }
      seen := seen + {dets[i].name};
    }
    return false;
  }

  /** Generate the pack: refused lists are reported, lists with nothing to watch
      have none, and every other list gets every function it needs. */
  method GeneratePack(dets: seq<Detector>, every: int) returns (r: Result<Option<Pack>>)
    ensures r.Err? ==> Refused(dets, r.error)
    ensures r.Ok? ==> DistinctNames(dets)
    ensures r.Ok? && r.value.None? ==>
      Watching(dets) == [] || exists d :: d in dets && d.kind.Custom? && dets == [d]
    ensures r.Ok? && r.value.Some? ==>
      Watching(dets) != [] && Sound(Watching(dets)) && PackFor(r.value.value, Watching(dets), every)
  {
    var dup := HasDuplicates(dets);
    if dup {
      return Err(DuplicateNames);
    }
    if exists d :: d in dets && d.kind.Custom? {
      if |dets| > 1 {
        return Err(CustomCombined);
      }
      assert dets == [dets[0]];
      return Ok(None);
    }
    var watched := Watching(dets);
    if watched == [] {
      return Ok(None);
    }
    r := PackWatched(watched, every);
  }

  /** The generator's loop over the detectors that watch something. */
  method PackWatched(dets: seq<Detector>, every: int) returns (r: Result<Option<Pack>>)
    requires DistinctNames(dets) && forall d :: d in dets ==> d.kind.ColumnStack? || d.kind.PatternScan?
    ensures r.Err? ==> r.error.UnknownRequired? && FirstUnknown(dets, r.error.detector)
    ensures r.Ok? ==> r.value.Some? && Sound(dets) && PackFor(r.value.value, dets, every)
  {
    hide HoldsFilesOf, Body, HitLines, SecondStage, ResetLines, GateLine, LoadHead, RestCounter;
    var load, check := LoadHead(), [];
    var files: Pack := map[];
    for i := 0 to |dets|
      invariant load == LoadHead() + ResetAll(dets[..i])
      invariant check == CheckAllLines(dets[..i])
      invariant forall j :: 0 <= j < i ==> HoldsFilesOf(files, dets[j]) && NeedsKnown(dets[j], dets)
    {
      var d := dets[i];
      ResetAllExtend(dets, i);
      CheckAllExtend(dets, i);
      load := load + ResetLines(d.name);
      if !NeedsKnown(d, dets) {
        assert FirstUnknownAt(dets, i);
        return Err(UnknownRequired(d.name));
      }
      check := check + [GateLine(d)];
      forall j | 0 <= j <= i ensures HoldsFilesOf(WithFiles(files, d), dets[j]) {
        FilesAdded(files, d, dets[j]);
      }
      var lines, more := CheckBody(d, files);
      files := more[CheckFn(d.name) := lines];
      files := files[HitFn(d.name) := HitLines(d.name)];
    }
    assert dets[..|dets|] == dets;
    files := SharedFiles(dets, every, files, load, check);
    r := Ok(Some(files));
  }

  /** The files that do not belong to one detector are added last. */
  method SharedFiles(dets: seq<Detector>, every: int, files: Pack, load: seq<Command>, check: seq<Command>)
    returns (pack: Pack)
    requires Sound(dets) && forall d :: d in dets ==> HoldsFilesOf(files, d)
    requires load == LoadLines(dets) && check == CheckAllLines(dets)
    ensures PackFor(pack, dets, every)
    ensures pack.Keys == files.Keys + {"detmc:load", "detmc:tick", "detmc:check"} + if every > 1 then {"detmc:gate"} else {}
  {
    hide HoldsFilesOf, LoadLines, CheckAllLines, TickLines, GateLines;
    assert "detmc:gate" != "detmc:load" && "detmc:gate" != "detmc:tick" && "detmc:load" != "detmc:tick" by {
      assert "detmc:gate"[6] == 'g' && "detmc:load"[6] == 'l' && "detmc:tick"[6] == 't';
    }
    assert |"detmc:check"| == 11 && |"detmc:gate"| == 10 && |"detmc:load"| == 10 && |"detmc:tick"| == 10;
    pack := files;
    if every > 1 {
      pack := WithShared(dets, pack, "detmc:gate", GateLines());
    }
    pack := WithShared(dets, pack, "detmc:load", load);
    pack := WithShared(dets, pack, "detmc:tick", TickLines(every));
    pack := WithShared(dets, pack, "detmc:check", check);
  }

  method WithShared(dets: seq<Detector>, files: Pack, name: string, lines: seq<Command>) returns (pack: Pack)
    requires Sound(dets) && (forall d :: d in dets ==> HoldsFilesOf(files, d)) && name in FIXED_FILES
    ensures pack == files[name := lines] && forall d :: d in dets ==> HoldsFilesOf(pack, d)
  {
    hide HoldsFilesOf;
    pack := files[name := lines];
    forall d | d in dets ensures HoldsFilesOf(pack, d) {
      FixedFilesAdded(files, name, lines, d);
    }
  }
}
