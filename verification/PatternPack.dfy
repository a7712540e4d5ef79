// The commands generated for a pattern (patterns.py): one line per window and
// level that tests the required cells, and one shared second stage that counts.

module PatternPack {
  import opened Options
  import opened Mcfunction
  import opened Patterns

  // ----- generated text -------------------------------------------------------

  /** "This column's top block is at the scan level", as a pair of tests. */
  function TopAt(dx: int, dy: int, dz: int): seq<Modifier> {
    [Check(UnlessAir(Place(Rel(dx), Rel(dy), Rel(dz)))),
     Check(IfAir(Place(Rel(dx), Rel(dy + 1), Rel(dz))))]
  }

  function TopAtAll(cells: seq<Cell>): seq<Modifier> {
    if cells == [] then [] else TopAt(cells[0].x, 0, cells[0].z) + TopAtAll(cells[1..])
  }

  /** One line that adds 1 to `holder` when the cell's column tops out at the level. */
  function CountLine(holder: string, c: Cell): Command {
    Execute(TopAt(c.x, 0, c.z), AddScore(holder, 1))
  }

  function CountLines(holder: string, cells: seq<Cell>): seq<Command> {
    if cells == [] then [] else [CountLine(holder, cells[0])] + CountLines(holder, cells[1..])
  }

  /** Scoreboard holder names are cut to 40 characters. */
  function Truncate(s: string): string {
    if |s| <= 40 then s else s[..40]
  }

  predicate StartsWith(s: string, prefix: string) {
    prefix <= s
  }

  /** The two counters of a second stage, from the holder asked for, if any. */
  function AnyCounter(name: string, counter: Option<string>): string {
    Truncate(if counter.Some? && counter.value != "" then counter.value else "#c_" + name)
  }

  function RestCounter(ctr: string): string {
    Truncate(if StartsWith(ctr, "#c_") then "#f_" + ctr[3..] else ctr + "_f")
  }

  function AnyStage(p: Pattern, ctr: string): seq<Command> {
    if p.anyOf == [] then [] else [SetScore(ctr, 0)] + CountLines(ctr, p.anyOf)
  }

  function RestStage(p: Pattern, ctrf: string): seq<Command> {
    if p.Forbidden() == [] then [] else [SetScore(ctrf, 0)] + CountLines(ctrf, p.Forbidden())
  }

  function FinalTests(p: Pattern, ctr: string, ctrf: string): seq<Modifier> {
    (if p.anyOf == [] then [] else [Check(IfScore(ctr, Range(Some(p.minAny), None)))])
    + (if p.Forbidden() == [] then [] else [Check(IfScore(ctrf, Range(None, Some(0))))])
  }

  function FinalLine(p: Pattern, hitFn: string, ctr: string, ctrf: string): Command {
    var tests := FinalTests(p, ctr, ctrf);
    if tests == [] then Call(hitFn) else Execute(tests, Call(hitFn))
  }

  /** The text of the shared second stage. */
  function SecondStage(p: Pattern, hitFn: string, ctr: string, ctrf: string): seq<Command> {
    [Comment] + AnyStage(p, ctr) + RestStage(p, ctrf) + [FinalLine(p, hitFn, ctr, ctrf)]
  }

  /** The line for one window at one level. */
  function WindowLine(p: Pattern, w: Window, hitFlag: string, countFn: string): Command {
    Execute([Check(IfScore(hitFlag, Range(Some(0), Some(0)))), Positioned(w.x, w.y, w.z)] + TopAtAll(p.required),
            Call(countFn))
  }

  function WindowLines(p: Pattern, ws: seq<Window>, hitFlag: string, countFn: string): seq<Command> {
    if ws == [] then [] else [WindowLine(p, ws[0], hitFlag, countFn)] + WindowLines(p, ws[1..], hitFlag, countFn)
  }

  lemma {:induction false} CountLinesExtend(holder: string, cells: seq<Cell>, i: nat)
    requires i < |cells|
    ensures CountLines(holder, cells[..i + 1]) == CountLines(holder, cells[..i]) + [CountLine(holder, cells[i])]
    decreases i
  {
    assert cells[..i + 1][1..] == cells[1..][..i];
    if i > 0 {
      assert cells[..i][1..] == cells[1..][..i - 1];
      CountLinesExtend(holder, cells[1..], i - 1);
    }
  }

  lemma {:induction false} WindowLinesExtend(p: Pattern, ws: seq<Window>, w: Window, hitFlag: string, countFn: string)
    ensures WindowLines(p, ws + [w], hitFlag, countFn) ==
      WindowLines(p, ws, hitFlag, countFn) + [WindowLine(p, w, hitFlag, countFn)]
  {
    if ws == [] {
      assert (ws + [w])[1..] == [];
    } else {
      assert (ws + [w])[0] == ws[0] && (ws + [w])[1..] == ws[1..] + [w];
      WindowLinesExtend(p, ws[1..], w, hitFlag, countFn);
    }
  }

  lemma WindowLinesNone(p: Pattern, hitFlag: string, countFn: string)
    ensures WindowLines(p, [], hitFlag, countFn) == []
  {
  }

  // ----- the windows of an area -----------------------------------------------

  /** The windows at level `y` from (x, z) on, row by row. */
  function WindowsFrom(a: Area, size: int, y: int, x: int, z: int): seq<Window>
    decreases Max(Max(a.x1, a.x2) - size + 2 - x, 0), Max(Max(a.z1, a.z2) - size + 2 - z, 0)
  {
    if x >= Max(a.x1, a.x2) - size + 2 then []
    else if z >= Max(a.z1, a.z2) - size + 2 then WindowsFrom(a, size, y, x + 1, Min(a.z1, a.z2))
    else [Window(x, y, z)] + WindowsFrom(a, size, y, x, z + 1)
  }

  /** All windows of an area, level by level. */
  function Windows(a: Area, size: int, levels: seq<int>): seq<Window> {
    if levels == [] then []
    else WindowsFrom(a, size, levels[0], Min(a.x1, a.x2), Min(a.z1, a.z2)) + Windows(a, size, levels[1..])
  }

  lemma WindowsFromUnfold(a: Area, size: int, y: int, x: int, z: int)
    ensures x >= Max(a.x1, a.x2) - size + 2 ==> WindowsFrom(a, size, y, x, z) == []
    ensures x < Max(a.x1, a.x2) - size + 2 && z >= Max(a.z1, a.z2) - size + 2 ==>
      WindowsFrom(a, size, y, x, z) == WindowsFrom(a, size, y, x + 1, Min(a.z1, a.z2))
    ensures x < Max(a.x1, a.x2) - size + 2 && z < Max(a.z1, a.z2) - size + 2 ==>
      WindowsFrom(a, size, y, x, z) == [Window(x, y, z)] + WindowsFrom(a, size, y, x, z + 1)
  {
  }

  lemma {:induction false} WindowsFromMembers(a: Area, size: int, y: int, x: int, z: int)
    requires x >= Min(a.x1, a.x2) && z >= Min(a.z1, a.z2)
    ensures forall w :: w in WindowsFrom(a, size, y, x, z) <==>
      InScan(a, size, w.x, w.z) && w.y == y && (w.x > x || (w.x == x && w.z >= z))
    decreases Max(Max(a.x1, a.x2) - size + 2 - x, 0), Max(Max(a.z1, a.z2) - size + 2 - z, 0)
  {
    if x >= Max(a.x1, a.x2) - size + 2 {
    } else if z >= Max(a.z1, a.z2) - size + 2 {
      WindowsFromMembers(a, size, y, x + 1, Min(a.z1, a.z2));
    } else {
      WindowsFromMembers(a, size, y, x, z + 1);
    }
  }

  /** The scan covers exactly the windows that fit in the area, at the levels. */
  lemma {:induction false} WindowsMembers(a: Area, size: int, levels: seq<int>)
    ensures forall w :: w in Windows(a, size, levels) <==> InScan(a, size, w.x, w.z) && w.y in levels
  {
    if levels != [] {
      WindowsFromMembers(a, size, levels[0], Min(a.x1, a.x2), Min(a.z1, a.z2));
      WindowsMembers(a, size, levels[1..]);
    }
  }

  // ----- the generators -------------------------------------------------------

  method CountFunction(p: Pattern, hitFn: string, counter: Option<string>) returns (lines: seq<Command>)
    ensures
      var ctr := AnyCounter(p.name, counter);
      lines == SecondStage(p, hitFn, ctr, RestCounter(ctr))
  {
    var ctr := AnyCounter(p.name, counter);
    var ctrf := RestCounter(ctr);
    hide CountLine, Truncate, StartsWith;
    var forbidden := p.Forbidden();
    lines := [Comment];
    var conds: seq<Modifier> := [];
    if p.anyOf != [] {
      lines := lines + [SetScore(ctr, 0)];
      for i := 0 to |p.anyOf|
        invariant lines == [Comment] + [SetScore(ctr, 0)] + CountLines(ctr, p.anyOf[..i])
      {
        CountLinesExtend(ctr, p.anyOf, i);
        lines := lines + [CountLine(ctr, p.anyOf[i])];
      }
      assert p.anyOf[..|p.anyOf|] == p.anyOf;
      conds := conds + [Check(IfScore(ctr, Range(Some(p.minAny), None)))];
    }
    assert lines == [Comment] + AnyStage(p, ctr);
    if forbidden != [] {
      lines := lines + [SetScore(ctrf, 0)];
      for i := 0 to |forbidden|
        invariant lines == [Comment] + AnyStage(p, ctr) + ([SetScore(ctrf, 0)] + CountLines(ctrf, forbidden[..i]))
      {
        CountLinesExtend(ctrf, forbidden, i);
        lines := lines + [CountLine(ctrf, forbidden[i])];
      }
      assert forbidden[..|forbidden|] == forbidden;
      conds := conds + [Check(IfScore(ctrf, Range(None, Some(0))))];
    }
    assert lines == [Comment] + AnyStage(p, ctr) + RestStage(p, ctrf);
    assert conds == FinalTests(p, ctr, ctrf);
    lines := lines + [if conds != [] then Execute(conds, Call(hitFn)) else Call(hitFn)];
  }

  method CheckLines(p: Pattern, area: Area, levels: seq<int>, hitFlag: string, countFn: string)
    returns (lines: seq<Command>)
    ensures lines == [Comment] + WindowLines(p, Windows(area, p.size, levels), hitFlag, countFn)
  {
    hide Min, Max, WindowLine, WindowLines, WindowsFrom;
    assert WindowLines(p, [], hitFlag, countFn) == [] by { WindowLinesNone(p, hitFlag, countFn); }
    var xa, xb := Min(area.x1, area.x2), Max(area.x1, area.x2);
    var za, zb := Min(area.z1, area.z2), Max(area.z1, area.z2);
    lines := [Comment];
    ghost var done: seq<Window> := [];
    for i := 0 to |levels|
      invariant done + Windows(area, p.size, levels[i..]) == Windows(area, p.size, levels)
      invariant lines == [Comment] + WindowLines(p, done, hitFlag, countFn)
    {
      var y := levels[i];
      ghost var row, rest := WindowsFrom(area, p.size, y, xa, za), Windows(area, p.size, levels[i + 1..]);
      ghost var target := done + row;
      assert levels[i..][1..] == levels[i + 1..];
      assert target + rest == done + (row + rest);
      var x0 := xa;
      while x0 < xb - p.size + 2
        invariant done + WindowsFrom(area, p.size, y, x0, za) == target
        invariant lines == [Comment] + WindowLines(p, done, hitFlag, countFn)
      {
        var z0 := za;
        while z0 < zb - p.size + 2
          invariant done + WindowsFrom(area, p.size, y, x0, z0) == target
          invariant lines == [Comment] + WindowLines(p, done, hitFlag, countFn)
        {
          var w := Window(x0, y, z0);
          WindowsFromUnfold(area, p.size, y, x0, z0);
          WindowLinesExtend(p, done, w, hitFlag, countFn);
          lines := lines + [WindowLine(p, w, hitFlag, countFn)];
          done := done + [w];
          z0 := z0 + 1;
        }
        WindowsFromUnfold(area, p.size, y, x0, z0);
        x0 := x0 + 1;
      }
      WindowsFromUnfold(area, p.size, y, x0, za);
      assert done + [] == done;
    }
    assert done + [] == done;
  }
}
