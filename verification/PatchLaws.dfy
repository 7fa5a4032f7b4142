/** What an applied patch keeps, and how to undo it (benchmarks/retrieval/swebench.py, `apply_patch`). */
module PatchLaws {
  import opened Basics
  import opened Patch

  // ---------------------------------------------------------------- conservation

  /** The lines whose numbers (from one) are not in `gone`. */
  function Survivors(lines: seq<string>, gone: seq<nat>): seq<string> {
    if lines == [] then []
    else Survivors(lines[..|lines| - 1], gone) + (if |lines| in gone then [] else [lines[|lines| - 1]])
  }

  /** The lines with these numbers. */
  function Picked(lines: seq<string>, numbers: seq<nat>): seq<string>
    requires forall i :: 0 <= i < |numbers| ==> 1 <= numbers[i] <= |lines|
  {
    seq(|numbers|, i requires 0 <= i < |numbers| => lines[numbers[i] - 1])
  }

  /** The texts of the lines of one kind. */
  function Texts(lines: seq<HunkLine>, kind: LineKind): seq<string> {
    if lines == [] then []
    else Texts(lines[..|lines| - 1], kind)
         + (if lines[|lines| - 1].kind == kind then [lines[|lines| - 1].text] else [])
  }

  function AllTexts(hunks: seq<Hunk>, kind: LineKind, n: nat): seq<string>
    requires n <= |hunks|
  {
    if n == 0 then [] else AllTexts(hunks, kind, n - 1) + Texts(hunks[n - 1].lines, kind)
  }

  /** Line numbers in ascending order, none past `bound`. */
  ghost predicate Numbers(numbers: seq<nat>, bound: nat) {
    && (forall i :: 0 <= i < |numbers| ==> 1 <= numbers[i] <= bound)
    && forall i, j :: 0 <= i < j < |numbers| ==> numbers[i] < numbers[j]
  }

  /** The two files up to here agree without their removed and added lines. */
  ghost predicate Conserved(file: seq<string>, p: Progress) {
    && p.cursor <= |file| && Numbers(p.removed, p.cursor) && Numbers(p.added, |p.lines|)
    && Survivors(p.lines, p.added) == Survivors(file[..p.cursor], p.removed)
    && |p.lines| + |p.removed| == p.cursor + |p.added|
  }

  lemma {:induction false} LaterNumber(lines: seq<string>, gone: seq<nat>, number: nat)
    requires number > |lines|
    ensures Survivors(lines, gone + [number]) == Survivors(lines, gone)
  {
    if lines != [] {
      LaterNumber(lines[..|lines| - 1], gone, number);
    }
  }

  lemma SurvivorsSnoc(lines: seq<string>, line: string, gone: seq<nat>)
    requires Numbers(gone, |lines|)
    ensures Survivors(lines + [line], gone) == Survivors(lines, gone) + [line]
    ensures Survivors(lines + [line], gone + [|lines| + 1]) == Survivors(lines, gone)
  {
    assert (lines + [line])[..|lines|] == lines;
    LaterNumber(lines, gone, |lines| + 1);
    assert (gone + [|lines| + 1])[|gone|] == |lines| + 1;
  }

  /** Taking over one line of the old file. */
  lemma TakeConserves(file: seq<string>, p: Progress)
    requires Conserved(file, p) && p.cursor < |file|
    ensures Conserved(file, p.(lines := p.lines + [file[p.cursor]], cursor := p.cursor + 1))
  {
    assert file[..p.cursor + 1] == file[..p.cursor] + [file[p.cursor]];
    SurvivorsSnoc(file[..p.cursor], file[p.cursor], p.removed);
    SurvivorsSnoc(p.lines, file[p.cursor], p.added);
  }

  lemma SkipNothing(file: seq<string>, p: Progress)
    requires p.cursor <= |file|
    ensures Skip(file, p.cursor, p) == p
  {
  }

  lemma SkipOneMore(file: seq<string>, start: nat, p: Progress)
    requires p.cursor < start <= |file|
    ensures var q := Skip(file, start - 1, p);
      q.cursor == start - 1
      && Skip(file, start, p) == q.(lines := q.lines + [file[q.cursor]], cursor := q.cursor + 1)
  {
    assert file[p.cursor..start] == file[p.cursor..start - 1] + [file[start - 1]];
    Associate(p.lines, file[p.cursor..start - 1], [file[start - 1]]);
  }

  lemma {:induction false} SkipConserves(file: seq<string>, start: nat, p: Progress)
    requires Conserved(file, p) && p.cursor <= start <= |file|
    ensures Conserved(file, Skip(file, start, p))
    decreases start - p.cursor
  {
    hide Skip, Conserved;
    if start == p.cursor {
      SkipNothing(file, p);
    } else {
      SkipConserves(file, start - 1, p);
      SkipOneMore(file, start, p);
      TakeConserves(file, Skip(file, start - 1, p));
    }
  }

  lemma RemoveConserves(file: seq<string>, p: Progress)
    requires Conserved(file, p) && p.cursor < |file|
    ensures Conserved(file, p.(removed := p.removed + [p.cursor + 1], cursor := p.cursor + 1))
  {
    assert file[..p.cursor + 1] == file[..p.cursor] + [file[p.cursor]];
    SurvivorsSnoc(file[..p.cursor], file[p.cursor], p.removed);
  }

  lemma AddConserves(file: seq<string>, p: Progress, line: string)
    requires Conserved(file, p)
    ensures Conserved(file, p.(lines := p.lines + [line], added := p.added + [|p.lines| + 1]))
  {
    SurvivorsSnoc(p.lines, line, p.added);
  }

  /** The old side matches the file at the cursor, so every line of it is the next line of the file. */
  ghost predicate Ahead(file: seq<string>, side: seq<string>, cursor: nat) {
    cursor + |side| <= |file| && file[cursor..cursor + |side|] == side
  }

  lemma AheadPart(file: seq<string>, side: seq<string>, more: seq<string>, cursor: nat)
    requires Ahead(file, side + more, cursor)
    ensures Ahead(file, side, cursor)
    ensures more != [] ==> cursor + |side| < |file| && file[cursor + |side|] == more[0]
  {
    var whole := side + more;
    assert file[cursor..cursor + |side|] == file[cursor..cursor + |whole|][..|side|];
    if more != [] {
      assert whole[|side|] == file[cursor..cursor + |whole|][|side|];
    }
  }

  /** The next line of the file is the one this hunk line shows, if it shows an old line. */
  ghost predicate Shows(file: seq<string>, line: HunkLine, cursor: nat) {
    line.kind != Added ==> cursor < |file| && file[cursor] == line.text
  }

  lemma AheadInit(file: seq<string>, lines: seq<HunkLine>, p: Progress)
    requires lines != [] && Ahead(file, OldSide(lines), p.cursor)
    ensures Ahead(file, OldSide(lines[..|lines| - 1]), p.cursor)
    ensures Shows(file, lines[|lines| - 1], EditLines(lines[..|lines| - 1], p).cursor)
  {
    var init, line := lines[..|lines| - 1], lines[|lines| - 1];
    AheadPart(file, OldSide(init), if line.kind != Added then [line.text] else [], p.cursor);
    Used(init, p);
  }

  lemma LineConserves(file: seq<string>, line: HunkLine, p: Progress)
    requires Conserved(file, p) && Shows(file, line, p.cursor)
    ensures Conserved(file, EditLine(line, p))
  {
    match line.kind {
      case Added => AddConserves(file, p, line.text);
      case Removed => RemoveConserves(file, p);
      case Context => TakeConserves(file, p);
    }
  }

  lemma {:induction false} EditConserves(file: seq<string>, lines: seq<HunkLine>, p: Progress)
    requires Conserved(file, p) && Ahead(file, OldSide(lines), p.cursor)
    ensures Conserved(file, EditLines(lines, p))
  {
    if lines != [] {
      AheadInit(file, lines, p);
      EditConserves(file, lines[..|lines| - 1], p);
      LineConserves(file, lines[|lines| - 1], EditLines(lines[..|lines| - 1], p));
    }
  }

  lemma {:induction false} EditedConserves(file: seq<string>, hunks: seq<Hunk>, starts: seq<nat>, n: nat)
    requires Fits(file, hunks, starts, n)
    ensures Conserved(file, Edited(file, hunks, starts, n))
  {
    if n == 0 {
      assert file[..0] == [];
    } else {
      EditedConserves(file, hunks, starts, n - 1);
      assert HunkFits(file, hunks, starts, n - 1);
      var p := Edited(file, hunks, starts, n - 1);
      SkipConserves(file, starts[n - 1], p);
      EditConserves(file, hunks[n - 1].lines, Skip(file, starts[n - 1], p));
    }
  }

  /** Without its added lines the new file is the old file without its removed lines; the line numbers are in
      order and in range, so the lengths differ by as many lines as were added and removed. */
  lemma PatchConserves(file: seq<string>, hunks: seq<Hunk>, starts: seq<nat>)
    requires Fits(file, hunks, starts, |hunks|)
    ensures var r := Rebuilt(file, hunks, starts);
      && Survivors(r.newLines, r.addedLines) == Survivors(file, r.removedLines)
      && Numbers(r.addedLines, |r.newLines|) && Numbers(r.removedLines, |file|)
      && |r.newLines| == |file| + |r.addedLines| - |r.removedLines|
  {
    EditedConserves(file, hunks, starts, |hunks|);
    var p := Edited(file, hunks, starts, |hunks|);
    SkipConserves(file, |file|, p);
    assert file[p.cursor..|file|] == file[p.cursor..];
    assert file[..|file|] == file;
  }

  /** A later hunk starts after all the lines an earlier one uses. */
  lemma {:induction false} HunksDoNotOverlap(file: seq<string>, hunks: seq<Hunk>, starts: seq<nat>, i: nat, j: nat)
    requires Placed(file, hunks, starts, |hunks|) && i < j < |hunks|
    ensures starts[i] + |OldSide(hunks[i].lines)| <= starts[j]
  {
    PlacedFits(file, hunks, starts, |hunks|);
    assert HunkFits(file, hunks, starts, j);
    if i + 1 < j {
      HunksDoNotOverlap(file, hunks, starts, i, j - 1);
    }
  }

  // ---------------------------------------------------------------- what was removed and added

  /** The numbered lines are the removed lines of the old file and the added lines of the patch. */
  ghost predicate Noted(file: seq<string>, p: Progress, removed: seq<string>, added: seq<string>) {
    Conserved(file, p) && Picked(file, p.removed) == removed && Picked(p.lines, p.added) == added
  }

  lemma PickedGrows(lines: seq<string>, more: seq<string>, numbers: seq<nat>)
    requires Numbers(numbers, |lines|)
    ensures Picked(lines + more, numbers) == Picked(lines, numbers)
  {
  }

  lemma LineNotes(file: seq<string>, line: HunkLine, p: Progress, removed: seq<string>, added: seq<string>)
    requires Noted(file, p, removed, added) && Shows(file, line, p.cursor)
    ensures Noted(file, EditLine(line, p), removed + (if line.kind == Removed then [line.text] else []),
                  added + (if line.kind == Added then [line.text] else []))
  {
    LineConserves(file, line, p);
    PickedGrows(p.lines, [line.text], p.added);
    assert removed + [] == removed && added + [] == added;
  }

  lemma {:induction false} EditNotes(file: seq<string>, lines: seq<HunkLine>, p: Progress, removed: seq<string>,
                                     added: seq<string>)
    requires Noted(file, p, removed, added) && Ahead(file, OldSide(lines), p.cursor)
    ensures Noted(file, EditLines(lines, p), removed + Texts(lines, Removed), added + Texts(lines, Added))
  {
    if lines == [] {
      assert removed + [] == removed && added + [] == added;
    } else {
      var init, line := lines[..|lines| - 1], lines[|lines| - 1];
      AheadInit(file, lines, p);
      EditNotes(file, init, p, removed, added);
      LineNotes(file, line, EditLines(init, p), removed + Texts(init, Removed), added + Texts(init, Added));
      assert removed + Texts(lines, Removed)
          == removed + Texts(init, Removed) + (if line.kind == Removed then [line.text] else []);
      assert added + Texts(lines, Added)
          == added + Texts(init, Added) + (if line.kind == Added then [line.text] else []);
    }
  }

  lemma SkipNotes(file: seq<string>, start: nat, p: Progress, removed: seq<string>, added: seq<string>)
    requires Noted(file, p, removed, added) && p.cursor <= start <= |file|
    ensures Noted(file, Skip(file, start, p), removed, added)
  {
    SkipConserves(file, start, p);
    PickedGrows(p.lines, file[p.cursor..start], p.added);
  }

  lemma {:induction false} EditedNotes(file: seq<string>, hunks: seq<Hunk>, starts: seq<nat>, n: nat)
    requires Fits(file, hunks, starts, n)
    ensures Noted(file, Edited(file, hunks, starts, n), AllTexts(hunks, Removed, n), AllTexts(hunks, Added, n))
  {
    if n == 0 {
      assert file[..0] == [];
    } else {
      hide Noted, Skip;
      EditedNotes(file, hunks, starts, n - 1);
      assert HunkFits(file, hunks, starts, n - 1);
      var p := Edited(file, hunks, starts, n - 1);
      SkipNotes(file, starts[n - 1], p, AllTexts(hunks, Removed, n - 1), AllTexts(hunks, Added, n - 1));
      EditNotes(file, hunks[n - 1].lines, Skip(file, starts[n - 1], p), AllTexts(hunks, Removed, n - 1),
                AllTexts(hunks, Added, n - 1));
    }
  }

  /** The removed line numbers point at the texts the patch removes, the added ones at the texts it adds. */
  lemma PatchNotes(file: seq<string>, hunks: seq<Hunk>, starts: seq<nat>)
    requires Fits(file, hunks, starts, |hunks|)
    ensures var r := Rebuilt(file, hunks, starts);
      && Numbers(r.addedLines, |r.newLines|) && Numbers(r.removedLines, |file|)
      && Picked(file, r.removedLines) == AllTexts(hunks, Removed, |hunks|)
      && Picked(r.newLines, r.addedLines) == AllTexts(hunks, Added, |hunks|)
  {
    EditedNotes(file, hunks, starts, |hunks|);
    var p := Edited(file, hunks, starts, |hunks|);
    PickedGrows(p.lines, file[p.cursor..], p.added);
  }

  // ---------------------------------------------------------------- reversal

  function Flip(line: HunkLine): HunkLine {
    match line.kind
    case Context => line
    case Removed => HunkLine(Added, line.text)
    case Added => HunkLine(Removed, line.text)
  }

  function FlipAll(lines: seq<HunkLine>): seq<HunkLine> {
    if lines == [] then [] else FlipAll(lines[..|lines| - 1]) + [Flip(lines[|lines| - 1])]
  }

  lemma {:induction false} FlipSides(lines: seq<HunkLine>)
    ensures |FlipAll(lines)| == |lines|
    ensures OldSide(FlipAll(lines)) == NewSide(lines) && NewSide(FlipAll(lines)) == OldSide(lines)
  {
    if lines != [] {
      FlipSides(lines[..|lines| - 1]);
      var init, last := FlipAll(lines[..|lines| - 1]), Flip(lines[|lines| - 1]);
      assert (init + [last])[..|lines| - 1] == init;
    }
  }

  /** Where hunk `i` starts in the new file. */
  function NewStart(file: seq<string>, hunks: seq<Hunk>, starts: seq<nat>, i: nat): nat
    requires Fits(file, hunks, starts, |hunks|) && i < |hunks|
  {
    FitsBelow(file, hunks, starts, i);
    var p := Edited(file, hunks, starts, i);
    |p.lines| + starts[i] - p.cursor
  }

  lemma FitsBelow(file: seq<string>, hunks: seq<Hunk>, starts: seq<nat>, i: nat)
    requires Fits(file, hunks, starts, |hunks|) && i < |hunks|
    ensures Fits(file, hunks, starts, i) && HunkFits(file, hunks, starts, i)
    ensures EndOf(hunks, starts, i) <= starts[i] <= |file|
  {
    assert HunkFits(file, hunks, starts, i);
  }

  /** The hunk that takes hunk `i` back, with the header its position in the new file calls for. */
  function Reverse(file: seq<string>, hunks: seq<Hunk>, starts: seq<nat>, i: nat): Hunk
    requires Fits(file, hunks, starts, |hunks|) && i < |hunks|
  {
    var start, count := NewStart(file, hunks, starts, i), |NewSide(hunks[i].lines)|;
    Hunk(if count > 0 then start + 1 else start, count, hunks[i].oldStart, hunks[i].oldCount, FlipAll(hunks[i].lines))
  }

  function ReverseAll(file: seq<string>, hunks: seq<Hunk>, starts: seq<nat>): seq<Hunk>
    requires Fits(file, hunks, starts, |hunks|)
  {
    seq(|hunks|, i requires 0 <= i < |hunks| => Reverse(file, hunks, starts, i))
  }

  function NewStarts(file: seq<string>, hunks: seq<Hunk>, starts: seq<nat>): seq<nat>
    requires Fits(file, hunks, starts, |hunks|)
  {
    seq(|hunks|, i requires 0 <= i < |hunks| => NewStart(file, hunks, starts, i))
  }

  /** Going back over the new file mirrors going forth over the old one. */
  ghost predicate Mirrors(file: seq<string>, p: Progress, q: Progress) {
    p.cursor <= |file| && q.lines == file[..p.cursor] && q.cursor == |p.lines|
    && q.removed == p.added && q.added == p.removed
  }

  lemma LineMirrors(file: seq<string>, line: HunkLine, p: Progress, q: Progress)
    requires Mirrors(file, p, q) && Shows(file, line, p.cursor)
    ensures Mirrors(file, EditLine(line, p), EditLine(Flip(line), q))
  {
    if line.kind != Added {
      assert file[..p.cursor + 1] == file[..p.cursor] + [file[p.cursor]];
    }
  }

  lemma {:induction false} EditMirrors(file: seq<string>, lines: seq<HunkLine>, p: Progress, q: Progress)
    requires Mirrors(file, p, q) && Ahead(file, OldSide(lines), p.cursor)
    ensures Mirrors(file, EditLines(lines, p), EditLines(FlipAll(lines), q))
  {
    if lines != [] {
      var init, line := lines[..|lines| - 1], lines[|lines| - 1];
      AheadInit(file, lines, p);
      EditMirrors(file, init, p, q);
      LineMirrors(file, line, EditLines(init, p), EditLines(FlipAll(init), q));
      FlipSides(init);
      assert FlipAll(lines)[..|lines| - 1] == FlipAll(init);
    }
  }

  lemma SkipMirrors(file: seq<string>, start: nat, p: Progress, q: Progress, file': seq<string>)
    requires Mirrors(file, p, q) && p.cursor <= start <= |file| && Skip(file, start, p).lines <= file'
    ensures var start' := |p.lines| + start - p.cursor;
      q.cursor <= start' <= |file'| && Mirrors(file, Skip(file, start, p), Skip(file', start', q))
  {
    var t, start' := Skip(file, start, p).lines, |p.lines| + start - p.cursor;
    assert file'[|p.lines|..start'] == t[|p.lines|..start'];
    assert file[..start] == file[..p.cursor] + file[p.cursor..start];
  }

  /** The new file begins with what has been built after any number of hunks. */
  lemma {:induction false} EditedIsPrefix(file: seq<string>, hunks: seq<Hunk>, starts: seq<nat>, i: nat, n: nat)
    requires i <= n && Fits(file, hunks, starts, n)
    ensures Edited(file, hunks, starts, i).lines <= Edited(file, hunks, starts, n).lines
  {
    if i < n {
      EditedIsPrefix(file, hunks, starts, i, n - 1);
      assert HunkFits(file, hunks, starts, n - 1);
      Used(hunks[n - 1].lines, Skip(file, starts[n - 1], Edited(file, hunks, starts, n - 1)));
    }
  }

  /** The new file has the new side of hunk `i` at its new start, right behind what was built before. */
  lemma BuiltAt(file: seq<string>, hunks: seq<Hunk>, starts: seq<nat>, i: nat)
    requires Fits(file, hunks, starts, |hunks|) && i < |hunks|
    ensures var file', side, start :=
        Rebuilt(file, hunks, starts).newLines, NewSide(hunks[i].lines), NewStart(file, hunks, starts, i);
      && Fits(file, hunks, starts, i) && EndOf(hunks, starts, i) <= starts[i] <= |file|
      && |Edited(file, hunks, starts, i).lines| <= start
      && Skip(file, starts[i], Edited(file, hunks, starts, i)).lines <= file'
      && |Edited(file, hunks, starts, i + 1).lines| == start + |side| && MatchesAt(file', side, start)
  {
    FitsBelow(file, hunks, starts, i);
    assert Fits(file, hunks, starts, i + 1);
    EditedIsPrefix(file, hunks, starts, i + 1, |hunks|);
    var p := Skip(file, starts[i], Edited(file, hunks, starts, i));
    Used(hunks[i].lines, p);
    InTheMiddle(p.lines, NewSide(hunks[i].lines), Edited(file, hunks, starts, |hunks|).lines,
                file[Edited(file, hunks, starts, |hunks|).cursor..]);
  }

  lemma InTheMiddle(lines: seq<string>, side: seq<string>, most: seq<string>, rest: seq<string>)
    requires lines + side <= most
    ensures lines <= most + rest && MatchesAt(most + rest, side, |lines|)
  {
    assert (most + rest)[|lines|..|lines| + |side|] == (lines + side)[|lines|..];
  }

  lemma ReverseStated(file: seq<string>, hunks: seq<Hunk>, starts: seq<nat>, i: nat)
    requires Fits(file, hunks, starts, |hunks|) && i < |hunks|
    ensures Stated(Reverse(file, hunks, starts, i)) == NewStart(file, hunks, starts, i)
    ensures OldSide(Reverse(file, hunks, starts, i).lines) == NewSide(hunks[i].lines)
  {
    FlipSides(hunks[i].lines);
  }

  lemma ReverseEnds(file: seq<string>, hunks: seq<Hunk>, starts: seq<nat>, i: nat)
    requires Fits(file, hunks, starts, |hunks|) && 0 < i < |hunks|
    ensures NewStart(file, hunks, starts, i - 1) + |NewSide(hunks[i - 1].lines)| <= NewStart(file, hunks, starts, i)
  {
    BuiltAt(file, hunks, starts, i - 1);
    FitsBelow(file, hunks, starts, i);
  }

  lemma ExactIsNearest(file: seq<string>, side: seq<string>, expected: nat, cursor: nat)
    requires MatchesAt(file, side, expected) && cursor <= expected
    ensures IsNearest(file, side, expected, cursor, Some(expected))
  {
  }

  lemma ReverseGap(file: seq<string>, hunks: seq<Hunk>, starts: seq<nat>, i: nat)
    requires Fits(file, hunks, starts, |hunks|) && i < |hunks|
    ensures var back, starts' := ReverseAll(file, hunks, starts), NewStarts(file, hunks, starts);
      Offset(back, starts', i) == 0 && EndOf(back, starts', i) <= starts'[i]
  {
    if i > 0 {
      ReverseStated(file, hunks, starts, i - 1);
      ReverseEnds(file, hunks, starts, i);
    }
  }

  /** Reversed, a hunk is expected where it is: its header says so, and no hunk before it drifts. */
  lemma ReversePlaced(file: seq<string>, hunks: seq<Hunk>, starts: seq<nat>, i: nat)
    requires Fits(file, hunks, starts, |hunks|) && i < |hunks|
    ensures var back, starts' := ReverseAll(file, hunks, starts), NewStarts(file, hunks, starts);
      Stated(back[i]) == starts'[i]
      && HunkAt(Rebuilt(file, hunks, starts).newLines, back, starts', i, Some(starts'[i]))
  {
    var back, starts' := ReverseAll(file, hunks, starts), NewStarts(file, hunks, starts);
    ReverseStated(file, hunks, starts, i);
    ReverseGap(file, hunks, starts, i);
    hide Fits, Rebuilt;
    MatchesNew(file, hunks, starts, i);
    ExactIsNearest(Rebuilt(file, hunks, starts).newLines, NewSide(hunks[i].lines), starts'[i],
                   EndOf(back, starts', i));
  }

  lemma MatchesNew(file: seq<string>, hunks: seq<Hunk>, starts: seq<nat>, i: nat)
    requires Fits(file, hunks, starts, |hunks|) && i < |hunks|
    ensures MatchesAt(Rebuilt(file, hunks, starts).newLines, NewSide(hunks[i].lines), NewStart(file, hunks, starts, i))
  {
    BuiltAt(file, hunks, starts, i);
  }

  lemma AllReversePlaced(file: seq<string>, hunks: seq<Hunk>, starts: seq<nat>)
    requires Fits(file, hunks, starts, |hunks|)
    ensures Placed(Rebuilt(file, hunks, starts).newLines, ReverseAll(file, hunks, starts),
                   NewStarts(file, hunks, starts), |hunks|)
  {
    var file', back, starts' :=
      Rebuilt(file, hunks, starts).newLines, ReverseAll(file, hunks, starts), NewStarts(file, hunks, starts);
    forall i | 0 <= i < |hunks| ensures HunkAt(file', back, starts', i, Some(starts'[i])) {
      ReversePlaced(file, hunks, starts, i);
    }
  }

  /** `back` undoes each of the hunks, and `starts'` is where they start in the new file. */
  ghost predicate Undoes(file: seq<string>, hunks: seq<Hunk>, starts: seq<nat>, back: seq<Hunk>, starts': seq<nat>)
    requires Fits(file, hunks, starts, |hunks|)
  {
    |back| == |hunks| == |starts'|
    && forall i {:trigger back[i]} {:trigger starts'[i]} :: 0 <= i < |hunks| ==>
         back[i].lines == FlipAll(hunks[i].lines) && starts'[i] == NewStart(file, hunks, starts, i)
  }

  lemma MirrorStep(file: seq<string>, lines: seq<HunkLine>, start: nat, p: Progress, q: Progress, file': seq<string>)
    requires Mirrors(file, p, q) && p.cursor <= start <= |file| && Skip(file, start, p).lines <= file'
    requires MatchesAt(file, OldSide(lines), start)
    ensures var start' := |p.lines| + start - p.cursor;
      q.cursor <= start' <= |file'|
      && Mirrors(file, EditLines(lines, Skip(file, start, p)), EditLines(FlipAll(lines), Skip(file', start', q)))
  {
    SkipMirrors(file, start, p, q, file');
    EditMirrors(file, lines, Skip(file, start, p), Skip(file', |p.lines| + start - p.cursor, q));
  }

  lemma EditedStep(file: seq<string>, hunks: seq<Hunk>, starts: seq<nat>, n: nat)
    requires n < |hunks| && n < |starts| && Fits(file, hunks, starts, n + 1)
    ensures Fits(file, hunks, starts, n) && MatchesAt(file, OldSide(hunks[n].lines), starts[n])
    ensures Edited(file, hunks, starts, n).cursor <= starts[n] <= |file|
    ensures Edited(file, hunks, starts, n + 1)
      == EditLines(hunks[n].lines, Skip(file, starts[n], Edited(file, hunks, starts, n)))
  {
    assert HunkFits(file, hunks, starts, n);
  }

  lemma SkippedIsPrefix(file: seq<string>, hunks: seq<Hunk>, starts: seq<nat>, i: nat)
    requires Fits(file, hunks, starts, |hunks|) && i < |hunks|
    ensures Fits(file, hunks, starts, i) && Edited(file, hunks, starts, i).cursor <= starts[i] <= |file|
    ensures Skip(file, starts[i], Edited(file, hunks, starts, i)).lines <= Rebuilt(file, hunks, starts).newLines
    ensures NewStart(file, hunks, starts, i)
      == |Edited(file, hunks, starts, i).lines| + starts[i] - Edited(file, hunks, starts, i).cursor
  {
    BuiltAt(file, hunks, starts, i);
  }

  lemma {:induction false} ReverseMirrors(file: seq<string>, hunks: seq<Hunk>, starts: seq<nat>, file': seq<string>,
                                          back: seq<Hunk>, starts': seq<nat>, n: nat)
    requires Fits(file, hunks, starts, |hunks|) && n <= |hunks| && file' == Rebuilt(file, hunks, starts).newLines
    requires Undoes(file, hunks, starts, back, starts') && Fits(file', back, starts', n)
    ensures Fits(file, hunks, starts, n)
    ensures Mirrors(file, Edited(file, hunks, starts, n), Edited(file', back, starts', n))
  {
    hide EditLines, FlipAll, OldSide, NewSide, MatchesAt, Rebuilt;
    if n > 0 {
      hide Mirrors;
      var m := n - 1;
      assert Fits(file, hunks, starts, n);
      ReverseMirrors(file, hunks, starts, file', back, starts', m);
      SkippedIsPrefix(file, hunks, starts, m);
      EditedStep(file, hunks, starts, m);
      EditedStep(file', back, starts', m);
      assert back[m].lines == FlipAll(hunks[m].lines) && starts'[m] == NewStart(file, hunks, starts, m);
      MirrorStep(file, hunks[m].lines, starts[m], Edited(file, hunks, starts, m), Edited(file', back, starts', m),
                 file');
    }
  }

  /** Applying the reversed hunks at their new positions to the new file gives the old file back: nothing drifts,
      and removed and added lines change places. */
  lemma ReversalUndoes(file: seq<string>, hunks: seq<Hunk>, starts: seq<nat>)
    requires Fits(file, hunks, starts, |hunks|)
    ensures var r, back, starts' :=
        Rebuilt(file, hunks, starts), ReverseAll(file, hunks, starts), NewStarts(file, hunks, starts);
      && Placed(r.newLines, back, starts', |hunks|) && Fits(r.newLines, back, starts', |hunks|)
      && Rebuilt(r.newLines, back, starts')
         == AppliedPatch(file, r.addedLines, r.removedLines, seq(|hunks|, i => 0))
  {
    var r, back, starts' :=
      Rebuilt(file, hunks, starts), ReverseAll(file, hunks, starts), NewStarts(file, hunks, starts);
    AllReversePlaced(file, hunks, starts);
    PlacedFits(r.newLines, back, starts', |hunks|);
    ReverseMirrors(file, hunks, starts, r.newLines, back, starts', |hunks|);
    var p := Edited(file, hunks, starts, |hunks|);
    Rejoined(file, p, Edited(r.newLines, back, starts', |hunks|));
    NoOffsets(file, hunks, starts);
  }

  lemma Rejoined(file: seq<string>, p: Progress, q: Progress)
    requires Mirrors(file, p, q)
    ensures q.cursor <= |p.lines + file[p.cursor..]|
    ensures q.lines + (p.lines + file[p.cursor..])[q.cursor..] == file
  {
    assert (p.lines + file[p.cursor..])[|p.lines|..] == file[p.cursor..];
    assert file == file[..p.cursor] + file[p.cursor..];
  }

  lemma NoOffsets(file: seq<string>, hunks: seq<Hunk>, starts: seq<nat>)
    requires Fits(file, hunks, starts, |hunks|)
    ensures Offsets(ReverseAll(file, hunks, starts), NewStarts(file, hunks, starts), |hunks|)
      == seq(|hunks|, i => 0)
  {
    forall i | 0 <= i < |hunks|
      ensures Stated(ReverseAll(file, hunks, starts)[i]) == NewStarts(file, hunks, starts)[i]
    {
      ReverseStated(file, hunks, starts, i);
    }
  }
}
