/** Applying a patch whose hunks may have drifted (benchmarks/retrieval/swebench.py, `locate_hunk` and
    `apply_patch`). */
module Patch {
  import opened Basics

  datatype LineKind = Context | Removed | Added

  datatype HunkLine = HunkLine(kind: LineKind, text: string)

  datatype Hunk = Hunk(oldStart: nat, oldCount: nat, newStart: nat, newCount: nat, lines: seq<HunkLine>)

  datatype AppliedPatch = AppliedPatch(newLines: seq<string>, removedLines: seq<nat>, addedLines: seq<nat>,
                                       offsets: seq<int>)

  /** `NoPosition` carries the 1-based number of the hunk that matches nowhere. */
  datatype Applied = Ok(value: AppliedPatch) | NoPosition(hunk: nat)

  function OldSide(lines: seq<HunkLine>): seq<string> {
    if lines == [] then []
    else OldSide(lines[..|lines| - 1])
         + (if lines[|lines| - 1].kind != Added then [lines[|lines| - 1].text] else [])
  }

  function NewSide(lines: seq<HunkLine>): seq<string> {
    if lines == [] then []
    else NewSide(lines[..|lines| - 1])
         + (if lines[|lines| - 1].kind != Removed then [lines[|lines| - 1].text] else [])
  }

  /** Where the header of a hunk says it starts, counted from zero. */
  function Stated(hunk: Hunk): int {
    if hunk.oldCount > 0 then hunk.oldStart - 1 else hunk.oldStart
  }

  // ---------------------------------------------------------------- the nearest position

  predicate MatchesAt(file: seq<string>, side: seq<string>, start: int) {
    0 <= start <= |file| - |side| && file[start..start + |side|] == side
  }

  function Distance(a: int, b: int): nat {
    if a < b then b - a else a - b
  }

  /** `start` beats `other` as a position for a hunk expected at `expected`: closer, or as close and forward. */
  predicate Beats(expected: int, start: int, other: int) {
    Distance(expected, start) < Distance(expected, other)
    || (Distance(expected, start) == Distance(expected, other) && start >= other)
  }

  /** The best match at or after `cursor`, or none if there is no match. */
  ghost predicate IsNearest(file: seq<string>, side: seq<string>, expected: int, cursor: nat, r: Option<nat>) {
    match r
    case None => forall s :: cursor <= s ==> !MatchesAt(file, side, s)
    case Some(start) =>
      cursor <= start && MatchesAt(file, side, start)
      && forall s :: cursor <= s && MatchesAt(file, side, s) ==> Beats(expected, start, s)
  }

  lemma NearestIsUnique(file: seq<string>, side: seq<string>, expected: int, cursor: nat, r: Option<nat>,
                        t: Option<nat>)
    requires IsNearest(file, side, expected, cursor, r) && IsNearest(file, side, expected, cursor, t)
    ensures r == t
  {
    if r.Some? && t.Some? {
      assert Beats(expected, r.value, t.value) && Beats(expected, t.value, r.value);
    }
  }

  method LocateHunk(file: seq<string>, side: seq<string>, expected: int, cursor: nat) returns (r: Option<nat>)
    ensures IsNearest(file, side, expected, cursor, r)
  {
    var last := |file| - |side|;
    if last < cursor {
      return None;
    }
    var reach := if Distance(expected, cursor) < Distance(last, expected) then Distance(last, expected)
                 else Distance(expected, cursor);
    for distance := 0 to reach + 1
      invariant forall s :: cursor <= s && MatchesAt(file, side, s) ==> Distance(expected, s) >= distance
    {
      if cursor <= expected + distance <= last && MatchesAt(file, side, expected + distance) {
        return Some(expected + distance);
      }
      if cursor <= expected - distance <= last && MatchesAt(file, side, expected - distance) {
        return Some(expected - distance);
      }
    }
    r := None;
  }

  // ---------------------------------------------------------------- one edit

  /** The new file so far, the removed and added line numbers (from one), and how much of the old file is used. */
  datatype Progress = Progress(lines: seq<string>, removed: seq<nat>, added: seq<nat>, cursor: nat)

  function EditLine(line: HunkLine, p: Progress): Progress {
    match line.kind
    case Added => p.(lines := p.lines + [line.text], added := p.added + [|p.lines| + 1])
    case Removed => p.(removed := p.removed + [p.cursor + 1], cursor := p.cursor + 1)
    case Context => p.(lines := p.lines + [line.text], cursor := p.cursor + 1)
  }

  function EditLines(lines: seq<HunkLine>, p: Progress): Progress {
    if lines == [] then p else EditLine(lines[|lines| - 1], EditLines(lines[..|lines| - 1], p))
  }

  lemma {:induction false} Used(lines: seq<HunkLine>, p: Progress)
    ensures EditLines(lines, p).cursor == p.cursor + |OldSide(lines)|
    ensures EditLines(lines, p).lines == p.lines + NewSide(lines)
  {
    if lines != [] {
      Used(lines[..|lines| - 1], p);
    }
  }

  /** The old lines up to `start` are taken over. */
  function Skip(file: seq<string>, start: nat, p: Progress): Progress
    requires p.cursor <= start <= |file|
  {
    p.(lines := p.lines + file[p.cursor..start], cursor := start)
  }

  const START := Progress([], [], [], 0)

  /** Where hunk `i` may start at the earliest: after the lines the hunk before it uses. */
  function EndOf(hunks: seq<Hunk>, starts: seq<nat>, i: nat): nat
    requires i <= |hunks| && i <= |starts|
  {
    if i == 0 then 0 else starts[i - 1] + |OldSide(hunks[i - 1].lines)|
  }

  /** The drift of the hunk before hunk `i`. */
  function Offset(hunks: seq<Hunk>, starts: seq<nat>, i: nat): int
    requires i <= |hunks| && i <= |starts|
  {
    if i == 0 then 0 else starts[i - 1] - Stated(hunks[i - 1])
  }

  /** Hunk `i` is at the best position from where the one before it ends, looked for where its header says
      plus the drift of the one before it. */
  ghost predicate HunkAt(file: seq<string>, hunks: seq<Hunk>, starts: seq<nat>, i: nat, r: Option<nat>)
    requires i < |hunks| && i <= |starts|
  {
    IsNearest(file, OldSide(hunks[i].lines), Stated(hunks[i]) + Offset(hunks, starts, i),
              EndOf(hunks, starts, i), r)
  }

  /** The first `n` hunks are placed. */
  ghost predicate Placed(file: seq<string>, hunks: seq<Hunk>, starts: seq<nat>, n: nat) {
    n <= |hunks| && n <= |starts| && forall i {:trigger HunkAt(file, hunks, starts, i, Some(starts[i]))} ::
         0 <= i < n ==> HunkAt(file, hunks, starts, i, Some(starts[i]))
  }

  /** The first `n` hunks lie in order, without overlap, and each where its old side matches. */
  ghost predicate Fits(file: seq<string>, hunks: seq<Hunk>, starts: seq<nat>, n: nat) {
    n <= |hunks| && n <= |starts|
    && forall i {:trigger HunkFits(file, hunks, starts, i)} :: 0 <= i < n ==> HunkFits(file, hunks, starts, i)
  }

  ghost predicate HunkFits(file: seq<string>, hunks: seq<Hunk>, starts: seq<nat>, i: nat)
    requires i < |hunks| && i < |starts|
  {
    MatchesAt(file, OldSide(hunks[i].lines), starts[i]) && EndOf(hunks, starts, i) <= starts[i]
  }

  lemma PlacedFits(file: seq<string>, hunks: seq<Hunk>, starts: seq<nat>, n: nat)
    requires Placed(file, hunks, starts, n)
    ensures Fits(file, hunks, starts, n)
  {
    forall i | 0 <= i < n ensures HunkFits(file, hunks, starts, i) {
      assert HunkAt(file, hunks, starts, i, Some(starts[i]));
    }
  }

  /** There is one way to place the hunks. */
  lemma {:induction false} PlacedIsUnique(file: seq<string>, hunks: seq<Hunk>, starts: seq<nat>, other: seq<nat>,
                                          n: nat)
    requires Placed(file, hunks, starts, n) && Placed(file, hunks, other, n)
    ensures starts[..n] == other[..n]
  {
    if n > 0 {
      PlacedIsUnique(file, hunks, starts, other, n - 1);
      assert n > 1 ==> starts[..n - 1][n - 2] == other[..n - 1][n - 2];
      SamePlace(file, hunks, starts, other, n - 1);
    }
  }

  lemma SamePlace(file: seq<string>, hunks: seq<Hunk>, starts: seq<nat>, other: seq<nat>, i: nat)
    requires i < |hunks| && i < |starts| && i < |other| && (i > 0 ==> starts[i - 1] == other[i - 1])
    requires HunkAt(file, hunks, starts, i, Some(starts[i])) && HunkAt(file, hunks, other, i, Some(other[i]))
    ensures starts[i] == other[i]
  {
    NearestIsUnique(file, OldSide(hunks[i].lines), Stated(hunks[i]) + Offset(hunks, starts, i),
                    EndOf(hunks, starts, i), Some(starts[i]), Some(other[i]));
  }

  /** The file after the first `n` hunks. */
  function Edited(file: seq<string>, hunks: seq<Hunk>, starts: seq<nat>, n: nat): (p: Progress)
    requires Fits(file, hunks, starts, n)
    ensures p.cursor == EndOf(hunks, starts, n) <= |file|
  {
    if n == 0 then START
    else
      assert HunkFits(file, hunks, starts, n - 1);
      var p := Skip(file, starts[n - 1], Edited(file, hunks, starts, n - 1));
      Used(hunks[n - 1].lines, p);
      EditLines(hunks[n - 1].lines, p)
  }

  function Offsets(hunks: seq<Hunk>, starts: seq<nat>, n: nat): seq<int>
    requires n <= |hunks| && n <= |starts|
  {
    seq(n, i requires 0 <= i < n => starts[i] - Stated(hunks[i]))
  }

  /** The patch applied with its hunks at `starts`. */
  function Rebuilt(file: seq<string>, hunks: seq<Hunk>, starts: seq<nat>): AppliedPatch
    requires Fits(file, hunks, starts, |hunks|)
  {
    var p := Edited(file, hunks, starts, |hunks|);
    AppliedPatch(p.lines + file[p.cursor..], p.removed, p.added, Offsets(hunks, starts, |hunks|))
  }

  // ---------------------------------------------------------------- the program

  lemma OneMorePlaced(file: seq<string>, hunks: seq<Hunk>, starts: seq<nat>, start: nat)
    requires Placed(file, hunks, starts, |starts|) && |starts| < |hunks|
    requires HunkAt(file, hunks, starts, |starts|, Some(start))
    ensures Placed(file, hunks, starts + [start], |starts| + 1)
  {
    var starts' := starts + [start];
    forall i | 0 <= i < |starts'| ensures HunkAt(file, hunks, starts', i, Some(starts'[i])) {
      if i < |starts| { assert HunkAt(file, hunks, starts, i, Some(starts[i])); }
    }
  }

  lemma {:induction false} EditedPrefix(file: seq<string>, hunks: seq<Hunk>, starts: seq<nat>, start: nat, n: nat)
    requires Fits(file, hunks, starts, n) && Fits(file, hunks, starts + [start], n) && n <= |starts|
    ensures Edited(file, hunks, starts, n) == Edited(file, hunks, starts + [start], n)
  {
    if n > 0 {
      EditedPrefix(file, hunks, starts, start, n - 1);
    }
  }

  method EditHunk(file: seq<string>, hunk: Hunk, start: nat, p0: Progress) returns (p: Progress)
    requires p0.cursor <= start <= |file|
    ensures p == EditLines(hunk.lines, Skip(file, start, p0))
  {
    p := p0.(lines := p0.lines + file[p0.cursor..start], cursor := start);
    for i := 0 to |hunk.lines|
      invariant p == EditLines(hunk.lines[..i], Skip(file, start, p0))
    {
      assert hunk.lines[..i + 1][..i] == hunk.lines[..i];
      var line := hunk.lines[i];
      if line.kind == Added {
        p := p.(lines := p.lines + [line.text]);
        p := p.(added := p.added + [|p.lines|]);
      } else {
        p := p.(cursor := p.cursor + 1);
        if line.kind == Removed {
          p := p.(removed := p.removed + [p.cursor]);
        } else {
          p := p.(lines := p.lines + [line.text]);
        }
      }
    }
    assert hunk.lines[..|hunk.lines|] == hunk.lines;
  }

  lemma NextEdited(file: seq<string>, hunks: seq<Hunk>, starts: seq<nat>, start: nat)
    requires |starts| < |hunks| && Fits(file, hunks, starts, |starts|)
    requires Fits(file, hunks, starts + [start], |starts| + 1)
    ensures EndOf(hunks, starts, |starts|) <= start <= |file|
    ensures Edited(file, hunks, starts + [start], |starts| + 1)
      == EditLines(hunks[|starts|].lines, Skip(file, start, Edited(file, hunks, starts, |starts|)))
  {
    EditedPrefix(file, hunks, starts, start, |starts|);
    assert HunkFits(file, hunks, starts + [start], |starts|);
  }

  lemma NextOffset(hunks: seq<Hunk>, starts: seq<nat>, start: nat)
    requires |starts| < |hunks|
    ensures Offsets(hunks, starts + [start], |starts| + 1)
      == Offsets(hunks, starts, |starts|) + [start - Stated(hunks[|starts|])]
    ensures Offset(hunks, starts + [start], |starts| + 1) == start - Stated(hunks[|starts|])
  {
  }

  /** Either every hunk is placed and the patch applied there, or the reported hunk, with all before it placed,
      matches nowhere after them. */
  ghost predicate IsOutcome(file: seq<string>, hunks: seq<Hunk>, starts: seq<nat>, r: Applied) {
    match r
    case Ok(value) =>
      |starts| == |hunks| && Placed(file, hunks, starts, |hunks|) && Fits(file, hunks, starts, |hunks|)
      && value == Rebuilt(file, hunks, starts)
    case NoPosition(n) =>
      1 <= n <= |hunks| && |starts| == n - 1 && Placed(file, hunks, starts, n - 1)
      && HunkAt(file, hunks, starts, n - 1, None)
  }

  lemma PlacedPrefix(file: seq<string>, hunks: seq<Hunk>, starts: seq<nat>, m: nat, n: nat)
    requires Placed(file, hunks, starts, n) && m <= n
    ensures Placed(file, hunks, starts, m)
  {
  }

  /** A hunk that matches nowhere is the first such hunk in any placement. */
  lemma FirstToFail(file: seq<string>, hunks: seq<Hunk>, starts: seq<nat>, m: nat, other: seq<nat>, n: nat)
    requires |starts| == m < |hunks| && Placed(file, hunks, starts, m) && HunkAt(file, hunks, starts, m, None)
    requires Placed(file, hunks, other, n)
    ensures n <= m
  {
    if m < n {
      PlacedPrefix(file, hunks, other, m, n);
      PlacedIsUnique(file, hunks, starts, other, m);
      assert m > 0 ==> starts[..m][m - 1] == other[..m][m - 1];
      assert HunkAt(file, hunks, other, m, Some(other[m]));
      NearestIsUnique(file, OldSide(hunks[m].lines), Stated(hunks[m]) + Offset(hunks, starts, m),
                      EndOf(hunks, starts, m), None, Some(other[m]));
    }
  }

  /** A patch has one outcome. */
  lemma OutcomeIsUnique(file: seq<string>, hunks: seq<Hunk>, starts: seq<nat>, r: Applied, other: seq<nat>,
                        t: Applied)
    requires IsOutcome(file, hunks, starts, r) && IsOutcome(file, hunks, other, t)
    ensures r == t && starts == other
  {
    hide HunkAt, Rebuilt, Placed, Fits;
    if r.NoPosition? {
      FirstToFail(file, hunks, starts, |starts|, other, |other|);
    }
    if t.NoPosition? {
      FirstToFail(file, hunks, other, |other|, starts, |starts|);
    }
    if |starts| == |other| {
      PlacedIsUnique(file, hunks, starts, other, |starts|);
      assert starts[..|starts|] == starts && other[..|starts|] == other;
    }
  }

  lemma NothingPlaced(file: seq<string>, hunks: seq<Hunk>)
    ensures Placed(file, hunks, [], 0) && Fits(file, hunks, [], 0) && Edited(file, hunks, [], 0) == START
    ensures Offset(hunks, [], 0) == 0 && Offsets(hunks, [], 0) == []
  {
  }

  method ApplyPatch(file: seq<string>, hunks: seq<Hunk>) returns (r: Applied)
    ensures exists starts :: IsOutcome(file, hunks, starts, r)
  {
    hide Placed, Fits, Edited, Offset, Offsets, OldSide;
    ghost var starts: seq<nat> := [];
    var p, offset, offsets := START, 0, [];
    NothingPlaced(file, hunks);
    for n := 0 to |hunks|
      invariant |starts| == n && Placed(file, hunks, starts, n) && Fits(file, hunks, starts, n)
      invariant p == Edited(file, hunks, starts, n) && offset == Offset(hunks, starts, n)
      invariant offsets == Offsets(hunks, starts, n)
    {
      var hunk := hunks[n];
      var start := LocateHunk(file, OldSide(hunk.lines), Stated(hunk) + offset, p.cursor);
      if start.None? {
        r := NoPosition(n + 1);
        assert IsOutcome(file, hunks, starts, r);
        return;
      }
      OneMorePlaced(file, hunks, starts, start.value);
      PlacedFits(file, hunks, starts + [start.value], n + 1);
      NextEdited(file, hunks, starts, start.value);
      NextOffset(hunks, starts, start.value);
      offset := start.value - Stated(hunk);
      offsets := offsets + [offset];
      p := EditHunk(file, hunk, start.value, p);
      starts := starts + [start.value];
    }
    r := Ok(AppliedPatch(p.lines + file[p.cursor..], p.removed, p.added, offsets));
    assert IsOutcome(file, hunks, starts, r);
  }
}
