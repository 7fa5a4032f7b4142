/** Reading one hunk of a patch (benchmarks/retrieval/swebench.py, `_parse_hunk`). */
module PatchParsing {
  import opened Basics
  import opened Patch

  /** A hunk header; a count that is not written is none. */
  datatype Header = Header(oldStart: nat, oldCount: Option<nat>, newStart: nat, newCount: Option<nat>)

  datatype ParseError = NotAHeader | Truncated | UnexpectedLine | ExceedsCounts

  datatype Parsed = ParsedHunk(hunk: Hunk, next: nat) | Failed(error: ParseError)

  const NO_NEWLINE_MARKER := '\\'

  predicate IsMarker(line: string) {
    line != [] && line[0] == NO_NEWLINE_MARKER
  }

  function Mark(kind: LineKind): char {
    match kind case Context => ' ' case Removed => '-' case Added => '+'
  }

  /** A hunk line as the patch writes it. */
  function Render(line: HunkLine): string {
    [Mark(line.kind)] + line.text
  }

  function RenderAll(body: seq<HunkLine>): seq<string> {
    seq(|body|, i requires 0 <= i < |body| => Render(body[i]))
  }

  function CountOf(raw: Option<nat>): nat {
    if raw.None? then 1 else raw.value
  }

  /** The lines that are not no-newline markers. */
  function Unmarked(lines: seq<string>): seq<string> {
    if lines == [] then []
    else Unmarked(lines[..|lines| - 1])
         + (if IsMarker(lines[|lines| - 1]) then [] else [lines[|lines| - 1]])
  }

  /** The lines from `from` up to `next` spell `body`. */
  ghost predicate Spells(lines: seq<string>, from: nat, next: nat, body: seq<HunkLine>) {
    from <= next <= |lines| && Unmarked(lines[from..next]) == RenderAll(body)
  }

  ghost predicate HasCounts(body: seq<HunkLine>, oldCount: nat, newCount: nat) {
    |OldSide(body)| == oldCount && |NewSide(body)| == newCount
  }

  lemma {:induction false} UnmarkedPrefix(lines: seq<string>, from: nat, next: nat, further: nat)
    requires from <= next <= further <= |lines|
    ensures Unmarked(lines[from..next]) <= Unmarked(lines[from..further])
    decreases further - next
  {
    if next < further {
      UnmarkedPrefix(lines, from, next, further - 1);
      assert lines[from..further][..further - 1 - from] == lines[from..further - 1];
    }
  }

  lemma UnmarkedNext(lines: seq<string>, from: nat, next: nat)
    requires from <= next < |lines|
    ensures Unmarked(lines[from..next + 1])
      == Unmarked(lines[from..next]) + (if IsMarker(lines[next]) then [] else [lines[next]])
  {
    assert lines[from..next + 1][..next - from] == lines[from..next];
  }

  lemma RenderIsInjective(a: HunkLine, b: HunkLine)
    requires Render(a) == Render(b)
    ensures a == b
  {
    assert Render(a)[0] == Render(b)[0];
    assert Render(a)[1..] == a.text && Render(b)[1..] == b.text;
  }

  lemma RenderAllPrefix(a: seq<HunkLine>, b: seq<HunkLine>)
    requires RenderAll(a) <= RenderAll(b)
    ensures a <= b
  {
    forall i | 0 <= i < |a| ensures a[i] == b[i] {
      assert RenderAll(a)[i] == RenderAll(b)[i];
      RenderIsInjective(a[i], b[i]);
    }
  }

  lemma {:induction false} SidesGrow(a: seq<HunkLine>, b: seq<HunkLine>)
    requires a <= b
    ensures |OldSide(a)| <= |OldSide(b)| && |NewSide(a)| <= |NewSide(b)|
    decreases |b|
  {
    if a != b {
      SidesGrow(a, b[..|b| - 1]);
    }
  }

  /** Any reading of the hunk that has the counts goes on from what has been read. */
  lemma ReadingGoesOn(lines: seq<string>, from: nat, next: nat, body: seq<HunkLine>, end: nat, whole: seq<HunkLine>,
                      oldCount: nat, newCount: nat)
    requires Spells(lines, from, next, body) && Spells(lines, from, end, whole) && HasCounts(whole, oldCount, newCount)
    requires |OldSide(body)| < oldCount || |NewSide(body)| < newCount
    ensures next < end && body < whole
  {
    if end <= next {
      UnmarkedPrefix(lines, from, end, next);
      RenderAllPrefix(whole, body);
      SidesGrow(whole, body);
    } else {
      UnmarkedPrefix(lines, from, next, end);
      RenderAllPrefix(body, whole);
      assert body != whole;
    }
  }

  lemma RenderKind(line: HunkLine)
    ensures KindOf(Render(line)) == Some(line.kind) && Render(line)[1..] == line.text
  {
  }

  lemma PrefixAt<T>(a: seq<T>, x: T, b: seq<T>)
    requires a + [x] <= b
    ensures b[|a|] == x
  {
    assert (a + [x])[|a|] == x;
  }

  /** The next line of such a reading, if it is not a marker, is the next line of the body. */
  lemma NextReadLine(lines: seq<string>, from: nat, next: nat, body: seq<HunkLine>, end: nat, whole: seq<HunkLine>)
    requires Spells(lines, from, next, body) && Spells(lines, from, end, whole) && next < end && body < whole
    requires !IsMarker(lines[next])
    ensures lines[next] == Render(whole[|body|])
  {
    UnmarkedNext(lines, from, next);
    UnmarkedPrefix(lines, from, next + 1, end);
    PrefixAt(RenderAll(body), lines[next], RenderAll(whole));
  }

  /** No lines from `from` on spell a body with these counts. */
  ghost predicate Unreadable(lines: seq<string>, from: nat, oldCount: nat, newCount: nat) {
    forall end, whole :: Spells(lines, from, end, whole) ==> !HasCounts(whole, oldCount, newCount)
  }

  function KindOf(line: string): Option<LineKind> {
    if line == [] then None
    else if line[0] == ' ' then Some(Context)
    else if line[0] == '-' then Some(Removed)
    else if line[0] == '+' then Some(Added)
    else None
  }

  /** Reading stops at a line that fits no reading with the counts. */
  lemma StopsRightly(lines: seq<string>, from: nat, next: nat, body: seq<HunkLine>, oldCount: nat, newCount: nat)
    requires Spells(lines, from, next, body)
    requires |OldSide(body)| < oldCount || |NewSide(body)| < newCount
    requires next < |lines| ==> !IsMarker(lines[next])
    requires next < |lines| && KindOf(lines[next]).Some? ==>
      var line := HunkLine(KindOf(lines[next]).value, lines[next][1..]);
      |OldSide(body + [line])| > oldCount || |NewSide(body + [line])| > newCount
    ensures Unreadable(lines, from, oldCount, newCount)
  {
    forall end, whole | Spells(lines, from, end, whole) && HasCounts(whole, oldCount, newCount) ensures false {
      ReadingGoesOn(lines, from, next, body, end, whole, oldCount, newCount);
      RenderKind(whole[|body|]);
      SidesGrow(body + [whole[|body|]], whole);
      NextReadLine(lines, from, next, body, end, whole);
    }
  }

  lemma PassMarker(lines: seq<string>, from: nat, next: nat, body: seq<HunkLine>)
    requires Spells(lines, from, next, body) && next < |lines| && IsMarker(lines[next])
    ensures Spells(lines, from, next + 1, body)
  {
    UnmarkedNext(lines, from, next);
  }

  lemma TakeLine(lines: seq<string>, from: nat, next: nat, body: seq<HunkLine>, line: HunkLine)
    requires Spells(lines, from, next, body) && next < |lines| && !IsMarker(lines[next])
    requires KindOf(lines[next]) == Some(line.kind) && lines[next][1..] == line.text
    ensures Spells(lines, from, next + 1, body + [line])
    ensures |OldSide(body + [line])| == |OldSide(body)| + (if line.kind == Added then 0 else 1)
    ensures |NewSide(body + [line])| == |NewSide(body)| + (if line.kind == Removed then 0 else 1)
  {
    UnmarkedNext(lines, from, next);
    assert (body + [line])[..|body|] == body;
    assert lines[next] == Render(line);
    assert RenderAll(body + [line]) == RenderAll(body) + [Render(line)];
  }

  lemma ReadRightly(lines: seq<string>, from: nat, next: nat, body: seq<HunkLine>, oldCount: nat, newCount: nat)
    requires Spells(lines, from, next, body) && HasCounts(body, oldCount, newCount)
    ensures !Unreadable(lines, from, oldCount, newCount)
  {
  }

  lemma NothingRead(lines: seq<string>, from: nat)
    requires from <= |lines|
    ensures Spells(lines, from, from, []) && OldSide([]) == [] && NewSide([]) == []
  {
  }

  /** The hunk at `index` is read exactly if the lines after its header spell a body with the counts of the
      header; its body then has them, and the markers behind it are skipped. */
  method ParseHunk(lines: seq<string>, index: nat, header: Option<Header>) returns (r: Parsed)
    requires index < |lines|
    ensures header.None? <==> r == Failed(NotAHeader)
    ensures header.Some? ==>
      var oldCount := if header.value.oldCount.Some? then header.value.oldCount.value else 1;
      var newCount := if header.value.newCount.Some? then header.value.newCount.value else 1;
      (r.Failed? <==> Unreadable(lines, index + 1, oldCount, newCount))
      && (r.ParsedHunk? ==>
            r.hunk == Hunk(header.value.oldStart, oldCount, header.value.newStart, newCount, r.hunk.lines)
            && HasCounts(r.hunk.lines, oldCount, newCount) && Spells(lines, index + 1, r.next, r.hunk.lines)
            && (r.next < |lines| ==> lines[r.next] == "" || lines[r.next][0] != '\\'))
  {
    hide Spells, Unreadable;
    if header.None? {
      return Failed(NotAHeader);
    }
    var oldCount, newCount := CountOf(header.value.oldCount), CountOf(header.value.newCount);
    var oldLeft: int, newLeft: int := oldCount, newCount;
    var body, position := [], index + 1;
    NothingRead(lines, index + 1);
    while oldLeft > 0 || newLeft > 0
      invariant Spells(lines, index + 1, position, body) && oldLeft >= 0 && newLeft >= 0
      invariant |OldSide(body)| + oldLeft == oldCount && |NewSide(body)| + newLeft == newCount
      decreases |lines| - position
    {
      if position >= |lines| {
        StopsRightly(lines, index + 1, position, body, oldCount, newCount);
        return Failed(Truncated);
      }
      var line := lines[position];
      if IsMarker(line) {
        PassMarker(lines, index + 1, position, body);
        position := position + 1;
        continue;
      }
      var kind := KindOf(line);
      if kind.None? {
        StopsRightly(lines, index + 1, position, body, oldCount, newCount);
        return Failed(UnexpectedLine);
      }
      var read := HunkLine(kind.value, line[1..]);
      TakeLine(lines, index + 1, position, body, read);
      oldLeft := oldLeft - (if kind.value == Added then 0 else 1);
      newLeft := newLeft - (if kind.value == Removed then 0 else 1);
      if oldLeft < 0 || newLeft < 0 {
        StopsRightly(lines, index + 1, position, body, oldCount, newCount);
        return Failed(ExceedsCounts);
      }
      position, body := position + 1, body + [read];
    }
    while position < |lines| && IsMarker(lines[position])
      invariant Spells(lines, index + 1, position, body)
    {
      PassMarker(lines, index + 1, position, body);
      position := position + 1;
    }
    ReadRightly(lines, index + 1, position, body, oldCount, newCount);
    r := ParsedHunk(Hunk(header.value.oldStart, oldCount, header.value.newStart, newCount, body), position);
  }

  /** Two readings of a hunk with the same counts are the same. */
  lemma ReadingIsUnique(lines: seq<string>, from: nat, end: nat, whole: seq<HunkLine>, end': nat, whole': seq<HunkLine>,
                        oldCount: nat, newCount: nat)
    requires Spells(lines, from, end, whole) && HasCounts(whole, oldCount, newCount)
    requires Spells(lines, from, end', whole') && HasCounts(whole', oldCount, newCount)
    ensures whole == whole'
  {
    if end <= end' {
      UnmarkedPrefix(lines, from, end, end');
      RenderAllPrefix(whole, whole');
      SameSides(whole, whole');
    } else {
      UnmarkedPrefix(lines, from, end', end);
      RenderAllPrefix(whole', whole);
      SameSides(whole', whole);
    }
  }

  lemma SameSides(a: seq<HunkLine>, b: seq<HunkLine>)
    requires a <= b && |OldSide(a)| == |OldSide(b)| && |NewSide(a)| == |NewSide(b)|
    ensures a == b
  {
    if a != b {
      SidesGrow(a, b[..|b| - 1]);
    }
  }
}
