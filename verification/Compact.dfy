/** Search matches rendered within a line budget (benchmarks/search/compact.py). The layout of a line is left
    out: a line is what it says about locations. */
module Compact {
  import opened Basics

  const PER_FILE_LINES: nat := 25
  const TOTAL_LINES: nat := 200
  const NUMBERS_PER_LINE: nat := 40

  datatype Kind = Def | Code | Import | Comment | StringLiteral | Text

  datatype Match = Match(path: string, line: nat, kind: Kind, scope: string)

  /** A line under a file: the line numbers it shows, and how many more it says there are. */
  datatype Entry = Entry(heading: string, shown: seq<nat>, more: nat)

  datatype Line =
    | Header(total: nat, files: nat)
    | FileLine(path: string)
    | EntryLine(entry: Entry)
    | MoreInFile(count: nat)
    | MoreFiles(files: nat, matches: nat)

  datatype FileGroup = FileGroup(path: string, items: seq<Match>)

  // ---------------------------------------------------------------- grouping

  function OfPath(matches: seq<Match>, path: string): seq<Match> {
    if matches == [] then []
    else OfPath(matches[..|matches| - 1], path)
         + (if matches[|matches| - 1].path == path then [matches[|matches| - 1]] else [])
  }

  function Kept(matches: seq<Match>, ignored: string -> bool): seq<Match> {
    if matches == [] then []
    else Kept(matches[..|matches| - 1], ignored)
         + (if ignored(matches[|matches| - 1].path) then [] else [matches[|matches| - 1]])
  }

  function Total(files: seq<FileGroup>): nat {
    if files == [] then 0 else Total(files[..|files| - 1]) + |files[|files| - 1].items|
  }

  /** Every kept match is in the group of its path, in order, and no path has two groups. */
  ghost predicate IsGrouping(files: seq<FileGroup>, kept: seq<Match>) {
    && (forall i :: 0 <= i < |files| ==> files[i].items == OfPath(kept, files[i].path) && files[i].items != [])
    && (forall i, j :: 0 <= i < j < |files| ==> files[i].path != files[j].path)
    && Total(files) == |kept|
  }

  /** The match joins the group of its path, or starts one behind the others. */
  function AddToGroup(files: seq<FileGroup>, x: Match): seq<FileGroup> {
    if files == [] then [FileGroup(x.path, [x])]
    else if files[0].path == x.path then [FileGroup(x.path, files[0].items + [x])] + files[1..]
    else [files[0]] + AddToGroup(files[1..], x)
  }

  lemma {:induction false} TotalCons(first: FileGroup, rest: seq<FileGroup>)
    ensures Total([first] + rest) == |first.items| + Total(rest)
  {
    if rest != [] {
      TotalCons(first, rest[..|rest| - 1]);
      assert ([first] + rest)[..|rest|] == [first] + rest[..|rest| - 1];
    } else {
      assert [first] + rest == [first] && [first][..0] == [];
    }
  }

  ghost predicate HasGroup(files: seq<FileGroup>, path: string) {
    exists i :: 0 <= i < |files| && files[i].path == path
  }

  lemma {:induction false} JoinedTotal(files: seq<FileGroup>, x: Match)
    ensures Total(AddToGroup(files, x)) == Total(files) + 1
    decreases |files|
  {
    if files == [] {
      assert AddToGroup(files, x)[..0] == [];
    } else {
      assert files == [files[0]] + files[1..];
      TotalCons(files[0], files[1..]);
      if files[0].path == x.path {
        TotalCons(FileGroup(x.path, files[0].items + [x]), files[1..]);
      } else {
        JoinedTotal(files[1..], x);
        TotalCons(files[0], AddToGroup(files[1..], x));
      }
    }
  }

  lemma {:induction false} Joined(files: seq<FileGroup>, x: Match)
    requires forall i, j :: 0 <= i < j < |files| ==> files[i].path != files[j].path
    ensures var t := AddToGroup(files, x);
      && |t| >= |files|
      && (forall i :: 0 <= i < |files| ==>
            t[i] == if files[i].path == x.path then FileGroup(x.path, files[i].items + [x]) else files[i])
      && (if HasGroup(files, x.path) then |t| == |files| else t == files + [FileGroup(x.path, [x])])
    decreases |files|
  {
    hide Total;
    if files != [] && files[0].path != x.path {
      Joined(files[1..], x);
      if i :| 0 <= i < |files| && files[i].path == x.path {
        assert files[1..][i - 1].path == x.path;
      }
    }
  }

  lemma JoinedPaths(files: seq<FileGroup>, x: Match, path: string)
    requires forall i, j :: 0 <= i < j < |files| ==> files[i].path != files[j].path
    ensures HasGroup(AddToGroup(files, x), path) <==> HasGroup(files, path) || path == x.path
  {
    Joined(files, x);
    var t := AddToGroup(files, x);
    forall i | 0 <= i < |files| ensures t[i].path == files[i].path {
    }
    if path == x.path && !HasGroup(files, path) {
      assert t[|files|].path == path;
    }
    if i :| 0 <= i < |files| && files[i].path == path {
      assert t[i].path == path;
    }
  }

  lemma OfPathNext(kept: seq<Match>, x: Match, path: string)
    ensures OfPath(kept + [x], path) == OfPath(kept, path) + (if x.path == path then [x] else [])
  {
    assert (kept + [x])[..|kept|] == kept;
  }

  /** The paths of the groups are those of the kept matches. */
  ghost predicate IsComplete(files: seq<FileGroup>, kept: seq<Match>) {
    forall path: string {:trigger HasGroup(files, path)} :: HasGroup(files, path) <==> OfPath(kept, path) != []
  }

  /** One more kept match keeps the groups right. */
  lemma GroupingGrows(files: seq<FileGroup>, kept: seq<Match>, x: Match)
    requires IsGrouping(files, kept) && IsComplete(files, kept)
    ensures IsGrouping(AddToGroup(files, x), kept + [x])
  {
    hide OfPath, Total, AddToGroup;
    Joined(files, x);
    JoinedTotal(files, x);
    var t := AddToGroup(files, x);
    forall i | 0 <= i < |t| ensures t[i].items == OfPath(kept + [x], t[i].path) && t[i].items != [] {
      OfPathNext(kept, x, t[i].path);
      assert HasGroup(files, x.path) || OfPath(kept, x.path) == [];
    }
  }

  lemma CompleteGrows(files: seq<FileGroup>, kept: seq<Match>, x: Match)
    requires IsGrouping(files, kept) && IsComplete(files, kept)
    ensures IsComplete(AddToGroup(files, x), kept + [x])
  {
    forall path: string ensures HasGroup(AddToGroup(files, x), path) <==> OfPath(kept + [x], path) != [] {
      JoinedPaths(files, x, path);
      OfPathNext(kept, x, path);
    }
  }

  /** Files come in the order in which they are first matched. */
  ghost predicate InFirstOrder(files: seq<FileGroup>, kept: seq<Match>) {
    forall i, j :: 0 <= i < j < |files| ==> FoundBefore(kept, files[i].path, files[j].path)
  }

  ghost predicate FoundBefore(kept: seq<Match>, first: string, second: string) {
    exists k :: 0 <= k < |kept| && kept[k].path == first && forall l :: 0 <= l <= k ==> kept[l].path != second
  }

  lemma {:induction false} SomeMatch(kept: seq<Match>, path: string)
    ensures OfPath(kept, path) != [] <==> exists k :: 0 <= k < |kept| && kept[k].path == path
  {
    if kept != [] {
      var n := |kept| - 1;
      SomeMatch(kept[..n], path);
      if k :| 0 <= k < |kept| && kept[k].path == path {
        assert k < n ==> kept[..n][k].path == path;
      }
    }
  }

  lemma StillFoundBefore(kept: seq<Match>, x: Match, first: string, second: string)
    requires FoundBefore(kept, first, second)
    ensures FoundBefore(kept + [x], first, second)
  {
    var k :| 0 <= k < |kept| && kept[k].path == first && forall l :: 0 <= l <= k ==> kept[l].path != second;
    assert (kept + [x])[k].path == first;
  }

  lemma FoundBeforeNew(kept: seq<Match>, x: Match, first: string, second: string)
    requires OfPath(kept, first) != [] && OfPath(kept, second) == []
    ensures FoundBefore(kept + [x], first, second)
  {
    SomeMatch(kept, first);
    SomeMatch(kept, second);
    var k :| 0 <= k < |kept| && kept[k].path == first;
    assert (kept + [x])[k].path == first;
  }

  lemma OrderGrows(files: seq<FileGroup>, kept: seq<Match>, x: Match)
    requires IsGrouping(files, kept) && IsComplete(files, kept) && InFirstOrder(files, kept)
    ensures InFirstOrder(AddToGroup(files, x), kept + [x])
  {
    Joined(files, x);
    var t := AddToGroup(files, x);
    assert HasGroup(files, x.path) <==> OfPath(kept, x.path) != [];
    hide AddToGroup, OfPath, Total, FoundBefore;
    forall i, j | 0 <= i < j < |t| ensures FoundBefore(kept + [x], t[i].path, t[j].path) {
      assert t[i].path == files[i].path;
      if j < |files| {
        assert t[j].path == files[j].path;
        StillFoundBefore(kept, x, files[i].path, files[j].path);
      } else {
        FoundBeforeNew(kept, x, files[i].path, x.path);
      }
    }
  }

  lemma KeptNext(matches: seq<Match>, i: nat, ignored: string -> bool)
    requires i < |matches|
    ensures Kept(matches[..i + 1], ignored)
      == if ignored(matches[i].path) then Kept(matches[..i], ignored) else Kept(matches[..i], ignored) + [matches[i]]
  {
    assert matches[..i + 1][..i] == matches[..i];
  }

  /** The matches that are not ignored, grouped by path in order of first appearance. */
  method GroupByFile(matches: seq<Match>, ignored: string -> bool) returns (files: seq<FileGroup>)
    ensures IsGrouping(files, Kept(matches, ignored)) && IsComplete(files, Kept(matches, ignored))
    ensures InFirstOrder(files, Kept(matches, ignored))
  {
    files := [];
    for i := 0 to |matches|
      invariant IsGrouping(files, Kept(matches[..i], ignored)) && IsComplete(files, Kept(matches[..i], ignored))
      invariant InFirstOrder(files, Kept(matches[..i], ignored))
    {
      KeptNext(matches, i, ignored);
      if !ignored(matches[i].path) {
        GroupingGrows(files, Kept(matches[..i], ignored), matches[i]);
        OrderGrows(files, Kept(matches[..i], ignored), matches[i]);
        CompleteGrows(files, Kept(matches[..i], ignored), matches[i]);
        files := AddToGroup(files, matches[i]);
      }
    }
    assert matches[..|matches|] == matches;
  }

  // ---------------------------------------------------------------- entries

  function Numbers(items: seq<Match>): (numbers: seq<nat>)
    ensures |numbers| == |items|
  {
    seq(|items|, i requires 0 <= i < |items| => items[i].line)
  }

  function Shown(entries: seq<Entry>): seq<nat> {
    if entries == [] then [] else Shown(entries[..|entries| - 1]) + entries[|entries| - 1].shown
  }

  function Overflow(entries: seq<Entry>): nat {
    if entries == [] then 0 else Overflow(entries[..|entries| - 1]) + entries[|entries| - 1].more
  }

  /** An entry leaves numbers out only when it is full. */
  predicate IsFilled(e: Entry) {
    |e.shown| <= NUMBERS_PER_LINE && (e.more > 0 ==> |e.shown| == NUMBERS_PER_LINE)
  }

  /** The entries show matches of the file, none twice, and say how many they leave out. */
  ghost predicate Accounts(entries: seq<Entry>, numbers: multiset<nat>) {
    multiset(Shown(entries)) <= numbers && |Shown(entries)| + Overflow(entries) == |numbers|
    && forall i :: 0 <= i < |entries| ==> IsFilled(entries[i])
  }

  lemma ShownSnoc(entries: seq<Entry>, e: Entry)
    ensures Shown(entries + [e]) == Shown(entries) + e.shown && Overflow(entries + [e]) == Overflow(entries) + e.more
  {
    assert (entries + [e])[..|entries|] == entries;
  }

  lemma LastOfConcat<T>(a: seq<T>, b: seq<T>)
    requires b != []
    ensures b[..|b| - 1] + [b[|b| - 1]] == b && a + b[..|b| - 1] + [b[|b| - 1]] == a + b
  {
  }

  lemma {:induction false} ShownConcat(a: seq<Entry>, b: seq<Entry>)
    ensures Shown(a + b) == Shown(a) + Shown(b) && Overflow(a + b) == Overflow(a) + Overflow(b)
  {
    if b == [] {
      assert a + b == a;
    } else {
      hide Shown, Overflow;
      var init, last := b[..|b| - 1], b[|b| - 1];
      ShownConcat(a, init);
      ShownSnoc(a + init, last);
      ShownSnoc(init, last);
      LastOfConcat(a, b);
      Associate(Shown(a), Shown(init), last.shown);
    }
  }

  lemma AccountsConcat(a: seq<Entry>, b: seq<Entry>, m: multiset<nat>, n: multiset<nat>)
    requires Accounts(a, m) && Accounts(b, n)
    ensures Accounts(a + b, m + n)
  {
    ShownConcat(a, b);
  }

  /** An entry with the first forty numbers and the number of the others. */
  function NumberLine(heading: string, numbers: seq<nat>): Entry {
    if |numbers| <= NUMBERS_PER_LINE then Entry(heading, numbers, 0)
    else Entry(heading, numbers[..NUMBERS_PER_LINE], |numbers| - NUMBERS_PER_LINE)
  }

  lemma AccountsOne(e: Entry, numbers: multiset<nat>)
    requires multiset(e.shown) <= numbers && |e.shown| + e.more == |numbers| && IsFilled(e)
    ensures Accounts([e], numbers)
  {
    assert [e][..0] == [];
    assert Shown([e]) == e.shown;
  }

  lemma NumberLineAccounts(heading: string, numbers: seq<nat>)
    ensures Accounts([NumberLine(heading, numbers)], multiset(numbers))
  {
    var e := NumberLine(heading, numbers);
    assert numbers == e.shown + numbers[|e.shown|..];
    AccountsOne(e, multiset(numbers));
  }

  datatype Group = Group(heading: string, lines: seq<nat>)

  /** `structure.scope or "<top>"` */
  function ScopeOf(x: Match): string {
    if x.scope == "" then "<top>" else x.scope
  }

  function AddTo(groups: seq<Group>, heading: string, line: nat): seq<Group> {
    if groups == [] then [Group(heading, [line])]
    else if groups[0].heading == heading then [Group(heading, groups[0].lines + [line])] + groups[1..]
    else [groups[0]] + AddTo(groups[1..], heading, line)
  }

  function Grouped(groups: seq<Group>): multiset<nat> {
    if groups == [] then multiset{} else multiset(groups[0].lines) + Grouped(groups[1..])
  }

  lemma {:induction false} AddToCounts(groups: seq<Group>, heading: string, line: nat)
    ensures Grouped(AddTo(groups, heading, line)) == Grouped(groups) + multiset{line}
  {
    if groups != [] && groups[0].heading != heading {
      AddToCounts(groups[1..], heading, line);
      assert AddTo(groups, heading, line)[1..] == AddTo(groups[1..], heading, line);
    } else if groups != [] {
      assert AddTo(groups, heading, line)[1..] == groups[1..];
    }
  }

  /** The four lists a file's matches are sorted into. */
  datatype Sorting = Sorting(defs: seq<Entry>, scopes: seq<Group>, imports: seq<nat>, docs: seq<nat>)

  function Sorted(s: Sorting): multiset<nat> {
    multiset(Shown(s.defs)) + Grouped(s.scopes) + multiset(s.imports) + multiset(s.docs)
  }

  ghost predicate Sorts(s: Sorting, items: seq<Match>) {
    Overflow(s.defs) == 0 && Sorted(s) == multiset(Numbers(items))
    && forall i :: 0 <= i < |s.defs| ==> IsFilled(s.defs[i])
  }

  function SortOne(s: Sorting, x: Match): Sorting {
    match x.kind
    case Def => s.(defs := s.defs + [Entry("def", [x.line], 0)])
    case Import => s.(imports := s.imports + [x.line])
    case Comment => s.(docs := s.docs + [x.line])
    case StringLiteral => s.(docs := s.docs + [x.line])
    case Code => s.(scopes := AddTo(s.scopes, ScopeOf(x), x.line))
    case Text => s.(scopes := AddTo(s.scopes, ScopeOf(x), x.line))
  }

  lemma SnocCount(s: seq<nat>, x: nat)
    ensures multiset(s + [x]) == multiset(s) + multiset{x}
  {
  }

  lemma AddDef(s: Sorting, e: Entry)
    requires e.more == 0 && |e.shown| == 1
    ensures Sorted(s.(defs := s.defs + [e])) == Sorted(s) + multiset{e.shown[0]}
    ensures Overflow(s.defs + [e]) == Overflow(s.defs)
  {
    ShownSnoc(s.defs, e);
    hide Shown, Overflow, Grouped;
    SnocCount(Shown(s.defs), e.shown[0]);
    assert e.shown == [e.shown[0]];
  }

  lemma AddImport(s: Sorting, x: nat)
    ensures Sorted(s.(imports := s.imports + [x])) == Sorted(s) + multiset{x}
  {
    hide Shown, Grouped;
    SnocCount(s.imports, x);
  }

  lemma AddDoc(s: Sorting, x: nat)
    ensures Sorted(s.(docs := s.docs + [x])) == Sorted(s) + multiset{x}
  {
    hide Shown, Grouped;
    SnocCount(s.docs, x);
  }

  lemma AddScope(s: Sorting, heading: string, x: nat)
    ensures Sorted(s.(scopes := AddTo(s.scopes, heading, x))) == Sorted(s) + multiset{x}
  {
    hide Shown, Grouped, AddTo;
    AddToCounts(s.scopes, heading, x);
  }

  lemma SortOneAdds(s: Sorting, x: Match)
    ensures Sorted(SortOne(s, x)) == Sorted(s) + multiset{x.line} && Overflow(SortOne(s, x).defs) == Overflow(s.defs)
  {
    hide Sorted, Overflow;
    match x.kind {
      case Def => AddDef(s, Entry("def", [x.line], 0));
      case Import => AddImport(s, x.line);
      case Comment => AddDoc(s, x.line);
      case StringLiteral => AddDoc(s, x.line);
      case Code => AddScope(s, ScopeOf(x), x.line);
      case Text => AddScope(s, ScopeOf(x), x.line);
    }
  }

  lemma SortOneFilled(s: Sorting, x: Match)
    requires forall i :: 0 <= i < |s.defs| ==> IsFilled(s.defs[i])
    ensures forall i :: 0 <= i < |SortOne(s, x).defs| ==> IsFilled(SortOne(s, x).defs[i])
  {
    hide AddTo;
  }

  lemma SortOneSorts(s: Sorting, items: seq<Match>, x: Match)
    requires Sorts(s, items)
    ensures Sorts(SortOne(s, x), items + [x])
  {
    assert Numbers(items + [x]) == Numbers(items) + [x.line];
    hide Sorted, SortOne, Numbers, Overflow, IsFilled;
    SnocCount(Numbers(items), x.line);
    SortOneAdds(s, x);
    SortOneFilled(s, x);
  }

  // ---------------------------------------------------------------- what comes under which heading

  /** The line numbers of the matches of these kinds, in order. */
  function LinesOf(items: seq<Match>, kinds: set<Kind>): seq<nat> {
    if items == [] then []
    else
      var x := items[|items| - 1];
      LinesOf(items[..|items| - 1], kinds) + (if x.kind in kinds then [x.line] else [])
  }

  /** Code is shown under its scope, and code outside all scopes under a heading of its own. */
  predicate IsCodeIn(x: Match, heading: string) {
    x.kind in {Code, Text} && (if x.scope == "" then heading == "<top>" else heading == x.scope)
  }

  function LinesIn(items: seq<Match>, heading: string): seq<nat> {
    if items == [] then []
    else
      var x := items[|items| - 1];
      LinesIn(items[..|items| - 1], heading) + (if IsCodeIn(x, heading) then [x.line] else [])
  }

  /** Code in `first` occurs before any code in `second`. */
  ghost predicate ComesBefore(items: seq<Match>, first: string, second: string) {
    exists k :: 0 <= k < |items| && IsCodeIn(items[k], first)
      && forall l :: 0 <= l <= k ==> !IsCodeIn(items[l], second)
  }

  /** A group for every scope with code, in the order in which the scopes occur, with the lines of its code. */
  ghost predicate ByScope(groups: seq<Group>, items: seq<Match>) {
    && (forall i :: 0 <= i < |groups| ==>
          groups[i].lines == LinesIn(items, groups[i].heading) && groups[i].lines != [])
    && DistinctHeadings(groups) && InOrder(groups, items)
    && forall heading: string {:trigger InGroups(groups, heading)} ::
         InGroups(groups, heading) <==> LinesIn(items, heading) != []
  }

  ghost predicate DistinctHeadings(groups: seq<Group>) {
    forall i, j :: 0 <= i < j < |groups| ==> groups[i].heading != groups[j].heading
  }

  ghost predicate InOrder(groups: seq<Group>, items: seq<Match>) {
    forall i, j :: 0 <= i < j < |groups| ==> ComesBefore(items, groups[i].heading, groups[j].heading)
  }

  ghost predicate InGroups(groups: seq<Group>, heading: string) {
    exists i :: 0 <= i < |groups| && groups[i].heading == heading
  }

  /** One line for each definition, in order. */
  ghost predicate AreDefinitions(defs: seq<Entry>, items: seq<Match>) {
    Shown(defs) == LinesOf(items, {Def})
    && forall i :: 0 <= i < |defs| ==> defs[i].heading == "def" && |defs[i].shown| == 1 && defs[i].more == 0
  }

  /** Definitions, code by scope, imports, and comments and strings together. */
  ghost predicate ByHeading(s: Sorting, items: seq<Match>) {
    && AreDefinitions(s.defs, items) && ByScope(s.scopes, items)
    && s.imports == LinesOf(items, {Import}) && s.docs == LinesOf(items, {Comment, StringLiteral})
  }

  lemma LinesNext(items: seq<Match>, x: Match, kinds: set<Kind>, heading: string)
    ensures LinesOf(items + [x], kinds) == LinesOf(items, kinds) + (if x.kind in kinds then [x.line] else [])
    ensures LinesIn(items + [x], heading) == LinesIn(items, heading) + (if IsCodeIn(x, heading) then [x.line] else [])
  {
    assert (items + [x])[..|items|] == items;
  }

  lemma {:induction false} Added(groups: seq<Group>, heading: string, line: nat)
    requires DistinctHeadings(groups)
    ensures var t := AddTo(groups, heading, line);
      && |t| >= |groups|
      && (forall i :: 0 <= i < |groups| ==>
            t[i] == if groups[i].heading == heading then Group(heading, groups[i].lines + [line]) else groups[i])
      && (if InGroups(groups, heading) then |t| == |groups| else t == groups + [Group(heading, [line])])
    decreases |groups|
  {
    if groups != [] && groups[0].heading != heading {
      Added(groups[1..], heading, line);
      if i :| 0 <= i < |groups| && groups[i].heading == heading {
        assert groups[1..][i - 1].heading == heading;
      }
    }
  }

  lemma AddedHeadings(groups: seq<Group>, heading: string, line: nat, other: string)
    requires DistinctHeadings(groups)
    ensures InGroups(AddTo(groups, heading, line), other) <==> InGroups(groups, other) || other == heading
  {
    Added(groups, heading, line);
    var t := AddTo(groups, heading, line);
    forall i | 0 <= i < |groups| ensures t[i].heading == groups[i].heading {
    }
    if other == heading && !InGroups(groups, other) {
      assert t[|groups|].heading == other;
    }
    if i :| 0 <= i < |groups| && groups[i].heading == other {
      assert t[i].heading == other;
    }
  }

  lemma {:induction false} SomeLine(items: seq<Match>, heading: string)
    ensures LinesIn(items, heading) != [] <==> exists k :: 0 <= k < |items| && IsCodeIn(items[k], heading)
  {
    if items != [] {
      var n := |items| - 1;
      SomeLine(items[..n], heading);
      if k :| 0 <= k < n && IsCodeIn(items[..n][k], heading) {
        assert IsCodeIn(items[k], heading);
      }
      if k :| 0 <= k < |items| && IsCodeIn(items[k], heading) {
        assert k < n ==> IsCodeIn(items[..n][k], heading);
      }
    }
  }

  lemma StillBefore(items: seq<Match>, x: Match, first: string, second: string)
    requires ComesBefore(items, first, second)
    ensures ComesBefore(items + [x], first, second)
  {
    var k :| 0 <= k < |items| && IsCodeIn(items[k], first) && forall l :: 0 <= l <= k ==> !IsCodeIn(items[l], second);
    assert IsCodeIn((items + [x])[k], first);
  }

  lemma BeforeNew(items: seq<Match>, x: Match, first: string, second: string)
    requires LinesIn(items, first) != [] && LinesIn(items, second) == []
    ensures ComesBefore(items + [x], first, second)
  {
    SomeLine(items, first);
    SomeLine(items, second);
    var k :| 0 <= k < |items| && IsCodeIn(items[k], first);
    assert IsCodeIn((items + [x])[k], first);
  }

  lemma LinesGrow(items: seq<Match>, x: Match, heading: string)
    requires x.kind in {Code, Text}
    ensures LinesIn(items + [x], heading) == LinesIn(items, heading) + (if heading == ScopeOf(x) then [x.line] else [])
  {
    LinesNext(items, x, {}, heading);
  }

  lemma GroupLinesGrow(groups: seq<Group>, items: seq<Match>, x: Match, i: nat)
    requires ByScope(groups, items) && x.kind in {Code, Text}
    ensures var t := AddTo(groups, ScopeOf(x), x.line);
      i < |t| ==> t[i].lines == LinesIn(items + [x], t[i].heading) && t[i].lines != []
  {
    var heading := ScopeOf(x);
    var t := AddTo(groups, heading, x.line);
    Added(groups, heading, x.line);
    assert InGroups(groups, heading) <==> LinesIn(items, heading) != [];
    hide LinesIn, AddTo, InOrder, InGroups;
    if i < |t| {
      LinesGrow(items, x, t[i].heading);
      if i >= |groups| {
        assert [] + [x.line] == [x.line];
      }
    }
  }

  lemma GroupsStayInOrder(groups: seq<Group>, items: seq<Match>, x: Match)
    requires ByScope(groups, items) && x.kind in {Code, Text}
    ensures var t := AddTo(groups, ScopeOf(x), x.line); DistinctHeadings(t) && InOrder(t, items + [x])
  {
    var heading := ScopeOf(x);
    var t := AddTo(groups, heading, x.line);
    Added(groups, heading, x.line);
    assert InGroups(groups, heading) <==> LinesIn(items, heading) != [];
    hide LinesIn, ComesBefore, AddTo, ScopeOf;
    forall i, j | 0 <= i < j < |t|
      ensures t[i].heading != t[j].heading && ComesBefore(items + [x], t[i].heading, t[j].heading)
    {
      assert t[i].heading == groups[i].heading;
      if j < |groups| {
        assert t[j].heading == groups[j].heading;
        StillBefore(items, x, t[i].heading, t[j].heading);
      } else {
        BeforeNew(items, x, t[i].heading, heading);
      }
    }
  }

  lemma GroupsGrow(groups: seq<Group>, items: seq<Match>, x: Match, other: string)
    requires ByScope(groups, items) && x.kind in {Code, Text}
    ensures InGroups(AddTo(groups, ScopeOf(x), x.line), other) <==> LinesIn(items + [x], other) != []
  {
    assert InGroups(groups, other) <==> LinesIn(items, other) != [];
    hide LinesIn, AddTo, InOrder, InGroups, ScopeOf;
    LinesGrow(items, x, other);
    AddedHeadings(groups, ScopeOf(x), x.line, other);
  }

  lemma ScopeGrows(groups: seq<Group>, items: seq<Match>, x: Match)
    requires ByScope(groups, items) && x.kind in {Code, Text}
    ensures ByScope(AddTo(groups, ScopeOf(x), x.line), items + [x])
  {
    GroupsStayInOrder(groups, items, x);
    var t := AddTo(groups, ScopeOf(x), x.line);
    forall i | 0 <= i < |t| ensures t[i].lines == LinesIn(items + [x], t[i].heading) && t[i].lines != [] {
      GroupLinesGrow(groups, items, x, i);
    }
    forall h: string ensures InGroups(t, h) <==> LinesIn(items + [x], h) != [] {
      GroupsGrow(groups, items, x, h);
    }
    hide LinesIn, AddTo, InOrder, InGroups, ScopeOf, DistinctHeadings;
  }

  lemma ScopesStay(groups: seq<Group>, items: seq<Match>, x: Match)
    requires ByScope(groups, items) && x.kind !in {Code, Text}
    ensures ByScope(groups, items + [x])
  {
    hide LinesIn, ComesBefore;
    forall h: string ensures LinesIn(items + [x], h) == LinesIn(items, h) {
      LinesNext(items, x, {}, h);
      assert LinesIn(items, h) + [] == LinesIn(items, h);
    }
    forall i, j | 0 <= i < j < |groups| ensures ComesBefore(items + [x], groups[i].heading, groups[j].heading) {
      StillBefore(items, x, groups[i].heading, groups[j].heading);
    }
  }

  lemma DefinitionsGrow(defs: seq<Entry>, items: seq<Match>, x: Match)
    requires AreDefinitions(defs, items)
    ensures AreDefinitions(if x.kind == Def then defs + [Entry("def", [x.line], 0)] else defs, items + [x])
  {
    hide LinesOf, Shown;
    LinesNext(items, x, {Def}, "");
    ShownSnoc(defs, Entry("def", [x.line], 0));
    assert LinesOf(items, {Def}) + [] == LinesOf(items, {Def});
  }

  lemma ScopesGrow(groups: seq<Group>, items: seq<Match>, x: Match)
    requires ByScope(groups, items)
    ensures ByScope(if x.kind in {Code, Text} then AddTo(groups, ScopeOf(x), x.line) else groups, items + [x])
  {
    if x.kind in {Code, Text} {
      ScopeGrows(groups, items, x);
    } else {
      ScopesStay(groups, items, x);
    }
  }

  lemma LinesGrowOrStay(items: seq<Match>, x: Match, kinds: set<Kind>)
    ensures LinesOf(items + [x], kinds)
      == if x.kind in kinds then LinesOf(items, kinds) + [x.line] else LinesOf(items, kinds)
  {
    LinesNext(items, x, kinds, "");
    hide LinesOf;
    assert LinesOf(items, kinds) + [] == LinesOf(items, kinds);
  }

  lemma SortOneByHeading(s: Sorting, items: seq<Match>, x: Match)
    requires ByHeading(s, items)
    ensures ByHeading(SortOne(s, x), items + [x])
  {
    DefinitionsGrow(s.defs, items, x);
    LinesGrowOrStay(items, x, {Import});
    LinesGrowOrStay(items, x, {Comment, StringLiteral});
    ScopesGrow(s.scopes, items, x);
    hide AreDefinitions, ByScope, LinesOf, AddTo, ScopeOf;
  }

  lemma NothingSorted()
    ensures Sorts(Sorting([], [], [], []), []) && ByHeading(Sorting([], [], [], []), [])
  {
  }

  method SortItems(items: seq<Match>) returns (s: Sorting)
    ensures Sorts(s, items) && ByHeading(s, items)
  {
    hide Sorts, ByHeading, SortOne;
    s := Sorting([], [], [], []);
    NothingSorted();
    for i := 0 to |items|
      invariant Sorts(s, items[..i]) && ByHeading(s, items[..i])
    {
      SortOneSorts(s, items[..i], items[i]);
      SortOneByHeading(s, items[..i], items[i]);
      assert items[..i + 1] == items[..i] + [items[i]];
      s := SortOne(s, items[i]);
    }
    assert items[..|items|] == items;
  }

  // ---------------------------------------------------------------- the three forms

  lemma {:induction false} AccountsGroups(groups: seq<Group>)
    ensures Accounts(NumberLines(groups), Grouped(groups))
  {
    if groups != [] {
      AccountsGroups(groups[1..]);
      NumberLineAccounts(groups[0].heading, groups[0].lines);
      AccountsConcat([NumberLine(groups[0].heading, groups[0].lines)], NumberLines(groups[1..]),
                     multiset(groups[0].lines), Grouped(groups[1..]));
    }
  }

  /** One number line per group. */
  function NumberLines(groups: seq<Group>): seq<Entry> {
    if groups == [] then [] else [NumberLine(groups[0].heading, groups[0].lines)] + NumberLines(groups[1..])
  }

  /** A number line, unless there is nothing to show. */
  function NumbersIfAny(heading: string, numbers: seq<nat>): seq<Entry> {
    if numbers == [] then [] else [NumberLine(heading, numbers)]
  }

  lemma AccountsIfAny(heading: string, numbers: seq<nat>)
    ensures Accounts(NumbersIfAny(heading, numbers), multiset(numbers))
  {
    if numbers != [] {
      NumberLineAccounts(heading, numbers);
    }
  }

  /** One line per number. */
  function Singles(heading: string, numbers: seq<nat>): seq<Entry> {
    if numbers == [] then []
    else Singles(heading, numbers[..|numbers| - 1]) + [Entry(heading, [numbers[|numbers| - 1]], 0)]
  }

  lemma {:induction false} AccountsSingles(heading: string, numbers: seq<nat>)
    ensures Accounts(Singles(heading, numbers), multiset(numbers))
  {
    if numbers != [] {
      var init, last := numbers[..|numbers| - 1], numbers[|numbers| - 1];
      AccountsSingles(heading, init);
      AccountsOne(Entry(heading, [last], 0), multiset{last});
      AccountsConcat(Singles(heading, init), [Entry(heading, [last], 0)], multiset(init), multiset{last});
      assert numbers == init + [last];
    }
  }

  /** A heading without a location, and a line per match, for every scope. */
  function ScopeBlocks(groups: seq<Group>): seq<Entry> {
    if groups == [] then []
    else [Entry(groups[0].heading, [], 0)] + Singles("", groups[0].lines) + ScopeBlocks(groups[1..])
  }

  lemma {:induction false} AccountsBlocks(groups: seq<Group>)
    ensures Accounts(ScopeBlocks(groups), Grouped(groups))
  {
    if groups != [] {
      AccountsBlocks(groups[1..]);
      AccountsOne(Entry(groups[0].heading, [], 0), multiset{});
      AccountsSingles("", groups[0].lines);
      AccountsConcat([Entry(groups[0].heading, [], 0)], Singles("", groups[0].lines), multiset{},
                     multiset(groups[0].lines));
      AccountsConcat([Entry(groups[0].heading, [], 0)] + Singles("", groups[0].lines), ScopeBlocks(groups[1..]),
                     multiset{} + multiset(groups[0].lines), Grouped(groups[1..]));
    }
  }

  lemma AccountsSorted(s: Sorting, items: seq<Match>, scopes: seq<Entry>, imports: seq<Entry>, docs: seq<Entry>)
    requires Sorts(s, items) && Accounts(scopes, Grouped(s.scopes))
    requires Accounts(imports, multiset(s.imports)) && Accounts(docs, multiset(s.docs))
    ensures Accounts(s.defs + scopes + imports + docs, multiset(Numbers(items)))
  {
    AccountsConcat(s.defs, scopes, multiset(Shown(s.defs)), Grouped(s.scopes));
    AccountsConcat(s.defs + scopes, imports, multiset(Shown(s.defs)) + Grouped(s.scopes), multiset(s.imports));
    AccountsConcat(s.defs + scopes + imports, docs,
                   multiset(Shown(s.defs)) + Grouped(s.scopes) + multiset(s.imports), multiset(s.docs));
  }

  /** A line under the heading with the first forty numbers and the number of the others. */
  ghost predicate IsNumberLine(e: Entry, heading: string, numbers: seq<nat>) {
    && e.heading == heading && e.shown <= numbers && |e.shown| + e.more == |numbers|
    && |e.shown| == if |numbers| < 40 then |numbers| else 40
  }

  ghost predicate AreNumberLines(entries: seq<Entry>, groups: seq<Group>) {
    |entries| == |groups|
    && forall i :: 0 <= i < |entries| ==> IsNumberLine(entries[i], groups[i].heading, groups[i].lines)
  }

  /** One such line, or none if there are no numbers. */
  ghost predicate IsOptionalLine(entries: seq<Entry>, heading: string, numbers: seq<nat>) {
    if numbers == [] then entries == [] else |entries| == 1 && IsNumberLine(entries[0], heading, numbers)
  }

  /** A line for each number. */
  ghost predicate AreSingles(entries: seq<Entry>, heading: string, numbers: seq<nat>) {
    |entries| == |numbers| && forall k :: 0 <= k < |entries| ==> entries[k] == Entry(heading, [numbers[k]], 0)
  }

  /** For each group its heading alone, and then a line for each of its numbers. */
  ghost predicate AreBlocks(entries: seq<Entry>, groups: seq<Group>)
    decreases |groups|
  {
    if groups == [] then entries == []
    else
      var n := |groups[0].lines|;
      n < |entries| && entries[0] == Entry(groups[0].heading, [], 0)
      && AreSingles(entries[1..n + 1], "", groups[0].lines) && AreBlocks(entries[n + 1..], groups[1..])
  }

  ghost predicate IsCompact(entries: seq<Entry>, s: Sorting) {
    exists scopes, imports, docs ::
      entries == s.defs + scopes + imports + docs && AreNumberLines(scopes, s.scopes)
      && IsOptionalLine(imports, "import", s.imports) && IsOptionalLine(docs, "doc", s.docs)
  }

  ghost predicate IsFull(entries: seq<Entry>, s: Sorting) {
    exists scopes, imports, docs ::
      entries == s.defs + scopes + imports + docs && AreBlocks(scopes, s.scopes)
      && AreSingles(imports, "import", s.imports) && IsOptionalLine(docs, "doc", s.docs)
  }

  /** What is shown for the matches of a file. */
  ghost predicate AreEntries(entries: seq<Entry>, items: seq<Match>, form: Form) {
    if form == PlainForm || forall x :: x in items ==> x.kind == Text then
      |entries| == |items| && forall i :: 0 <= i < |entries| ==> entries[i] == Entry("", [items[i].line], 0)
    else
      exists s :: ByHeading(s, items) && if form == CompactForm then IsCompact(entries, s) else IsFull(entries, s)
  }

  lemma NumberLineIs(heading: string, numbers: seq<nat>)
    ensures IsNumberLine(NumberLine(heading, numbers), heading, numbers)
    ensures IsOptionalLine(NumbersIfAny(heading, numbers), heading, numbers)
  {
  }

  lemma {:induction false} NumberLinesAre(groups: seq<Group>)
    ensures AreNumberLines(NumberLines(groups), groups)
  {
    if groups != [] {
      NumberLinesAre(groups[1..]);
      NumberLineIs(groups[0].heading, groups[0].lines);
    }
  }

  lemma {:induction false} SinglesAre(heading: string, numbers: seq<nat>)
    ensures AreSingles(Singles(heading, numbers), heading, numbers)
  {
    if numbers != [] {
      SinglesAre(heading, numbers[..|numbers| - 1]);
    }
  }

  lemma {:induction false} BlocksAre(groups: seq<Group>)
    ensures AreBlocks(ScopeBlocks(groups), groups)
  {
    if groups != [] {
      BlocksAre(groups[1..]);
      SinglesAre("", groups[0].lines);
      var entries, n := ScopeBlocks(groups), |groups[0].lines|;
      assert entries[1..n + 1] == Singles("", groups[0].lines);
      assert entries[n + 1..] == ScopeBlocks(groups[1..]);
    }
  }

  method CompactEntries(items: seq<Match>) returns (entries: seq<Entry>, ghost s: Sorting)
    ensures Accounts(entries, multiset(Numbers(items)))
    ensures ByHeading(s, items) && IsCompact(entries, s)
  {
    hide Accounts, ByHeading, Sorts;
    var sorting := SortItems(items);
    s := sorting;
    AccountsGroups(s.scopes);
    AccountsIfAny("import", s.imports);
    AccountsIfAny("doc", s.docs);
    AccountsSorted(s, items, NumberLines(s.scopes), NumbersIfAny("import", s.imports), NumbersIfAny("doc", s.docs));
    NumberLinesAre(s.scopes);
    NumberLineIs("import", s.imports);
    NumberLineIs("doc", s.docs);
    entries := sorting.defs + NumberLines(sorting.scopes) + NumbersIfAny("import", sorting.imports)
      + NumbersIfAny("doc", sorting.docs);
  }

  method FullEntries(items: seq<Match>) returns (entries: seq<Entry>, ghost s: Sorting)
    ensures Accounts(entries, multiset(Numbers(items)))
    ensures ByHeading(s, items) && IsFull(entries, s)
  {
    hide Accounts, ByHeading, Sorts, AreBlocks, AreSingles;
    var sorting := SortItems(items);
    s := sorting;
    AccountsBlocks(s.scopes);
    AccountsSingles("import", s.imports);
    AccountsIfAny("doc", s.docs);
    AccountsSorted(s, items, ScopeBlocks(s.scopes), Singles("import", s.imports), NumbersIfAny("doc", s.docs));
    BlocksAre(s.scopes);
    SinglesAre("import", s.imports);
    NumberLineIs("doc", s.docs);
    entries := sorting.defs + ScopeBlocks(sorting.scopes) + Singles("import", sorting.imports)
      + NumbersIfAny("doc", sorting.docs);
  }

  method TextEntries(items: seq<Match>) returns (entries: seq<Entry>)
    ensures Accounts(entries, multiset(Numbers(items)))
    ensures |entries| == |items| && forall i :: 0 <= i < |items| ==> entries[i] == Entry("", [items[i].line], 0)
  {
    AccountsSingles("", Numbers(items));
    SinglesAre("", Numbers(items));
    entries := Singles("", Numbers(items));
  }

  /** How a file with code is shown. */
  datatype Form = CompactForm | FullForm | PlainForm

  predicate IsPlain(items: seq<Match>) {
    forall i :: 0 <= i < |items| ==> items[i].kind == Text
  }

  method EntriesOf(items: seq<Match>, form: Form) returns (entries: seq<Entry>)
    ensures Accounts(entries, multiset(Numbers(items))) && AreEntries(entries, items, form)
  {
    hide Accounts, ByHeading, IsCompact, IsFull;
    ghost var s;
    if IsPlain(items) || form == PlainForm {
      entries := TextEntries(items);
    } else if form == CompactForm {
      entries, s := CompactEntries(items);
    } else {
      entries, s := FullEntries(items);
    }
  }

  // ---------------------------------------------------------------- the budget

  /** What the lines say: locations shown, lines that carry one, locations left out of a file, and locations
      in files left out. */
  datatype Tally = Tally(shown: nat, bearing: nat, more: nat, hidden: nat)

  function Plus(a: Tally, b: Tally): Tally {
    Tally(a.shown + b.shown, a.bearing + b.bearing, a.more + b.more, a.hidden + b.hidden)
  }

  function TallyOf(line: Line): Tally {
    match line
    case EntryLine(e) => Tally(|e.shown|, if e.shown != [] then 1 else 0, 0, 0)
    case MoreInFile(n) => Tally(0, 0, n, 0)
    case MoreFiles(_, n) => Tally(0, 0, 0, n)
    case _ => Tally(0, 0, 0, 0)
  }

  function TallyAll(lines: seq<Line>): Tally {
    if lines == [] then Tally(0, 0, 0, 0)
    else Plus(TallyAll(lines[..|lines| - 1]), TallyOf(lines[|lines| - 1]))
  }

  lemma TallySnoc(lines: seq<Line>, line: Line)
    ensures TallyAll(lines + [line]) == Plus(TallyAll(lines), TallyOf(line))
  {
    assert (lines + [line])[..|lines|] == lines;
  }

  lemma {:induction false} TallyConcat(a: seq<Line>, b: seq<Line>)
    ensures TallyAll(a + b) == Plus(TallyAll(a), TallyAll(b))
  {
    if b == [] {
      assert a + b == a;
    } else {
      hide TallyAll, TallyOf;
      var init, last := b[..|b| - 1], b[|b| - 1];
      TallyConcat(a, init);
      TallySnoc(a + init, last);
      TallySnoc(init, last);
      LastOfConcat(a, b);
    }
  }

  function EntryLines(entries: seq<Entry>): seq<Line> {
    seq(|entries|, i requires 0 <= i < |entries| => EntryLine(entries[i]))
  }

  /** What is printed for a file when `left` of its matches are not shown. */
  function SectionOf(path: string, entries: seq<Entry>, left: nat): seq<Line> {
    var body := [FileLine(path)] + EntryLines(entries);
    if left > 0 then body + [MoreInFile(left)] else body
  }

  /** What is printed for a file: its path, lines that show matches of the file, none twice, at most 25 of them
      with a location, and the number of matches not shown, if any. */
  ghost predicate IsSection(section: seq<Line>, file: FileGroup, entries: seq<Entry>) {
    && |Shown(entries)| <= |file.items| && multiset(Shown(entries)) <= multiset(Numbers(file.items))
    && section == SectionOf(file.path, entries, |file.items| - |Shown(entries)|)
    && TallyAll(section).bearing <= 25
  }

  lemma {:induction false} EntryTally(entries: seq<Entry>)
    ensures TallyAll(EntryLines(entries)).shown == |Shown(entries)|
    ensures TallyAll(EntryLines(entries)).more == 0 && TallyAll(EntryLines(entries)).hidden == 0
  {
    if entries != [] {
      var n := |entries| - 1;
      EntryTally(entries[..n]);
      assert EntryLines(entries) == EntryLines(entries[..n]) + [EntryLine(entries[n])];
      TallySnoc(EntryLines(entries[..n]), EntryLine(entries[n]));
    }
  }

  lemma SectionTally(path: string, entries: seq<Entry>, left: nat)
    ensures TallyAll(SectionOf(path, entries, left))
      == Tally(|Shown(entries)|, TallyAll(EntryLines(entries)).bearing, left, 0)
  {
    EntryTally(entries);
    PathTally(path);
    hide TallyAll, EntryLines, Shown;
    TallyConcat([FileLine(path)], EntryLines(entries));
    TallySnoc([FileLine(path)] + EntryLines(entries), MoreInFile(left));
  }

  lemma PathTally(path: string)
    ensures TallyAll([FileLine(path)]) == Tally(0, 0, 0, 0)
  {
    assert [FileLine(path)][..0] == [];
  }

  lemma PrefixAccounts(entries: seq<Entry>, numbers: seq<nat>, n: nat)
    requires n <= |entries| && Accounts(entries, multiset(numbers))
    ensures multiset(Shown(entries[..n])) <= multiset(numbers) && |Shown(entries[..n])| <= |numbers|
  {
    assert entries == entries[..n] + entries[n..];
    ShownConcat(entries[..n], entries[n..]);
  }

  /** The first `n` entries are printed. */
  ghost predicate Printed(path: string, entries: seq<Entry>, n: nat, section: seq<Line>, visible: nat, used: nat) {
    n <= |entries| && section == [FileLine(path)] + EntryLines(entries[..n])
    && visible == |Shown(entries[..n])| && used == TallyAll(EntryLines(entries[..n])).bearing
  }

  lemma PrintOne(path: string, entries: seq<Entry>, n: nat, section: seq<Line>, visible: nat, used: nat)
    requires Printed(path, entries, n, section, visible, used) && n < |entries|
    ensures Printed(path, entries, n + 1, section + [EntryLine(entries[n])], visible + |entries[n].shown|,
                    used + (if entries[n].shown != [] then 1 else 0))
  {
    hide Shown, TallyAll;
    var e := entries[n];
    ShownSnoc(entries[..n], e);
    TallySnoc(EntryLines(entries[..n]), EntryLine(e));
    assert entries[..n + 1] == entries[..n] + [e];
    assert EntryLines(entries[..n + 1]) == EntryLines(entries[..n]) + [EntryLine(e)];
  }

  lemma SectionDone(file: FileGroup, entries: seq<Entry>, n: nat, section: seq<Line>, visible: nat, used: nat)
    requires Printed(file.path, entries, n, section, visible, used) && used <= PER_FILE_LINES
    requires Accounts(entries, multiset(Numbers(file.items)))
    ensures visible <= |file.items|
    ensures var whole := SectionOf(file.path, entries[..n], |file.items| - visible);
      IsSection(whole, file, entries[..n]) && TallyAll(whole) == Tally(visible, used, |file.items| - visible, 0)
      && whole == if visible < |file.items| then section + [MoreInFile(|file.items| - visible)] else section
  {
    hide TallyAll, EntryLines, Shown, Accounts, Numbers, TallyOf;
    var printed := entries[..n];
    PrefixAccounts(entries, Numbers(file.items), n);
    assert visible == |Shown(printed)| <= |file.items|;
    SectionTally(file.path, printed, |file.items| - visible);
  }

  /** The first entries of what is shown for these matches. */
  ghost predicate IsPrinted(printed: seq<Entry>, items: seq<Match>, form: Form) {
    exists entries :: AreEntries(entries, items, form) && printed <= entries
  }

  /** The lines of one file, within what is left of the total budget. */
  method RenderFile(file: FileGroup, form: Form, remaining: nat)
    returns (section: seq<Line>, visible: nat, used: nat, ghost printed: seq<Entry>)
    ensures IsSection(section, file, printed)
    ensures visible <= |file.items| && TallyAll(section) == Tally(visible, used, |file.items| - visible, 0)
    ensures used <= remaining
    ensures used < PER_FILE_LINES && used < remaining ==> Accounts(printed, multiset(Numbers(file.items)))
    ensures IsPrinted(printed, file.items, form)
    ensures used < 25 && used < remaining ==> AreEntries(printed, file.items, form)
  {
    hide Shown, TallyAll, Accounts, EntryLines, IsSection, AreEntries;
    var entries := EntriesOf(file.items, form);
    section := [FileLine(file.path)];
    visible, used := 0, 0;
    var n := 0;
    NonePrinted(file.path, entries);
    while n < |entries| && used < PER_FILE_LINES && used < remaining
      invariant n <= |entries| && Printed(file.path, entries, n, section, visible, used)
      invariant used <= PER_FILE_LINES && used <= remaining
    {
      PrintOne(file.path, entries, n, section, visible, used);
      section := section + [EntryLine(entries[n])];
      if |entries[n].shown| > 0 {
        used := used + 1;
        visible := visible + |entries[n].shown|;
      }
      n := n + 1;
    }
    SectionDone(file, entries, n, section, visible, used);
    printed := entries[..n];
    assert n == |entries| ==> printed == entries;
    if visible < |file.items| {
      section := section + [MoreInFile(|file.items| - visible)];
    }
  }

  lemma NonePrinted(path: string, entries: seq<Entry>)
    ensures Printed(path, entries, 0, [FileLine(path)], 0, 0)
  {
    assert entries[..0] == [];
    assert [FileLine(path)] + EntryLines([]) == [FileLine(path)];
  }

  function Flatten(sections: seq<seq<Line>>): seq<Line> {
    if sections == [] then [] else Flatten(sections[..|sections| - 1]) + sections[|sections| - 1]
  }

  datatype Rendered = Rendered(lines: seq<Line>, visible: nat)

  /** A section for each of the first files. */
  ghost predicate AreSections(sections: seq<seq<Line>>, files: seq<FileGroup>, printed: seq<seq<Entry>>) {
    |sections| == |printed| <= |files|
    && forall i {:trigger sections[i]} :: 0 <= i < |sections| ==> IsSection(sections[i], files[i], printed[i])
  }

  /** The output is the header, a section for each of the first files, and a line for the files left out. */
  ghost predicate IsOutput(lines: seq<Line>, files: seq<FileGroup>, sections: seq<seq<Line>>,
                           printed: seq<seq<Entry>>) {
    AreSections(sections, files, printed) && lines == OutputOf(files, sections)
  }

  function OutputOf(files: seq<FileGroup>, sections: seq<seq<Line>>): seq<Line>
    requires |sections| <= |files|
  {
    var body := [Header(Total(files), |files|)] + Flatten(sections);
    if |sections| < |files| then body + [MoreFiles(|files| - |sections|, Total(files[|sections|..]))] else body
  }

  lemma {:induction false} TotalSplits(files: seq<FileGroup>, n: nat)
    requires n <= |files|
    ensures Total(files[..n]) + Total(files[n..]) == Total(files)
    decreases |files| - n
  {
    if n == |files| {
      assert files[..n] == files;
    } else {
      TotalSplits(files[..|files| - 1], n);
      assert files[..|files| - 1][..n] == files[..n];
      assert files[n..][..|files| - 1 - n] == files[..|files| - 1][n..];
    }
  }

  lemma TotalNext(files: seq<FileGroup>, from: nat, i: nat)
    requires from <= i < |files|
    ensures Total(files[from..i + 1]) == Total(files[from..i]) + |files[i].items|
  {
    assert files[from..i + 1][..i - from] == files[from..i];
  }

  /** The lines so far: the header and the sections, with these sums. */
  ghost predicate SoFar(lines: seq<Line>, files: seq<FileGroup>, sections: seq<seq<Line>>,
                        printed: seq<seq<Entry>>, visible: nat, remaining: nat) {
    && AreSections(sections, files, printed)
    && lines == [Header(Total(files), |files|)] + Flatten(sections)
    && visible <= Total(files[..|sections|]) && remaining <= TOTAL_LINES
    && TallyAll(lines) == Tally(visible, TOTAL_LINES - remaining, Total(files[..|sections|]) - visible, 0)
  }

  lemma HeaderTally(total: nat, files: nat)
    ensures TallyAll([Header(total, files)]) == Tally(0, 0, 0, 0)
  {
    assert [Header(total, files)][..0] == [];
  }

  lemma AtFirst(files: seq<FileGroup>)
    ensures SoFar([Header(Total(files), |files|)], files, [], [], 0, TOTAL_LINES)
  {
    NoFiles(files);
    HeaderTally(Total(files), |files|);
    assert [Header(Total(files), |files|)] + Flatten([]) == [Header(Total(files), |files|)];
  }

  lemma OneMoreSection(lines: seq<Line>, files: seq<FileGroup>, sections: seq<seq<Line>>, printed: seq<seq<Entry>>,
                       visible: nat, remaining: nat, section: seq<Line>, entries: seq<Entry>, shown: nat, used: nat)
    requires SoFar(lines, files, sections, printed, visible, remaining) && |sections| < |files| && used <= remaining
    requires IsSection(section, files[|sections|], entries) && shown <= |files[|sections|].items|
    requires TallyAll(section) == Tally(shown, used, |files[|sections|].items| - shown, 0)
    ensures SoFar(lines + section, files, sections + [section], printed + [entries], visible + shown, remaining - used)
  {
    hide TallyAll, Total, IsSection;
    TallyConcat(lines, section);
    TotalNext(files, 0, |sections|);
    assert files[0..|sections|] == files[..|sections|] && files[0..|sections| + 1] == files[..|sections| + 1];
    assert (sections + [section])[..|sections|] == sections;
    assert [Header(Total(files), |files|)] + Flatten(sections) + section
        == [Header(Total(files), |files|)] + (Flatten(sections) + section);
  }

  ghost predicate IsSummed(r: Rendered, total: nat) {
    var t := TallyAll(r.lines);
    t.bearing <= 200 && t.shown + t.more + t.hidden == total && r.visible == t.shown
  }

  lemma AllFilesShown(lines: seq<Line>, files: seq<FileGroup>, sections: seq<seq<Line>>, printed: seq<seq<Entry>>,
                      visible: nat, remaining: nat)
    requires SoFar(lines, files, sections, printed, visible, remaining) && |sections| == |files|
    ensures IsOutput(lines, files, sections, printed) && IsSummed(Rendered(lines, visible), Total(files))
  {
    hide TallyAll, IsSection, Flatten, Total;
    assert files[..|sections|] == files;
  }

  lemma SomeFilesHidden(lines: seq<Line>, files: seq<FileGroup>, sections: seq<seq<Line>>, printed: seq<seq<Entry>>,
                        visible: nat, remaining: nat, hidden: nat)
    requires SoFar(lines, files, sections, printed, visible, remaining) && |sections| < |files|
    requires hidden == Total(files[|sections|..])
    ensures var whole := lines + [MoreFiles(|files| - |sections|, hidden)];
      IsOutput(whole, files, sections, printed) && IsSummed(Rendered(whole, visible), Total(files))
      && TallyAll(whole).bearing == TOTAL_LINES - remaining
  {
    hide TallyAll, IsSection, Flatten, Total, AreSections;
    TotalSplits(files, |sections|);
    TallySnoc(lines, MoreFiles(|files| - |sections|, hidden));
  }

  /** At most 200 lines with a location; the locations shown, the ones left out of files and the ones in files
      left out add up to the total in the header. Files are left out only when the budget is used up. */
  method RenderWithBudget(files: seq<FileGroup>, form: Form)
    returns (r: Rendered, ghost sections: seq<seq<Line>>, ghost printed: seq<seq<Entry>>)
    ensures IsOutput(r.lines, files, sections, printed) && IsSummed(r, Total(files))
    ensures |sections| < |files| ==> TallyAll(r.lines).bearing == 200
    ensures forall i :: 0 <= i < |printed| && i < |files| ==> IsPrinted(printed[i], files[i].items, form)
  {
    hide TallyAll, Total, IsSection, Flatten, IsOutput, IsSummed, IsPrinted;
    var lines := [Header(Total(files), |files|)];
    var visible, remaining, hiddenFiles, hiddenMatches := 0, TOTAL_LINES, 0, 0;
    sections, printed := [], [];
    AtFirst(files);
    NoFiles(files);
    for i := 0 to |files|
      invariant |sections| + hiddenFiles == i && (hiddenFiles > 0 ==> remaining == 0)
      invariant SoFar(lines, files, sections, printed, visible, remaining)
      invariant hiddenMatches == Total(files[|sections|..i])
      invariant forall k :: 0 <= k < |printed| && k < |files| ==> IsPrinted(printed[k], files[k].items, form)
    {
      if remaining == 0 {
        TotalNext(files, |sections|, i);
        hiddenFiles := hiddenFiles + 1;
        hiddenMatches := hiddenMatches + |files[i].items|;
      } else {
        var section, shown, used, entries := RenderFile(files[i], form, remaining);
        OneMoreSection(lines, files, sections, printed, visible, remaining, section, entries, shown, used);
        assert files[i..i] == [] && files[i + 1..i + 1] == [];
        sections, printed := sections + [section], printed + [entries];
        lines := lines + section;
        visible := visible + shown;
        remaining := remaining - used;
      }
    }
    if hiddenFiles == 0 {
      AllFilesShown(lines, files, sections, printed, visible, remaining);
    } else {
      assert files[|sections|..|files|] == files[|sections|..];
      SomeFilesHidden(lines, files, sections, printed, visible, remaining, hiddenMatches);
      lines := lines + [MoreFiles(hiddenFiles, hiddenMatches)];
    }
    r := Rendered(lines, visible);
  }

  lemma NoFiles(files: seq<FileGroup>)
    ensures Total([]) == 0 && Total(files[..0]) == 0
  {
    assert files[..0] == [];
  }

  /** From matches to output: every kept match is shown or counted. */
  method Render(matches: seq<Match>, ignored: string -> bool, form: Form)
    returns (r: Rendered, ghost files: seq<FileGroup>, ghost sections: seq<seq<Line>>,
             ghost printed: seq<seq<Entry>>)
    ensures IsGrouping(files, Kept(matches, ignored)) && IsComplete(files, Kept(matches, ignored))
    ensures IsOutput(r.lines, files, sections, printed) && IsSummed(r, |Kept(matches, ignored)|)
    ensures forall i :: 0 <= i < |printed| && i < |files| ==> IsPrinted(printed[i], files[i].items, form)
  {
    var groups := GroupByFile(matches, ignored);
    files := groups;
    r, sections, printed := RenderWithBudget(groups, form);
  }
}
