/** Where runs start, four runs that end with a stale graph nobody will refresh, and one that ends with a
    stale row: each takes one of the named steps, so none of the conditions of the results about freshness
    and rows can be dropped. */
module LiveScenarios {
  import opened Basics
  import opened CodeModel
  import opened VectorRows
  import opened LiveModel
  import opened LiveShape
  import opened LiveFreshness
  import opened LiveConvergence
  import opened LiveRows

  /** No live index runs and every stored generation agrees with the disk. */
  ghost predicate Initial(s: System) {
    && s.live.Down? && s.round.Idle? && s.persist.NoPersist? && s.loader.NoLoad? && s.lock in {Free, ByOther}
    && s.pointer in s.stored && s.tables.Keys == s.stored.Keys
    && (forall g :: g in s.stored ==> g < s.next)
    && (forall f: FileId :: StampsAt(s, f))
    && (forall g :: g in s.stored ==> AllFit(s.disk, s.clock, s.stored[g].manifest, s.stored[g].graph))
  }

  lemma InitialAgrees(s: System, level: Level, f: FileId, e: Option<Stamp>)
    requires Initial(s)
    ensures Agrees(level, s, f, e)
  {
    forall p | Pair(level, s, f, e, p) ensures Fits(s.clock, At(s.disk, f), e, p) {
      var g :| g in s.stored && e == Entry(s.stored[g].manifest, f) && p == PartOf(s.stored[g].graph, f);
      AllFitAt(s.disk, s.clock, s.stored[g].manifest, s.stored[g].graph, f);
    }
  }

  /** Everything the results about runs ask of their first state holds initially. */
  lemma InitialIsFresh(s: System)
    requires Initial(s)
    ensures Shape(s) && Matching(s) && Clean(Process, s) && Clean(Saved, s)
  {
    forall f: FileId ensures MatchingAt(s, f) {
      assert StampsAt(s, f);
      forall k: Stamp ensures Agrees(Mixed, s, f, Some(k)) { InitialAgrees(s, Mixed, f, Some(k)); }
    }
    forall f: FileId, level: Level ensures Agrees(level, s, f, None) { InitialAgrees(s, level, f, None); }
  }

  // ---------------------------------------------------------------- stale graphs

  const F: FileId := "./a.go"
  const NODE := CodeNode(NodeId(F, "file"), File, F, [], false, "")
  const TEXT := Source(Part([NODE], {}))

  /** One generation with nothing in it; `disk` holds at most one file, stamped 0. */
  function Start(disk: Disk): System {
    System(disk, 1, 0, 1, Free, map[0 := Stored(map[], map[])], map[0 := []], Down, Idle, NoPersist, NoLoad)
  }

  lemma StartIsInitial(body: Body)
    ensures Initial(Start(map[F := Present(0, true, body)]))
  {
  }

  /** Taking one more step. */
  lemma Step(s: System, done: seq<Action>, t: System, a: Action) returns (done': seq<Action>, t': System)
    requires Runs(s, done) && Final(s, done) == t && Enabled(t, a)
    ensures done' == done + [a] && t' == Next(t, a)
    ensures Runs(s, done') && Final(s, done') == t'
  {
    done', t' := done + [a], Next(t, a);
    RunsSnoc(s, done, a);
  }

  lemma Load(s: System, done: seq<Action>, t: System) returns (done': seq<Action>, t': System)
    requires Runs(s, done) && Final(s, done) == t
    requires t.loader.NoLoad? && t.live.Down? && t.pointer in t.stored
    ensures Runs(s, done') && Final(s, done') == t'
    ensures t' == t.(live := Up(t.pointer, t.stored[t.pointer].graph, t.stored[t.pointer].manifest,
                                0, 0, true, false, {}, false, false))
  {
    done', t' := Step(s, done, t, Lives(LoadManifest));
    done', t' := Step(s, done', t', Lives(LoadGraph));
  }

  /** From the lock to the swap, for a round that replaces the one file `F`, or nothing. */
  lemma Commit(s: System, done: seq<Action>, t: System) returns (done': seq<Action>, t': System)
    requires Runs(s, done) && Final(s, done) == t
    requires RoundIn(t, Embedded) && t.lock == Free && t.pointer == t.live.generation
    requires t.round.batches == [] && t.round.prepared.Keys <= {F}
    requires t.live.generation in t.tables && t.tables[t.live.generation] == []
    ensures Runs(s, done') && Final(s, done') == t'
    ensures t'.live.Up? && t' == t.(round := Idle, live := t.live.(
      graph := t.live.graph + t.round.prepared, dirty := t.round.retry,
      manifest := RestoreRetryFiles(t.live.manifest, t.round.next, t.round.retry),
      version := t.live.version + 1, needsRescan := false, tableOpen := t'.live.tableOpen))
  {
    hide Runs, Final;
    done', t' := Lock(s, done, t);
    done', t' := Delete(s, done', t');
    done', t' := Step(s, done', t', Commits(SwapGraph));
  }

  lemma Delete(s: System, done: seq<Action>, t: System) returns (done': seq<Action>, t': System)
    requires Runs(s, done) && Final(s, done) == t
    requires RoundIn(t, Deleting) && t.round.todo == t.round.prepared.Keys <= {F}
    requires t.live.generation in t.tables && t.tables[t.live.generation] == []
    ensures Runs(s, done') && Final(s, done') == t'
    ensures RoundIn(t', Deleting) && t'.round == t.round.(todo := {}, kept := t'.round.kept)
    ensures t' == t.(round := t'.round, live := t.live.(tableOpen := t'.live.tableOpen))
  {
    hide Runs, Final, KeptWithout;
    done', t' := done, t;
    if F in t.round.todo {
      assert t.round.todo == {F};
      done', t' := Step(s, done, t, Commits(DeleteRows(F)));
      assert t'.round.todo == {};
      assert t'.tables == t.tables;
    } else {
      assert t.round.todo == {};
    }
  }

  lemma Lock(s: System, done: seq<Action>, t: System) returns (done': seq<Action>, t': System)
    requires Runs(s, done) && Final(s, done) == t
    requires RoundIn(t, Embedded) && t.lock == Free && t.pointer == t.live.generation
    ensures Runs(s, done') && Final(s, done') == t'
    ensures t' == t.(lock := ByRound, live := t.live.(dirty := t.round.files),
                     round := t.round.(phase := Deleting, todo := t.round.prepared.Keys))
  {
    hide Runs, Final;
    done', t' := Step(s, done, t, Commits(TakeLock));
    done', t' := Step(s, done', t', Commits(CheckPointer));
  }

  /** Scanning for the one file `F`, up to the files to prepare. */
  lemma ScanFor(s: System, done: seq<Action>, t: System) returns (done': seq<Action>, t': System)
    requires Runs(s, done) && Final(s, done) == t
    requires t.live.Up? && t.round.Idle? && !t.live.superseded
    requires FullScope(t.disk, t.live.manifest) <= {F}
    ensures Runs(s, done') && Final(s, done') == t'
    ensures t' == AfterScan(t.(round := Active(
      Scanning, {}, WithEntry(t.live.manifest, F, View(At(t.disk, F))), {}, map[], {}, map[], [], false, [], {}, map[])))
  {
    done', t' := Step(s, done, t, Refreshes(Begin({F})));
    done', t' := Step(s, done', t', Refreshes(ScanOne(F)));
    assert t'.round.todo == {};
    done', t' := Step(s, done', t', Refreshes(ScanDone));
  }

  /** Preparing `F` from its text, up to the embedding of its nodes, of which there are none. */
  lemma PrepareText(s: System, done: seq<Action>, t: System) returns (done': seq<Action>, t': System)
    requires Runs(s, done) && Final(s, done) == t
    requires RoundIn(t, Preparing) && t.round.todo == {F} && t.round.nodes == []
    requires t.round.batches == [] && t.round.prepared == map[]
    requires At(t.disk, F).Present? && At(t.disk, F).body == TEXT
    requires t.live.generation in t.tables && t.tables[t.live.generation] == []
    ensures Runs(s, done') && Final(s, done') == t'
    ensures t' == t.(live := t.live.(tableOpen := true), round := t.round.(
      phase := Embedded, todo := {}, prepared := map[F := TEXT.part], embedded := true))
  {
    done', t' := Step(s, done, t, Refreshes(PrepareOk(F)));
    assert t'.round.todo == {};
    assert Passes(t.disk, F) == {} && t.round.passed + {} == t.round.passed;
    assert Embeddable(F, TEXT.part.nodes) == [] by {
      assert TEXT.part.nodes[1..] == [];
    }
    assert t'.round.known == t.round.known;
    done', t' := Step(s, done', t', Refreshes(EmbedDone([])));
  }

  /** A round that indexes the new text file `F`. */
  lemma IndexText(s: System, done: seq<Action>, t: System) returns (done': seq<Action>, t': System)
    requires Runs(s, done) && Final(s, done) == t
    requires t.live.Up? && t.round.Idle? && !t.live.superseded && t.lock == Free
    requires t.pointer == t.live.generation && t.disk.Keys == {F} && t.live.manifest == map[]
    requires t.live.graph == map[] && t.live.dirty == {}
    requires View(At(t.disk, F)).Some? && At(t.disk, F).body == TEXT
    requires t.live.generation in t.tables && t.tables[t.live.generation] == []
    ensures Runs(s, done') && Final(s, done') == t'
    ensures t'.live.Up? && t' == t.(live := t.live.(
      graph := map[F := TEXT.part], manifest := map[F := At(t.disk, F).stamp],
      version := t.live.version + 1, needsRescan := false, tableOpen := t'.live.tableOpen))
  {
    done', t' := ScanFor(s, done, t);
    assert Differing(map[], map[F := At(t.disk, F).stamp]) == {F};
    done', t' := PrepareText(s, done', t');
    var stamp := At(t.disk, F).stamp;
    assert t'.round.next == map[F := stamp];
    done', t' := Commit(s, done', t');
    assert RestoreRetryFiles(map[], map[F := stamp], {}) == map[F := stamp];
    assert t'.live.graph == map[] + map[F := TEXT.part] == map[F := TEXT.part];
  }

  /** Persisting stops by a crash after the graph has been renamed. */
  lemma CrashAfterGraph(s: System, done: seq<Action>, t: System) returns (done': seq<Action>, t': System)
    requires Runs(s, done) && Final(s, done) == t
    requires t.live.Up? && t.round.Idle? && t.persist.NoPersist? && t.loader.NoLoad? && !t.live.superseded
    requires t.lock == Free && t.live.version != t.live.persistedVersion
    requires t.pointer == t.live.generation && t.pointer in t.stored
    ensures Runs(s, done') && Final(s, done') == t'
    ensures t' == t.(live := Down,
      stored := t.stored[t.pointer := Stored(t.live.graph, t.stored[t.pointer].manifest)])
  {
    done', t' := Step(s, done, t, Saves(Snapshot));
    done', t' := Step(s, done', t', Saves(CheckCurrent));
    done', t' := Step(s, done', t', Saves(WaitLock));
    done', t' := Step(s, done', t', Saves(CheckCurrent));
    done', t' := Step(s, done', t', Saves(RenameGraph));
    done', t' := Step(s, done', t', Lives(Crash));
  }

  lemma PutOff(s: System, done: seq<Action>, t: System) returns (done': seq<Action>, t': System)
    requires Runs(s, done) && Final(s, done) == t
    requires RoundIn(t, Preparing) && t.round.todo == {F} && t.round.nodes == [] && At(t.disk, F).Present?
    requires t.round.batches == []
    ensures Runs(s, done') && Final(s, done') == t'
    ensures t' == t.(round := t.round.(
      phase := Embedded, todo := {}, retry := t.round.retry + {F}, embedded := true))
  {
    hide Runs, Final;
    done', t' := Step(s, done, t, Refreshes(PrepareRetry(F)));
    assert t'.round.todo == {} && t'.round.passed == t.round.passed;
    assert Flatten([]) == EmbedAll([], t'.round.known);
    done', t' := Step(s, done', t', Refreshes(EmbedDone([])));
  }

  /** A round in which the new text file `F` is unreadable: it stays unlisted and dirty. */
  lemma FailToRead(s: System, done: seq<Action>, t: System) returns (done': seq<Action>, t': System)
    requires Runs(s, done) && Final(s, done) == t
    requires t.live.Up? && t.round.Idle? && !t.live.superseded && t.lock == Free
    requires t.pointer == t.live.generation && t.disk.Keys == {F} && t.live.manifest == map[]
    requires t.live.graph == map[] && t.live.dirty == {} && View(At(t.disk, F)).Some?
    requires t.live.generation in t.tables && t.tables[t.live.generation] == []
    ensures Runs(s, done') && Final(s, done') == t'
    ensures t'.live.Up? && t' == t.(live := t.live.(dirty := {F}, version := t.live.version + 1, needsRescan := false,
                                     tableOpen := t'.live.tableOpen))
  {
    hide Runs, Final;
    done', t' := ScanFor(s, done, t);
    assert Differing(map[], map[F := At(t.disk, F).stamp]) == {F};
    done', t' := PutOff(s, done', t');
    done', t' := Commit(s, done', t');
    assert t'.live.manifest == map[];
    assert t'.live.graph == map[];
  }

  /** An unlisted file that a retry adds to the graph and that is deleted before the next full scan:
      it was unreadable in the first round, so its entry was taken back; the next, targeted round
      prepares it because it is dirty but does not scan it; its deletion then changes nothing the
      manifest lists. */
  lemma RetriedThenDeleted()
    ensures var s := Start(map[F := Present(0, true, TEXT)]);
      Initial(s) && exists actions :: Runs(s, actions) && MissesAChange(Final(s, actions))
  {
    StartIsInitial(TEXT);
    var s := Start(map[F := Present(0, true, TEXT)]);
    var done, t := Load(s, [], s);
    done, t := FailToRead(s, done, t);
    done, t := Step(s, done, t, Refreshes(Begin({})));
    done, t := Step(s, done, t, Refreshes(ScanDone));
    assert Differing(map[], map[]) == {};
    assert t.round.todo == {F};
    done, t := PrepareText(s, done, t);
    done, t := Commit(s, done, t);
    assert t.live.manifest == map[];
    done, t := Step(s, done, t, Edits(Remove(F)));
    assert FullScope(t.disk, t.live.manifest) == {};
    assert PartOf(t.live.graph, F) != Fresh(At(t.disk, F));
  }

  /** A file that starts to be ignored while it still exists: the walk drops it from the manifest, but
      preparing it reads it again, so its nodes stay. */
  lemma IgnoredButKept()
    ensures var s := Start(map[F := Present(0, true, TEXT)]);
      Initial(s) && exists actions :: Runs(s, actions) && MissesAChange(Final(s, actions))
  {
    StartIsInitial(TEXT);
    var s := Start(map[F := Present(0, true, TEXT)]);
    var done, t := Load(s, [], s);
    done, t := IndexText(s, done, t);
    done, t := Step(s, done, t, Edits(SetVisible(F, false)));
    assert t.disk.Keys == {F};
    done, t := ScanFor(s, done, t);
    assert map[F := 0] - {F} == map[];
    assert Differing(map[F := 0], map[]) == {F};
    done, t := PrepareText(s, done, t);
    done, t := Commit(s, done, t);
    assert t.live.manifest == map[];
    assert PartOf(t.live.graph, F) != Fresh(At(t.disk, F));
    assert View(At(t.disk, F)).None?;
  }

  /** A crash between the two renames: the stored graph has a new file that the stored manifest does not
      list. When the file is deleted before the index is loaded again, even a full round keeps it. */
  lemma CrashBetweenRenames()
    ensures var s := Start(map[F := Present(0, true, TEXT)]);
      Initial(s) && exists actions :: Runs(s, actions) && MissesAChange(Final(s, actions))
  {
    StartIsInitial(TEXT);
    var s := Start(map[F := Present(0, true, TEXT)]);
    var done, t := Load(s, [], s);
    done, t := IndexText(s, done, t);
    done, t := CrashAfterGraph(s, done, t);
    done, t := Step(s, done, t, Edits(Remove(F)));
    assert t.disk == map[];
    done, t := Load(s, done, t);
    done, t := ScanFor(s, done, t);
    assert Differing(map[], map[] - {F}) == {};
    assert FullScope(t.disk, t.live.manifest) == {};
    assert PartOf(t.live.graph, F) != Fresh(At(t.disk, F));
  }

  /** An indexed file that is replaced by a link out of the project: the walk drops it from the manifest, and
      preparing follows the link and passes over it, so its nodes stay. */
  lemma LinkedElsewhere()
    ensures var s := Start(map[F := Present(0, true, TEXT)]);
      Initial(s) && exists actions :: Runs(s, actions) && MissesAChange(Final(s, actions))
  {
    StartIsInitial(TEXT);
    var s := Start(map[F := Present(0, true, TEXT)]);
    var done, t := Load(s, [], s);
    done, t := IndexText(s, done, t);
    done, t := Step(s, done, t, Edits(MakeLink(F, None)));
    assert t.disk.Keys == {F};
    done, t := ScanFor(s, done, t);
    assert map[F := 0] - {F} == map[];
    assert Differing(map[F := 0], map[]) == {F};
    done, t := PassOver(s, done, t);
    done, t := Commit(s, done, t);
    assert t.live.manifest == map[];
    assert View(At(t.disk, F)).None? && PartOf(t.live.graph, F) != Fresh(At(t.disk, F));
  }

  lemma PassOver(s: System, done: seq<Action>, t: System) returns (done': seq<Action>, t': System)
    requires Runs(s, done) && Final(s, done) == t
    requires RoundIn(t, Preparing) && t.round.todo == {F} && t.round.nodes == [] && At(t.disk, F) == Link(None)
    requires t.round.batches == [] && t.round.prepared == map[]
    ensures Runs(s, done') && Final(s, done') == t'
    ensures t' == t.(round := t.round.(
      phase := Embedded, todo := {}, passed := t.round.passed + {F}, embedded := true))
  {
    hide Runs, Final;
    done', t' := Step(s, done, t, Refreshes(PrepareOk(F)));
    assert t'.round.todo == {};
    assert Flatten([]) == EmbedAll([], t'.round.known);
    done', t' := Step(s, done', t', Refreshes(EmbedDone([])));
  }

  // ---------------------------------------------------------------- a skipped deletion

  const FUNCTION := CodeNode(NodeId(F, "function:symbol:0:0"), Function, "f", [], false, "func f() {}")
  const CODE := Part([NODE, FUNCTION], {})

  /** One generation with the file `F` and the row of its function; since then the file has been deleted. */
  function Indexed(): System {
    System(map[], 1, 0, 1, Free, map[0 := Stored(map[F := CODE], map[F := 0])], map[0 := RowsFor(F, CODE)],
           Down, Idle, NoPersist, NoLoad)
  }

  lemma OneRow()
    ensures |RowsFor(F, CODE)| == 1 && Owned(RowsFor(F, CODE), F) == RowsFor(F, CODE)
    ensures RowsFor(F, EMPTY_PART) == [] && TablesExact(Indexed())
  {
    assert CODE.nodes[1..] == [FUNCTION] && CODE.nodes[1..][1..] == [];
    assert Embeddable(F, CODE.nodes[1..][1..]) == [];
    assert Embeddable(F, CODE.nodes[1..]) == [Queued(F, FUNCTION)];
    assert Embeddable(F, CODE.nodes) == [Queued(F, FUNCTION)];
    RowsForOwned(F, CODE.nodes, F);
    ReuseIsFresh(Embeddable(F, CODE.nodes), map[]);
  }

  /** The first round after a load only removes a file, so nothing has opened the table; opening it for the
      deletion fails, and the deletion counts as done. The row of the file stays for good: nothing is dirty,
      every entry matches, and no later round takes the file up. */
  lemma SkippedDeletion()
    ensures var s := Indexed();
      Initial(s) && TablesExact(s) && exists actions :: Runs(s, actions) && var t := Final(s, actions);
        t.live.Up? && t.round.Idle? && t.live.dirty == {} && !Pending(t) && UpToDate(t)
        && !RowsFit(t, F) && !Reread(t, FullScope(t.disk, t.live.manifest), F)
  {
    OneRow();
    var s := Indexed();
    assert Initial(s) by { IndexedIsInitial(); }
    hide RowsFor;
    var done, t := Load(s, [], s);
    done, t := ScanFor(s, done, t);
    assert map[F := 0] - {F} == map[];
    assert Differing(map[F := 0], map[]) == {F};
    done, t := RemoveFile(s, done, t);
    done, t := SkipAndSwap(s, done, t);
    assert t.live.manifest == map[] && t.disk == map[];
    assert PartOf(t.live.graph, F) == EMPTY_PART;
    forall f: FileId ensures PartOf(t.live.graph, f) == Fresh(At(t.disk, f)) {
    }
    assert LiveTable(t) == RowsFor(F, CODE);
  }

  lemma IndexedIsInitial()
    ensures Initial(Indexed())
  {
  }

  lemma RemoveFile(s: System, done: seq<Action>, t: System) returns (done': seq<Action>, t': System)
    requires Runs(s, done) && Final(s, done) == t
    requires RoundIn(t, Preparing) && t.round.todo == {F} && t.round.nodes == [] && t.disk == map[]
    requires t.round.prepared == map[]
    ensures Runs(s, done') && Final(s, done') == t'
    ensures RoundIn(t', Embedded) && t' == t.(round := t'.round) && t'.round.retry == t.round.retry
    ensures t'.round.prepared == map[F := EMPTY_PART] && t'.round.batches == [] && t'.round.next == t.round.next
  {
    hide Runs, Final, Owned, RowsFor, KnownVectors, Covered;
    done', t' := Step(s, done, t, Refreshes(PrepareOk(F)));
    assert t'.round.todo == {} && t'.round.nodes == [];
    assert Flatten([]) == EmbedAll([], t'.round.known);
    done', t' := Step(s, done', t', Refreshes(EmbedDone([])));
  }

  lemma SkipAndSwap(s: System, done: seq<Action>, t: System) returns (done': seq<Action>, t': System)
    requires Runs(s, done) && Final(s, done) == t
    requires RoundIn(t, Embedded) && t.round.prepared == map[F := EMPTY_PART] && t.round.batches == []
    requires t.round.retry == {} && t.round.next == map[] && !t.live.tableOpen
    requires t.lock == Free && t.pointer == t.live.generation && t.live.graph == map[F := CODE]
    requires t.live.manifest == map[F := 0]
    ensures Runs(s, done') && Final(s, done') == t'
    ensures t'.live.Up? && t'.round.Idle? && t'.live.dirty == {} && t'.disk == t.disk && t'.tables == t.tables
    ensures t'.live.generation == t.live.generation && t'.live.manifest == map[]
    ensures t'.live.graph == map[F := EMPTY_PART] && t'.live.superseded == t.live.superseded
  {
    hide Runs, Final, Owned, RowsFor;
    done', t' := Lock(s, done, t);
    done', t' := Step(s, done', t', Commits(SkipRows(F)));
    assert t'.round.todo == {};
    done', t' := Step(s, done', t', Commits(SwapGraph));
    assert RestoreRetryFiles(map[F := 0], map[], {}) == map[];
    assert map[F := CODE] + map[F := EMPTY_PART] == map[F := EMPTY_PART];
  }
}
