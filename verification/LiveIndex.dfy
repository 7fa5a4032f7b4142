/** The live index as an object: its methods change its fields step by step while the editor, other
    processes and its own other tasks run between the steps. Each method takes only steps of the
    transition system, so every result about runs holds of what the object does. */
module LiveIndexObject {
  import opened Basics
  import opened CodeModel
  import opened VectorRows
  import opened LiveModel
  import opened LiveShape
  import opened LiveFreshness
  import opened LiveConvergence
  import opened LiveRows
  import opened ReportedPaths
  import NodeBatches

  datatype Refresh = Applied | Superseded | Failed

  datatype Saved = Persisted | NothingNew | Outdated | Broken

  /** The task a method runs in: a round or a pending check holds the state lock, a persist the gate. */
  datatype Task = HoldingState | HoldingGate

  /** The files that applying these paths compares: those in scope, or all, if an earlier round did not end, an
      ignore file is among the paths or there are too many. */
  function ScopeOf(s: System, paths: seq<FileId>): set<FileId>
    requires s.live.Up?
  {
    var all := FullScope(s.disk, s.live.manifest);
    if s.live.needsRescan || TouchesIgnoreRules(paths) || |paths| > MAX_TARGETED_PATHS then all
    else set f | f in all && InScope(f, paths)
  }

  /** The reported paths concern the file: all files, if an earlier round did not end, an ignore file was reported
      or more than 128 paths were. */
  ghost predicate Concerns(s: System, paths: seq<FileId>, f: FileId)
    requires s.live.Up?
  {
    s.live.needsRescan || ReportsRules(paths) || |paths| > 128 || IsReported(paths, f)
  }

  /** What is compared is what the reported paths concern. */
  lemma ScopeIs(s: System, paths: seq<FileId>, f: FileId)
    requires s.live.Up?
    ensures f in ScopeOf(s, paths) <==> !Unknown(s, f) && Concerns(s, paths, f)
  {
    RulesAreReported(paths);
    FilesAreReported(paths, f);
    hide TouchesIgnoreRules, ReportsRules, InScope, IsReported;
  }

  /** What applying reported paths promises of the files they concern: they are listed as they are on disk; those
      that the walk sees have the part that they have on disk, and so do the others exactly under the condition
      that could be checked before. */
  ghost predicate Follows(s: System, paths: seq<FileId>, t: System)
    requires s.live.Up? && t.live.Up?
  {
    forall f: FileId :: Concerns(s, paths, f) ==>
      && Entry(t.live.manifest, f) == View(At(t.disk, f))
      && (View(At(t.disk, f)).Some? ==> PartOf(t.live.graph, f) == Fresh(At(t.disk, f)))
      && (PartOf(t.live.graph, f) == Fresh(At(t.disk, f)) <==> RepairableAt(s, ScopeOf(s, paths), f))
  }

  lemma ConvergedFollows(s: System, paths: seq<FileId>, t: System)
    requires Shape(s) && Matching(s) && s.live.Up? && Converged(s, ScopeOf(s, paths), t)
    ensures t.live.Up? && Follows(s, paths, t)
  {
    var scope := ScopeOf(s, paths);
    assert Settled(s, scope, t);
    hide Shape, Matching, Settled, ConvergedAt, Concerns, RepairableAt, UpToDate, Repairable, RowsFit;
    forall f: FileId | Concerns(s, paths, f)
      ensures Entry(t.live.manifest, f) == View(At(t.disk, f))
      ensures View(At(t.disk, f)).Some? ==> PartOf(t.live.graph, f) == Fresh(At(t.disk, f))
      ensures PartOf(t.live.graph, f) == Fresh(At(t.disk, f)) <==> RepairableAt(s, scope, f)
    {
      ScopeIs(s, paths, f);
      ScopedPart(s, scope, t, f);
    }
  }

  /** What may happen while a task waits: edits, other processes, and the steps of the other task that
      do not need the lock this task holds. */
  predicate Meanwhile(task: Task, a: Action) {
    a.Edits? || a.Others? || a == Lives(OpenTable)
    || (task.HoldingState? && a.Saves? && !a.save.Snapshot? && !a.save.EndSave?)
    || (task.HoldingGate? && (a.Refreshes? || a.Commits?))
  }

  /** A step that is no start, no failure and no end of a round. */
  predicate Within(a: Action) {
    !(a.Refreshes? && a.read.Begin?) && a != Commits(FailRound) && (a.Lives? ==> a.process.OpenTable?)
  }

  /** What has been done since goes on with the round. */
  ghost predicate GoesOn(before: seq<Action>, after: seq<Action>) {
    before <= after && forall i :: |before| <= i < |after| ==> Within(after[i])
  }

  /** The last step since then was to give up the round. */
  ghost predicate GaveUp(before: seq<Action>, after: seq<Action>) {
    before < after && after[|after| - 1] == Commits(FailRound)
  }

  lemma GaveUpSince(a: seq<Action>, b: seq<Action>, c: seq<Action>)
    requires a <= b && GaveUp(b, c)
    ensures GaveUp(a, c)
  {
  }

  lemma GivesUp(a: seq<Action>, b: seq<Action>)
    requires a <= b
    ensures GaveUp(a, b + [Commits(FailRound)])
  {
  }

  /** Since then a persist was given up. */
  ghost predicate GaveUpSaving(before: seq<Action>, after: seq<Action>) {
    before <= after && Saves(FailSave) in after[|before|..]
  }

  lemma GaveUpLater(a: seq<Action>, b: seq<Action>, c: seq<Action>, d: seq<Action>)
    requires a <= b && GaveUpSaving(b, c) && c <= d
    ensures GaveUpSaving(a, d)
  {
    var i :| 0 <= i < |c[|b|..]| && c[|b|..][i] == Saves(FailSave);
    assert d[|a|..][|b| - |a| + i] == c[|b|..][i];
  }

  lemma GoesOnNow(a: seq<Action>)
    ensures GoesOn(a, a)
  {
  }

  lemma GoesOnThrough(a: seq<Action>, b: seq<Action>, c: seq<Action>, d: seq<Action>)
    requires GoesOn(a, b) && GoesOn(b, c) && GoesOn(c, d)
    ensures GoesOn(a, d)
  {
  }

  lemma NoEditsBefore(before: seq<Action>, seen: seq<Action>, a: Action)
    requires before <= seen && NoEditsSince(before, seen + [a])
    ensures NoEditsSince(before, seen) && !a.Edits?
  {
    forall i | |before| <= i < |seen| ensures !seen[i].Edits? {
      assert (seen + [a])[i] == seen[i];
    }
    assert (seen + [a])[|seen|] == a;
  }

  /** After the deletion of the files `gone`: of each, what skipped deletions have kept; of the others, unless
      a path clashes, everything, in order. */
  ghost predicate RowsGone(table: Table, after: Table, gone: set<FileId>, kept: map<FileId, seq<Row>>) {
    && kept.Keys <= gone
    && (forall f :: f in gone ==> Owned(after, f) == if f in kept then kept[f] else [])
    && forall f: FileId :: f !in gone && NoClash(gone, f) ==> Owned(after, f) == Owned(table, f)
  }

  ghost predicate NoClash(files: set<FileId>, f: FileId) {
    forall g :: g in files ==> !Clash(g, f)
  }

  /** And the new rows come after them. */
  ghost predicate RowsReplaced(table: Table, after: Table, gone: set<FileId>, kept: map<FileId, seq<Row>>,
                               rows: seq<Row>) {
    && (forall f :: f in gone ==> Owned(after, f) == (if f in kept then kept[f] else []) + Owned(rows, f))
    && forall f: FileId :: f !in gone && NoClash(gone, f) ==> Owned(after, f) == Owned(table, f) + Owned(rows, f)
  }

  lemma NothingGone(table: Table)
    ensures RowsGone(table, table, {}, map[])
  {
  }

  lemma OneGone(now: Table, f: FileId, g: FileId)
    requires RowsNamed(now)
    ensures Owned(Without(now, f), g) == Without(Owned(now, g), f)
    ensures g == f ==> Owned(Without(now, f), g) == []
    ensures g != f && !Clash(f, g) ==> Owned(Without(now, f), g) == Owned(now, g)
  {
    WithoutOwned(now, f, g);
    WithoutFile(now, f, g);
  }

  lemma KeptGone(now: Table, gone: set<FileId>, kept: map<FileId, seq<Row>>, f: FileId)
    requires forall g :: g in gone ==> Owned(now, g) == if g in kept then kept[g] else []
    requires kept.Keys <= gone && f !in gone && RowsNamed(now)
    ensures var left := KeptWithout(kept, f);
      forall g :: g in gone + {f} ==> Owned(Without(now, f), g) == if g in left then left[g] else []
  {
    assert Without([], f) == [];
    hide Owned, Without, Clash, RowsNamed;
    var left := KeptWithout(kept, f);
    forall g | g in gone + {f} ensures Owned(Without(now, f), g) == if g in left then left[g] else [] {
      OneGone(now, f, g);
    }
  }

  lemma MoreGone(table: Table, now: Table, gone: set<FileId>, kept: map<FileId, seq<Row>>, f: FileId)
    requires RowsGone(table, now, gone, kept) && f !in gone && RowsNamed(now)
    ensures RowsGone(table, Without(now, f), gone + {f}, KeptWithout(kept, f))
  {
    hide Owned, Without, Clash, RowsNamed;
    KeptGone(now, gone, kept, f);
    forall g: FileId | g !in gone + {f} && NoClash(gone + {f}, g)
      ensures Owned(Without(now, f), g) == Owned(table, g)
    {
      OneGone(now, f, g);
      assert NoClash(gone, g) && !Clash(f, g);
    }
  }

  lemma SkipOne(table: Table, now: Table, gone: set<FileId>, kept: map<FileId, seq<Row>>, f: FileId)
    requires RowsGone(table, now, gone, kept) && f !in gone
    ensures RowsGone(table, now, gone + {f}, kept[f := Owned(now, f)])
  {
    forall g: FileId | g !in gone + {f} && NoClash(gone + {f}, g) ensures NoClash(gone, g) {
    }
  }

  lemma Replaced(table: Table, left: Table, gone: set<FileId>, kept: map<FileId, seq<Row>>, rows: seq<Row>)
    requires RowsGone(table, left, gone, kept)
    ensures RowsReplaced(table, left + rows, gone, kept, rows)
  {
    hide Owned, NoClash;
    forall f: FileId ensures Owned(left + rows, f) == Owned(left, f) + Owned(rows, f) {
      OwnedConcat(left, rows, f);
    }
  }

  /** What a round over `scope` that was applied promises: nothing is dirty; the files in scope and those that
      were dirty have the part they have on disk exactly under conditions that could be checked before; and so
      has the whole graph, if everything was in scope. Once the table is open, the rows of a file fit exactly
      if the round read the file or they fitted before. */
  ghost predicate Converged(s: System, scope: set<FileId>, t: System)
    requires s.live.Up?
  {
    && Settled(s, scope, t)
    && (forall f: FileId :: f in scope || f in s.live.dirty ==> ConvergedAt(s, scope, t, f))
    && (FullScope(s.disk, s.live.manifest) <= scope ==> (UpToDate(t) <==> Repairable(s, scope)))
    && (s.live.tableOpen ==> forall f: FileId :: ReadsNoClash(s, scope, f) ==>
                               (RowsFit(t, f) <==> Reread(s, scope, f) || RowsFit(s, f)))
  }

  ghost predicate ConvergedAt(s: System, scope: set<FileId>, t: System, f: FileId)
    requires s.live.Up? && t.live.Up?
  {
    && (f in scope ==> Entry(t.live.manifest, f) == View(At(t.disk, f)))
    && (PartOf(t.live.graph, f) == Fresh(At(t.disk, f)) <==> RepairableAt(s, scope, f))
  }

  /** The end of a run is a run of its own. */
  lemma {:induction false} RunsSplit(s: System, a: seq<Action>, b: seq<Action>)
    requires Runs(s, a + b)
    ensures Runs(s, a) && Runs(Final(s, a), b) && Final(s, a + b) == Final(Final(s, a), b)
    decreases |a|
  {
    if a == [] {
      assert a + b == b;
    } else {
      assert (a + b)[1..] == a[1..] + b;
      RunsSplit(Next(s, a[0]), a[1..], b);
    }
  }

  lemma CalmRound(before: seq<Action>, scope: set<FileId>, after: seq<Action>)
    requires GoesOn(before + [Refreshes(Begin(scope))], after) && CalmSince(before, after)
    ensures var round := after[|before|..];
      after == before + round && round != [] && round[0] == Refreshes(Begin(scope)) && AllUndisturbed(round[1..])
      && NoCrash(round)
  {
    var round := after[|before|..];
    forall i | 0 <= i < |round[1..]| ensures Undisturbed(round[1..][i]) {
      assert round[1..][i] == after[|before| + 1 + i];
    }
    forall i | 0 <= i < |round| ensures round[i] != Lives(Crash) {
      assert i == 0 || Undisturbed(round[1..][i - 1]);
    }
  }

  /** What the object did since `before`, when nothing disturbed it, is a round over its scope. */
  lemma RoundIsRun(start: System, before: seq<Action>, scope: set<FileId>, after: seq<Action>)
    requires Shape(start) && Matching(start) && TablesExact(start) && Runs(start, before) && Runs(start, after)
    requires GoesOn(before + [Refreshes(Begin(scope))], after) && CalmSince(before, after)
    requires Final(start, before).live.Up? && Final(start, before).round.Idle?
    requires InUse(Final(start, after))
    ensures Converged(Final(start, before), scope, Final(start, after))
  {
    CalmRound(before, scope, after);
    var round := after[|before|..];
    RunsSplit(start, before, round);
    MatchingRun(start, before);
    TablesRun(start, before);
    RoundConverges(Final(start, before), scope, round);
  }

  lemma RoundConverges(s: System, scope: set<FileId>, round: seq<Action>)
    requires Shape(s) && Matching(s) && TablesExact(s) && s.live.Up? && s.round.Idle?
    requires Runs(s, round) && RoundOver(s, scope, round) && NoCrash(round) && InUse(Final(s, round))
    ensures Converged(s, scope, Final(s, round))
  {
    var t := Final(s, round);
    RoundSettles(s, scope, round);
    forall f: FileId | f in scope || f in s.live.dirty ensures ConvergedAt(s, scope, t, f) {
      SettledPart(s, scope, t, f);
    }
    if FullScope(s.disk, s.live.manifest) <= scope { FullRoundConverges(s, scope, round); }
    if s.live.tableOpen {
      forall f: FileId | ReadsNoClash(s, scope, f)
        ensures RowsFit(t, f) <==> Reread(s, scope, f) || RowsFit(s, f)
      {
        RoundRepairsRows(s, scope, round, f);
      }
    }
    hide Shape, Matching, TablesExact, Settled, ConvergedAt, UpToDate, Repairable, ReadsNoClash, RowsFit, Reread;
  }

  ghost predicate NoEditsSince(before: seq<Action>, after: seq<Action>) {
    forall i :: |before| <= i < |after| ==> !after[i].Edits?
  }

  /** Since then no file was edited, none was unreadable and the embedder answered. */
  ghost predicate CalmSince(before: seq<Action>, after: seq<Action>) {
    forall i :: |before| <= i < |after| ==>
      !after[i].Edits?
      && !(after[i].Refreshes? && (after[i].read.PrepareRetry? || after[i].read.EmbedUnavailable?))
  }

  /** The disk, the activation files and the stored generations. */
  class Host {
    var disk: Disk
    var clock: Stamp
    var pointer: Generation
    var next: Generation
    var lock: Holder
    var stored: map<Generation, Stored>
    var tables: map<Generation, Table>

    constructor (s: System)
      ensures disk == s.disk && clock == s.clock && pointer == s.pointer && next == s.next
      ensures lock == s.lock && stored == s.stored && tables == s.tables
    {
      disk, clock, pointer, next := s.disk, s.clock, s.pointer, s.next;
      lock, stored, tables := s.lock, s.stored, s.tables;
    }

    method Set(s: System)
      modifies this
      ensures disk == s.disk && clock == s.clock && pointer == s.pointer && next == s.next
      ensures lock == s.lock && stored == s.stored && tables == s.tables
    {
      disk, clock, pointer, next := s.disk, s.clock, s.pointer, s.next;
      lock, stored, tables := s.lock, s.stored, s.tables;
    }
  }

  class LiveIndex {
    const host: Host
    const generation: Generation
    var graph: Graph
    var manifest: Manifest
    var version: nat
    var persistedVersion: nat
    var needsRescan: bool
    var superseded: bool
    var dirty: set<FileId>
    var semanticUnavailable: bool
    var tableOpen: bool

    /** What `apply_delta` and `persist` keep in locals while they run. */
    var round: Round
    var persist: Persist

    /** The run so far. */
    ghost const start: System
    ghost var actions: seq<Action>

    function Sys(): System
      reads this, host
    {
      System(host.disk, host.clock, host.pointer, host.next, host.lock, host.stored, host.tables,
             Up(generation, graph, manifest, version, persistedVersion, needsRescan, superseded, dirty,
                semanticUnavailable, tableOpen),
             round, persist, NoLoad)
    }

    /** The object is in a state that a run from a consistent start reaches. */
    ghost predicate Valid()
      reads this, host
    {
      && Shape(start) && Matching(start) && TablesExact(start)
      && Runs(start, actions) && Final(start, actions) == Sys()
    }

    /** Loading reads the manifest before the graph. Between the two anything may happen that does not
        end with another live index of this project running: one may run, persist and end. */
    constructor Load(before: System, between: seq<Action>)
      requires Shape(before) && Matching(before) && TablesExact(before) && ProcessEnabled(before, LoadManifest)
      requires Runs(ProcessNext(before, LoadManifest), between)
      requires Lives(LoadGraph) !in between && Final(ProcessNext(before, LoadManifest), between).live.Down?
      ensures Valid() && start == before
      ensures manifest == before.stored[before.pointer].manifest
      ensures var s := Final(ProcessNext(before, LoadManifest), between);
        before.pointer in s.stored && graph == s.stored[before.pointer].graph && generation == before.pointer
      ensures version == 0 && persistedVersion == 0 && needsRescan && !superseded && dirty == {}
    {
      var loading := ProcessNext(before, LoadManifest);
      ShapeStep(before, Lives(LoadManifest));
      LoadingRuns(loading, between);
      var s := Final(loading, between);
      assert [Lives(LoadManifest)][1..] == [];
      assert Runs(loading, []) && Final(loading, []) == loading;
      assert Runs(before, [Lives(LoadManifest)]) && Final(before, [Lives(LoadManifest)]) == loading;
      RunsConcat(before, [Lives(LoadManifest)], between);
      RunsSnoc(before, [Lives(LoadManifest)] + between, Lives(LoadGraph));
      host := new Host(s);
      generation := s.loader.generation;
      graph := s.stored[s.loader.generation].graph;
      manifest := s.loader.manifest;
      version, persistedVersion, needsRescan, superseded, dirty := 0, 0, true, false, {};
      semanticUnavailable, tableOpen := false, false;
      round, persist := Idle, NoPersist;
      start := before;
      actions := [Lives(LoadManifest)] + between + [Lives(LoadGraph)];
    }

    /** The step just made is the step `a` of the transition system. */
    ghost method Record(a: Action)
      requires Shape(start) && Matching(start) && TablesExact(start)
      requires Runs(start, actions) && Enabled(Final(start, actions), a)
      requires Next(Final(start, actions), a) == Sys()
      modifies this`actions
      ensures Valid() && actions == old(actions) + [a]
      ensures Within(a) ==> GoesOn(old(actions), actions)
    {
      RunsSnoc(start, actions, a);
      actions := actions + [a];
    }

    ghost predicate Consistent()
      reads this, host
      requires Valid()
    {
      Shape(Sys()) && Matching(Sys()) && TablesExact(Sys())
    }

    lemma AlwaysConsistent()
      requires Valid()
      ensures Consistent()
    {
      MatchingRun(start, actions);
      TablesRun(start, actions);
    }

    /** The fields take the values of a later state of this live index. */
    method Become(t: System)
      requires t.live.Up? && t.live.generation == generation && t.loader.NoLoad?
      modifies this, host
      ensures Sys() == t && actions == old(actions)
    {
      host.Set(t);
      graph, manifest, version, persistedVersion :=
        t.live.graph, t.live.manifest, t.live.version, t.live.persistedVersion;
      needsRescan, superseded, dirty, semanticUnavailable, tableOpen :=
        t.live.needsRescan, t.live.superseded, t.live.dirty, t.live.semanticUnavailable, t.live.tableOpen;
      round, persist := t.round, t.persist;
    }

    /** One step of others. */
    method Foreign(task: Task, a: Action)
      requires Valid() && Enabled(Sys(), a) && Meanwhile(task, a)
      modifies this, host
      ensures Valid() && actions == old(actions) + [a] && Sys() == Next(old(Sys()), a)
      ensures LeftAlone(task, old(Sys()), Sys()) && (task.HoldingState? ==> GoesOn(old(actions), actions))
    {
      hide Matching, TablesExact, Runs, Final;
      AlwaysConsistent();
      MeanwhileFrame(task, Sys(), a);
      Become(Next(Sys(), a));
      Record(a);
    }

    /** Any number of steps of others. */
    method Wait(task: Task)
      requires Valid()
      modifies this, host
      ensures Valid() && old(actions) <= actions
      ensures LeftAlone(task, old(Sys()), Sys()) && (task.HoldingState? ==> GoesOn(old(actions), actions))
      ensures NoEditsSince(old(actions), actions) ==> host.disk == old(host.disk)
    {
      hide Shape, Matching, TablesExact, Runs, Final;
      var steps: nat := *;
      while 0 < steps
        invariant Valid() && old(actions) <= actions
        invariant LeftAlone(task, old(Sys()), Sys()) && (task.HoldingState? ==> GoesOn(old(actions), actions))
        invariant NoEditsSince(old(actions), actions) ==> host.disk == old(host.disk)
      {
        var a: Action := *;
        if Meanwhile(task, a) && Enabled(Sys(), a) {
          ghost var seen := actions;
          if !a.Edits? { SameDisk(Sys(), a); }
          Foreign(task, a);
          if NoEditsSince(old(actions), actions) { NoEditsBefore(old(actions), seen, a); }
        }
        steps := steps - 1;
      }
    }

    // -------------------------------------------------------------- a refresh round

    /** The round stops with an error; nothing of it is applied. */
    method Abort()
      requires Valid() && round.Active?
      modifies this, host
      ensures Valid() && actions == old(actions) + [Commits(FailRound)]
      ensures round.Idle? && SameIndex(old(Sys()), Sys())
    {
      round := Idle;
      host.lock := Released(host.lock, ByRound);
      Record(Commits(FailRound));
    }

    /** Others take steps; then the round may stop with an error. */
    method Pause() returns (ok: bool)
      requires Valid() && round.Active?
      modifies this, host
      ensures Valid() && old(actions) <= actions && SameIndex(old(Sys()), Sys())
      ensures if ok then LeftAlone(HoldingState, old(Sys()), Sys()) && GoesOn(old(actions), actions)
              else round.Idle? && GaveUp(old(actions), actions)
    {
      hide Valid, GoesOn;
      Wait(HoldingState);
      ok := *;
      if !ok { Abort(); }
    }

    /** Comparing the files of `scope` with the manifest, one by one. */
    method Scan(scope: set<FileId>) returns (ok: bool)
      requires Valid() && round.Idle? && !superseded
      requires needsRescan ==> FullScope(host.disk, manifest) <= scope
      modifies this, host
      ensures Valid() && old(actions) <= actions && SameIndex(old(Sys()), Sys())
      ensures if ok then RoundIn(Sys(), Scanning) && round.todo == {}
              else round.Idle? && GaveUp(old(actions), actions)
      ensures ok ==> GoesOn(old(actions) + [Refreshes(Begin(scope))], actions)
    {
      hide Shape, Matching, TablesExact, Runs, Final;
      hide Valid, GoesOn, FullScope;
      BeginRound(scope);
      ghost var begun := actions;
      GoesOnNow(begun);
      while round.todo != {}
        invariant Valid() && old(actions) <= actions && SameIndex(old(Sys()), Sys())
        invariant RoundIn(Sys(), Scanning) && GoesOn(begun, actions)
        decreases round.todo
      {
        ghost var seen := actions;
        var going := Pause();
        if !going {
          return false;
        }
        ghost var waited := actions;
        var f :| f in round.todo;
        ScanFile(f);
        GoesOnThrough(begun, seen, waited, actions);
      }
      ok := true;
    }

    method BeginRound(scope: set<FileId>)
      requires Valid() && round.Idle? && !superseded
      requires needsRescan ==> FullScope(host.disk, manifest) <= scope
      modifies this, host
      ensures Valid() && actions == old(actions) + [Refreshes(Begin(scope))]
      ensures SameIndex(old(Sys()), Sys()) && RoundIn(Sys(), Scanning) && round.todo == scope
    {
      round := Active(Scanning, scope, manifest, {}, map[], {}, map[], [], false, [], {}, map[]);
      Record(Refreshes(Begin(scope)));
    }

    method ScanFile(f: FileId)
      requires Valid() && RoundIn(Sys(), Scanning) && f in round.todo
      modifies this, host
      ensures Valid() && actions == old(actions) + [Refreshes(ScanOne(f))] && GoesOn(old(actions), actions)
      ensures SameIndex(old(Sys()), Sys()) && RoundIn(Sys(), Scanning)
      ensures round == old(round).(todo := old(round.todo) - {f},
                                   next := WithEntry(old(round.next), f, View(At(old(host.disk), f))))
    {
      round := round.(todo := round.todo - {f}, next := WithEntry(round.next, f, View(At(host.disk, f))));
      Record(Refreshes(ScanOne(f)));
    }

    /** Reading, parsing and collecting the known vectors of every file of the round. Each ends up prepared,
        put off, or passed over because its path leads elsewhere. */
    method PrepareFileChanges() returns (ok: bool)
      requires Valid() && RoundIn(Sys(), Preparing)
      modifies this, host
      ensures Valid() && old(actions) <= actions && SameIndex(old(Sys()), Sys())
      ensures if ok then RoundIn(Sys(), Preparing) && round.todo == {} && round.files == old(round.files)
              else round.Idle? && GaveUp(old(actions), actions)
      ensures ok ==> round.files <= round.prepared.Keys + round.retry + round.passed
      ensures ok ==> GoesOn(old(actions), actions)
    {
      hide Valid;
      while round.todo != {}
        invariant Valid() && old(actions) <= actions && SameIndex(old(Sys()), Sys())
        invariant RoundIn(Sys(), Preparing) && round.files == old(round.files) && GoesOn(old(actions), actions)
        decreases round.todo
      {
        ghost var seen := actions;
        var going := Pause();
        if !going {
          return false;
        }
        ghost var waited := actions;
        var f :| f in round.todo;
        var unreadable: bool := *;
        if unreadable && Target(host.disk, f).Some? {
          PutOff(f);
        } else {
          PrepareFile(f);
        }
        GoesOnThrough(old(actions), seen, waited, actions);
      }
      AlwaysConsistent();
      assert Rounds(Sys());
      ok := true;
    }

    /** A file that cannot be read now is kept for a later round, under the id its path leads to. */
    method PutOff(f: FileId)
      requires Valid() && RoundIn(Sys(), Preparing) && f in round.todo && Target(host.disk, f).Some?
      modifies this, host
      ensures Valid() && actions == old(actions) + [Refreshes(PrepareRetry(f))] && GoesOn(old(actions), actions)
      ensures SameIndex(old(Sys()), Sys())
      ensures round == old(round).(todo := old(round).todo - {f},
                                   retry := old(round).retry + {Target(old(host.disk), f).value},
                                   passed := old(round).passed + Passes(old(host.disk), f))
    {
      round := round.(todo := round.todo - {f}, retry := round.retry + {Target(host.disk, f).value},
                      passed := round.passed + Passes(host.disk, f));
      Record(Refreshes(PrepareRetry(f)));
    }

    /** The path is followed. What it leads to is prepared under its own id: a file that is gone or unreadable
        for good contributes nothing, otherwise its text is parsed. A path out of the project is passed over. */
    method PrepareFile(f: FileId)
      requires Valid() && RoundIn(Sys(), Preparing) && f in round.todo
      modifies this, host
      ensures Valid() && actions == old(actions) + [Refreshes(PrepareOk(f))] && GoesOn(old(actions), actions)
      ensures SameIndex(old(Sys()), Sys()) && RoundIn(Sys(), Preparing)
      ensures round.todo == old(round.todo) - {f} && round.files == old(round.files)
      ensures round.passed == old(round.passed) + Passes(old(host.disk), f)
      ensures round.prepared == match Target(old(host.disk), f)
        case None => old(round.prepared)
        case Some(g) => old(round.prepared)[g := Read(At(old(host.disk), g))]
      ensures Target(old(host.disk), f).Some? ==>
        forall r :: r in LiveTable(old(Sys())) && Covers(Target(old(host.disk), f).value, r.id) ==>
          r.text in round.known
      ensures tableOpen <==> old(tableOpen) || LeadsToText(old(host.disk), f)
      ensures Target(old(host.disk), f).Some? ==>
        Queues(old(round.nodes), round.nodes, Target(old(host.disk), f).value,
               Read(At(old(host.disk), Target(old(host.disk), f).value)))
    {
      hide Shape, Matching, TablesExact, Runs, Final;
      hide Target, NotQueued, Queues;
      var target := Target(host.disk, f);
      if target.None? {
        round := round.(todo := round.todo - {f}, passed := round.passed + {f});
      } else {
        var g := target.value;
        var part := Read(At(host.disk, g));
        var existing := Covered(LiveTable(Sys()), g);
        CoveredIsKnown(LiveTable(Sys()), g);
        NewNodesQueue(round, g, part);
        round := round.(
          todo := round.todo - {f},
          passed := round.passed + Passes(host.disk, f),
          prepared := round.prepared[g := part],
          known := round.known + KnownVectors(existing),
          nodes := round.nodes + NewNodes(round, g, part));
        tableOpen := tableOpen || HasText(At(host.disk, g));
      }
      Record(Refreshes(PrepareOk(f)));
    }

    method GoOnWithoutVectors()
      requires Valid() && RoundIn(Sys(), Preparing) && round.todo == {}
      modifies this, host
      ensures Valid() && actions == old(actions) + [Refreshes(EmbedUnavailable)]
      ensures Sys().live == old(Sys()).live.(semanticUnavailable := true, tableOpen := tableOpen)
      ensures RoundIn(Sys(), Embedded) && round == old(round).(phase := Embedded)
      ensures GoesOn(old(actions), actions)
    {
      semanticUnavailable := true;
      round := round.(phase := Embedded);
      Record(Refreshes(EmbedUnavailable));
    }

    /** A request that may fail, or find the embedder unreachable; otherwise it is answered. */
    method AwaitEmbedder() returns (outcome: Option<bool>)
      requires Valid() && RoundIn(Sys(), Preparing) && round.todo == {}
      modifies this, host
      ensures Valid() && old(actions) <= actions
      ensures Sys().live == old(Sys()).live.(semanticUnavailable := semanticUnavailable, tableOpen := tableOpen)
      ensures outcome.None? ==> SameIndex(old(Sys()), Sys()) && round == old(round)
      ensures outcome == Some(false) ==>
        round.Idle? && SameIndex(old(Sys()), Sys()) && GaveUp(old(actions), actions)
      ensures outcome == Some(true) ==>
        semanticUnavailable && RoundIn(Sys(), Embedded) && round == old(round).(phase := Embedded)
      ensures outcome != Some(false) ==> GoesOn(old(actions), actions)
    {
      hide Valid;
      var going := Pause();
      if !going {
        return Some(false);
      }
      if * {
        GoOnWithoutVectors();
        return Some(true);
      }
      outcome := None;
    }

    method FinishEmbedding(batches: seq<seq<Row>>)
      requires Valid() && RoundIn(Sys(), Preparing) && round.todo == {}
      requires Flatten(batches) == EmbedAll(round.nodes, round.known)
      modifies this, host
      ensures Valid() && actions == old(actions) + [Refreshes(EmbedDone(batches))]
      ensures SameIndex(old(Sys()), Sys()) && GoesOn(old(actions), actions)
      ensures RoundIn(Sys(), Embedded)
      ensures round == old(round).(phase := Embedded, embedded := true, batches := batches)
    {
      round := round.(phase := Embedded, embedded := true, batches := batches);
      Record(Refreshes(EmbedDone(batches)));
    }

    /** Embedding the prepared nodes request by request. If the embedder cannot be reached the round goes
        on without vectors and the index says so. */
    method EmbedPrepared(configuredSize: Option<NodeBatches.Usize>, configuredBytes: Option<NodeBatches.Usize>)
      returns (ok: bool)
      requires Valid() && RoundIn(Sys(), Preparing) && round.todo == {}
      modifies this, host
      ensures Valid() && old(actions) <= actions
      ensures Sys().live == old(Sys()).live.(semanticUnavailable := semanticUnavailable, tableOpen := tableOpen)
      ensures old(semanticUnavailable) ==> semanticUnavailable
      ensures if ok then RoundIn(Sys(), Embedded) && round.files == old(round.files)
              else round.Idle? && GaveUp(old(actions), actions)
      ensures ok ==> GoesOn(old(actions), actions) && round.prepared == old(round.prepared)
      ensures ok && !semanticUnavailable ==> round.embedded
      ensures ok && round.embedded && !old(round.embedded) ==>
        Flatten(round.batches) == EmbedAll(old(round.nodes), old(round.known))
        && AreRowsOf(Flatten(round.batches), old(round.nodes))
    {
      KnownIsExact();
      EmbeddedRows(round.nodes, round.known);
      hide Valid, GoesOn, EmbedAll, Flatten, NodeBatches.Joined, KnownExact, AreRowsOf;
      ghost var before := actions;
      var queue, known := round.nodes, round.known;
      var nodes := seq(|queue|, i requires 0 <= i < |queue| => queue[i].node);
      var requests := NodeBatches.Batches(nodes, configuredSize, configuredBytes);
      var batches, outcome := EmbedRequests(requests, queue, known);
      if outcome.Some? {
        return outcome.value;
      }
      ghost var answered := actions;
      FinishEmbedding(batches);
      GoesOnNow(before);
      GoesOnThrough(before, before, answered, actions);
      ok := true;
    }

    /** The vectors read from the table are those of their texts. */
    lemma KnownIsExact()
      requires Valid() && round.Active?
      ensures KnownExact(round.known)
    {
      AlwaysConsistent();
    }

    /** The requests one after the other, until one fails or finds the embedder unreachable. */
    method EmbedRequests(requests: seq<seq<CodeNode>>, queue: seq<Queued>, known: Known)
      returns (batches: seq<seq<Row>>, outcome: Option<bool>)
      requires Valid() && RoundIn(Sys(), Preparing) && round.todo == {}
      requires |NodeBatches.Joined(requests)| == |queue|
      modifies this, host
      ensures Valid() && old(actions) <= actions
      ensures Sys().live == old(Sys()).live.(semanticUnavailable := semanticUnavailable, tableOpen := tableOpen)
      ensures outcome.None? ==>
        SameIndex(old(Sys()), Sys()) && round == old(round) && Flatten(batches) == EmbedAll(queue, known)
      ensures outcome == Some(false) ==>
        round.Idle? && SameIndex(old(Sys()), Sys()) && GaveUp(old(actions), actions)
      ensures outcome == Some(true) ==>
        semanticUnavailable && RoundIn(Sys(), Embedded) && round == old(round).(phase := Embedded)
      ensures outcome != Some(false) ==> GoesOn(old(actions), actions)
    {
      hide Valid, EmbedAll, Flatten, NodeBatches.Joined;
      batches := [];
      var k, done := 0, 0;
      assert requests[0..] == requests;
      NothingEmbedded(queue, known);
      while k < |requests|
        invariant Valid() && old(actions) <= actions && SameIndex(old(Sys()), Sys())
        invariant round == old(round) && GoesOn(old(actions), actions)
        invariant 0 <= k <= |requests| && 0 <= done <= |queue|
        invariant done + |NodeBatches.Joined(requests[k..])| == |queue|
        invariant Flatten(batches) == EmbedAll(queue[..done], known)
      {
        ghost var seen := actions;
        outcome := AwaitEmbedder();
        if outcome.Some? {
          return;
        }
        batches, done := EmbedRequest(requests, k, queue, done, known, batches);
        k := k + 1;
      }
      AllEmbedded(requests, k, queue, done);
      outcome := None;
    }

    /** With the lock held: deleting the old rows of every prepared file. When the table cannot be opened, a
        deletion is skipped and counts as done. */
    method DeleteOldRows() returns (ok: bool)
      requires Valid() && RoundIn(Sys(), Deleting) && generation in host.tables && host.lock == ByRound
      requires round.todo == round.prepared.Keys && round.kept == map[]
      modifies this, host
      ensures Valid() && old(actions) <= actions && SameIndex(old(Sys()), Sys())
      ensures if ok then RoundIn(Sys(), Deleting) && host.lock == ByRound && generation in host.tables
                         && round == old(round).(todo := {}, kept := round.kept)
              else round.Idle? && GaveUp(old(actions), actions)
      ensures ok ==> GoesOn(old(actions), actions)
      ensures ok ==> RowsGone(old(host.tables[generation]), host.tables[generation], round.prepared.Keys, round.kept)
      ensures ok && old(tableOpen) ==> round.kept == map[]
    {
      hide Valid, GoesOn, RowsGone, KeptWithout;
      ghost var table := host.tables[generation];
      GoesOnNow(actions);
      NothingGone(table);
      assert round.prepared.Keys - round.todo == {};
      while round.todo != {}
        invariant Valid() && old(actions) <= actions && SameIndex(old(Sys()), Sys())
        invariant RoundIn(Sys(), Deleting) && generation in host.tables && host.lock == ByRound
        invariant round == old(round).(todo := round.todo, kept := round.kept)
        invariant round.todo <= round.prepared.Keys && GoesOn(old(actions), actions)
        invariant RowsGone(table, host.tables[generation], round.prepared.Keys - round.todo, round.kept)
        invariant old(tableOpen) ==> round.kept == map[]
        decreases round.todo
      {
        ghost var seen := actions;
        var going := DropRows(table);
        if !going {
          return false;
        }
        GoesOnNow(actions);
        GoesOnThrough(old(actions), seen, actions, actions);
      }
      assert round.prepared.Keys - round.todo == round.prepared.Keys;
      ok := true;
    }

    /** The rows of one more file. */
    method DropRows(ghost table: Table) returns (ok: bool)
      requires Valid() && RoundIn(Sys(), Deleting) && generation in host.tables && host.lock == ByRound
      requires round.todo != {} && round.todo <= round.prepared.Keys
      requires RowsGone(table, host.tables[generation], round.prepared.Keys - round.todo, round.kept)
      modifies this, host
      ensures Valid() && old(actions) <= actions && SameIndex(old(Sys()), Sys())
      ensures if ok then RoundIn(Sys(), Deleting) && host.lock == ByRound && generation in host.tables
                         && round == old(round).(todo := round.todo, kept := round.kept)
                         && round.todo < old(round.todo) && GoesOn(old(actions), actions)
              else round.Idle? && GaveUp(old(actions), actions)
      ensures ok ==> RowsGone(table, host.tables[generation], round.prepared.Keys - round.todo, round.kept)
      ensures ok && old(tableOpen) && old(round.kept) == map[] ==> round.kept == map[]
    {
      hide Valid, GoesOn, RowsGone, KeptWithout;
      ghost var before := actions;
      ok := Pause();
      if !ok {
        return;
      }
      ghost var waited, gone := actions, round.prepared.Keys - round.todo;
      var f :| f in round.todo;
      var unopened: bool := *;
      if unopened && !tableOpen {
        SkipRowsOf(f, table);
      } else {
        DeleteRowsOf(f, table);
      }
      GoesOnNow(before);
      GoesOnThrough(before, before, waited, actions);
      assert round.prepared.Keys - round.todo == gone + {f};
    }

    method DeleteRowsOf(f: FileId, ghost table: Table)
      requires Valid() && RoundIn(Sys(), Deleting) && generation in host.tables && host.lock == ByRound
      requires f in round.todo
      requires RowsGone(table, host.tables[generation], round.prepared.Keys - round.todo, round.kept)
      modifies this, host
      ensures Valid() && actions == old(actions) + [Commits(DeleteRows(f))] && GoesOn(old(actions), actions)
      ensures SameIndex(old(Sys()), Sys()) && host.lock == ByRound && generation in host.tables
      ensures round.Active? && round == old(round).(todo := old(round.todo) - {f}, kept := round.kept)
      ensures old(round.kept) == map[] ==> round.kept == map[]
      ensures RowsGone(table, host.tables[generation], old(round.prepared.Keys - round.todo) + {f}, round.kept)
    {
      hide Shape, Matching, TablesExact, Runs, Final;
      AlwaysConsistent();
      LiveTableExact(Sys());
      MoreGone(table, host.tables[generation], round.prepared.Keys - round.todo, round.kept, f);
      hide RowsGone, RowsNamed, RowsExact;
      host.tables := host.tables[generation := Without(host.tables[generation], f)];
      tableOpen := true;
      round := round.(todo := round.todo - {f}, kept := KeptWithout(round.kept, f));
      Record(Commits(DeleteRows(f)));
    }

    method SkipRowsOf(f: FileId, ghost table: Table)
      requires Valid() && RoundIn(Sys(), Deleting) && generation in host.tables && host.lock == ByRound
      requires f in round.todo && !tableOpen
      requires RowsGone(table, host.tables[generation], round.prepared.Keys - round.todo, round.kept)
      modifies this, host
      ensures Valid() && actions == old(actions) + [Commits(SkipRows(f))] && GoesOn(old(actions), actions)
      ensures SameIndex(old(Sys()), Sys()) && host.lock == ByRound && generation in host.tables
      ensures round.Active? && round == old(round).(todo := old(round.todo) - {f}, kept := round.kept)
      ensures RowsGone(table, host.tables[generation], old(round.prepared.Keys - round.todo) + {f}, round.kept)
    {
      SkipOne(table, host.tables[generation], round.prepared.Keys - round.todo, round.kept, f);
      hide RowsGone;
      round := round.(todo := round.todo - {f}, kept := round.kept[f := Owned(LiveTable(Sys()), f)]);
      Record(Commits(SkipRows(f)));
    }

    /** Then writing the new rows, batch by batch. */
    method WriteBatches() returns (ok: bool)
      requires Valid() && RoundIn(Sys(), Deleting) && round.todo == {}
      requires generation in host.tables && host.lock == ByRound
      modifies this, host
      ensures Valid() && old(actions) <= actions && SameIndex(old(Sys()), Sys())
      ensures if ok then Committing(Sys()) && round.todo == {} && round.batches == [] && host.lock == ByRound
                         && round.prepared == old(round.prepared) && round.kept == old(round.kept)
              else round.Idle? && GaveUp(old(actions), actions)
      ensures ok ==> GoesOn(old(actions), actions) && generation in host.tables
      ensures ok ==> host.tables[generation] == old(host.tables[generation]) + Flatten(old(round.batches))
    {
      hide Valid, Flatten;
      ghost var table, all := host.tables[generation], Flatten(round.batches);
      while round.batches != []
        invariant Valid() && old(actions) <= actions && SameIndex(old(Sys()), Sys())
        invariant Committing(Sys()) && round.todo == {} && generation in host.tables && host.lock == ByRound
        invariant GoesOn(old(actions), actions) && round.prepared == old(round.prepared)
        invariant round.kept == old(round.kept)
        invariant host.tables[generation] + Flatten(round.batches) == table + all
        decreases |round.batches|
      {
        ghost var seen := actions;
        var going := Pause();
        if !going {
          return false;
        }
        ghost var waited := actions;
        WriteOneBatch();
        GoesOnThrough(old(actions), seen, waited, actions);
      }
      NothingToWrite(host.tables[generation], round.batches);
      ok := true;
    }

    method WriteOneBatch()
      requires Valid() && Committing(Sys()) && round.todo == {} && round.batches != []
      requires generation in host.tables && host.lock == ByRound
      modifies this, host
      ensures Valid() && actions == old(actions) + [Commits(WriteBatch)] && GoesOn(old(actions), actions)
      ensures SameIndex(old(Sys()), Sys()) && host.lock == ByRound && generation in host.tables
      ensures round == old(round).(phase := Writing, batches := old(round.batches)[1..])
      ensures host.tables[generation] + Flatten(round.batches)
           == old(host.tables[generation]) + Flatten(old(round.batches))
    {
      hide Shape, Matching, TablesExact, Runs, Final;
      FirstBatch(host.tables[generation], round.batches);
      host.tables := host.tables[generation := host.tables[generation] + round.batches[0]];
      tableOpen := true;
      round := round.(phase := Writing, batches := round.batches[1..]);
      Record(Commits(WriteBatch));
    }

    /** The graph changes in one step, after everything that can fail. */
    method SwapFileGraphs()
      requires round.Active? && host.lock == ByRound
      modifies this, host
      ensures Sys() == AfterSwap(old(Sys())) && actions == old(actions)
    {
      graph := graph + round.prepared;
      dirty := round.retry;
      manifest := RestoreRetryFiles(manifest, round.next, round.retry);
      version := version + 1;
      needsRescan := false;
      host.lock := Free;
      round := Idle;
    }

    method AcquireLock() returns (ok: bool)
      requires Valid() && RoundIn(Sys(), Embedded)
      modifies this, host
      ensures Valid() && old(actions) <= actions && SameIndex(old(Sys()), Sys())
      ensures if ok then RoundIn(Sys(), Locked) && host.lock == ByRound && round == old(round).(phase := Locked)
              else round.Idle? && GaveUp(old(actions), actions)
      ensures ok ==> GoesOn(old(actions), actions)
    {
      hide Shape, Matching, TablesExact, Runs, Final;
      ghost var before := actions;
      Wait(HoldingState);
      if host.lock != Free {
        Abort();
        return false;
      }
      ghost var waited := actions;
      host.lock := ByRound;
      round := round.(phase := Locked);
      Record(Commits(TakeLock));
      GoesOnThrough(before, before, waited, actions);
      ok := true;
    }

    method Supersede()
      requires Valid() && CommitEnabled(Sys(), CheckPointer) && host.lock == ByRound && host.pointer != generation
      modifies this, host
      ensures Valid() && actions == old(actions) + [Commits(CheckPointer)]
      ensures Sys().live == old(Sys()).live.(superseded := true, tableOpen := tableOpen) && round.Idle?
    {
      hide Shape, Matching, TablesExact, Runs, Final;
      superseded := true;
      host.lock := Free;
      round := Idle;
      Record(Commits(CheckPointer));
    }

    /** With the lock held: another active generation ends this index. */
    method CheckGeneration() returns (r: Refresh)
      requires Valid() && RoundIn(Sys(), Locked) && host.lock == ByRound && !superseded
      modifies this, host
      ensures Valid() && old(actions) <= actions
      ensures Sys().live == old(Sys()).live.(superseded := superseded, dirty := dirty, tableOpen := tableOpen)
      ensures r.Applied? ==> RoundIn(Sys(), Deleting) && host.lock == ByRound && host.pointer == generation
                             && generation in host.tables && !superseded
      ensures r.Applied? ==> round == old(round).(phase := Deleting, todo := old(round).prepared.Keys)
      ensures r.Applied? ==> dirty == round.files && round.kept == map[]
      ensures r.Applied? ==> GoesOn(old(actions), actions)
      ensures r.Superseded? ==> superseded && round.Idle? && dirty == old(dirty)
      ensures r.Failed? ==> !superseded && round.Idle? && dirty == old(dirty) && GaveUp(old(actions), actions)
    {
      hide Valid, GoesOn;
      ghost var before := actions;
      GoesOnNow(before);
      var going := Pause();
      if !going {
        return Failed;
      }
      if host.pointer != generation {
        Supersede();
        return Superseded;
      }
      ghost var waited := actions;
      StartReplacing();
      GoesOnThrough(before, before, waited, actions);
      r := Applied;
    }

    /** From here on the rows of the files do not match their parts of the graph. */
    method StartReplacing()
      requires Valid() && RoundIn(Sys(), Locked) && host.lock == ByRound && host.pointer == generation
      modifies this, host
      ensures Valid() && actions == old(actions) + [Commits(CheckPointer)] && GoesOn(old(actions), actions)
      ensures Sys().live == old(Sys()).live.(dirty := dirty, tableOpen := tableOpen) && RoundIn(Sys(), Deleting)
      ensures round == old(round).(phase := Deleting, todo := old(round).prepared.Keys)
      ensures dirty == round.files && round.kept == map[]
      ensures host.lock == ByRound && host.pointer == generation && generation in host.tables
    {
      AlwaysConsistent();
      assert Rounds(Sys());
      dirty := round.files;
      round := round.(phase := Deleting, todo := round.prepared.Keys);
      Record(Commits(CheckPointer));
    }

    /** Replacing the rows of the prepared files, with the lock held. */
    method ReplaceRows() returns (ok: bool)
      requires Valid() && RoundIn(Sys(), Deleting) && generation in host.tables && host.lock == ByRound
      requires round.todo == round.prepared.Keys && round.kept == map[]
      modifies this, host
      ensures Valid() && old(actions) <= actions && SameIndex(old(Sys()), Sys())
      ensures if ok then Committing(Sys()) && round.todo == {} && round.batches == [] && host.lock == ByRound
              else round.Idle? && GaveUp(old(actions), actions)
      ensures ok ==> GoesOn(old(actions), actions) && round.prepared == old(round.prepared)
      ensures ok ==> generation in host.tables
      ensures ok ==> RowsReplaced(old(host.tables[generation]), host.tables[generation],
                                  round.prepared.Keys, round.kept, Flatten(old(round.batches)))
      ensures ok && old(tableOpen) ==> round.kept == map[]
    {
      hide Valid, Flatten, Owned, GoesOn, RowsGone, RowsReplaced;
      ghost var before, table, rows := actions, host.tables[generation], Flatten(round.batches);
      ok := DeleteOldRows();
      if !ok {
        return;
      }
      ghost var deleted, left := actions, host.tables[generation];
      ok := WriteBatches();
      if !ok {
        return;
      }
      GoesOnNow(before);
      GoesOnThrough(before, before, deleted, actions);
      Replaced(table, left, round.prepared.Keys, round.kept, rows);
    }

    method Swap()
      requires Valid() && Committing(Sys()) && round.todo == {} && round.batches == [] && host.lock == ByRound
      requires !superseded
      modifies this, host
      ensures Valid() && actions == old(actions) + [Commits(SwapGraph)] && GoesOn(old(actions), actions)
      ensures round.Idle? && !superseded && !needsRescan && version == old(version) + 1
    {
      SwapFileGraphs();
      Record(Commits(SwapGraph));
    }

    /** From the lock to the swap. */
    method Commit() returns (r: Refresh)
      requires Valid() && RoundIn(Sys(), Embedded) && !superseded
      modifies this, host
      ensures Valid() && old(actions) <= actions && round.Idle?
      ensures r.Applied? ==> !needsRescan && version == old(version) + 1 && GoesOn(old(actions), actions)
      ensures !r.Applied? ==> graph == old(graph) && manifest == old(manifest) && version == old(version)
      ensures r.Superseded? <==> superseded
      ensures r.Failed? ==> GaveUp(old(actions), actions)
    {
      hide Shape, Matching, TablesExact, Runs, Final;
      hide Valid, GoesOn, GaveUp;
      ghost var before := actions;
      var ok := AcquireLock();
      if !ok {
        return Failed;
      }
      ghost var locked := actions;
      r := CheckGeneration();
      if !r.Applied? {
        if r.Failed? { GaveUpSince(before, locked, actions); }
        return;
      }
      ghost var checked := actions;
      ok := ReplaceRows();
      if !ok {
        GaveUpSince(before, checked, actions);
        return Failed;
      }
      ghost var replaced := actions;
      if * {
        Abort();
        GivesUp(before, replaced);
        return Failed;
      }
      Swap();
      GoesOnThrough(locked, checked, replaced, actions);
      GoesOnNow(before);
      GoesOnThrough(before, before, locked, actions);
    }

    /** A scan that found nothing to do ends the round. */
    method NothingToApply()
      requires Valid() && RoundIn(Sys(), Scanning) && round.todo == {} && !superseded
      requires dirty == {} && Differing(manifest, round.next) == {}
      modifies this, host
      ensures Valid() && actions == old(actions) + [Refreshes(ScanDone)] && round.Idle?
      ensures GoesOn(old(actions), actions)
      ensures !superseded && !needsRescan && version == old(version)
    {
      hide Shape, Matching, Runs, Final, Differing;
      manifest := round.next;
      needsRescan := false;
      round := Idle;
      Record(Refreshes(ScanDone));
    }

    method StartPreparing(files: set<FileId>)
      requires Valid() && RoundIn(Sys(), Scanning) && round.todo == {} && !superseded
      requires files == dirty + Differing(manifest, round.next) && files != {}
      modifies this, host
      ensures Valid() && actions == old(actions) + [Refreshes(ScanDone)] && RoundIn(Sys(), Preparing)
      ensures GoesOn(old(actions), actions)
      ensures Sys().live == old(Sys()).live.(needsRescan := true, tableOpen := tableOpen)
    {
      hide Shape, Matching, Runs, Final, Differing;
      needsRescan := true;
      round := round.(phase := Preparing, files := files, todo := files);
      Record(Refreshes(ScanDone));
    }

    /** Applying what a scan found, together with the files an earlier round left dirty. A round that
        fails or finds itself superseded leaves the graph, the manifest and the version as they were. */
    method ApplyDelta(configuredSize: Option<NodeBatches.Usize>, configuredBytes: Option<NodeBatches.Usize>)
      returns (r: Refresh)
      requires Valid() && RoundIn(Sys(), Scanning) && round.todo == {} && !superseded
      modifies this, host
      ensures Valid() && old(actions) <= actions && round.Idle?
      ensures r.Applied? ==> !needsRescan && old(version) <= version <= old(version) + 1
      ensures r.Applied? ==> GoesOn(old(actions), actions)
      ensures !r.Applied? ==> graph == old(graph) && manifest == old(manifest) && version == old(version)
      ensures r.Superseded? <==> superseded
      ensures r.Failed? ==> GaveUp(old(actions), actions)
    {
      var files := dirty + Differing(manifest, round.next);
      if files == {} {
        NothingToApply();
        return Applied;
      }
      ghost var before := actions;
      StartPreparing(files);
      ghost var begun := actions;
      r := PrepareAndCommit(configuredSize, configuredBytes);
      if r.Applied? { GoesOnThrough(before, before, begun, actions); }
    }

    method PrepareAndCommit(configuredSize: Option<NodeBatches.Usize>,
                            configuredBytes: Option<NodeBatches.Usize>)
      returns (r: Refresh)
      requires Valid() && RoundIn(Sys(), Preparing) && !superseded
      modifies this, host
      ensures Valid() && old(actions) <= actions && round.Idle?
      ensures r.Applied? ==> !needsRescan && version == old(version) + 1 && GoesOn(old(actions), actions)
      ensures !r.Applied? ==> graph == old(graph) && manifest == old(manifest) && version == old(version)
      ensures r.Superseded? <==> superseded
      ensures r.Failed? ==> GaveUp(old(actions), actions)
    {
      hide Valid, GoesOn;
      ghost var before := actions;
      var ok := PrepareFileChanges();
      if !ok {
        return Failed;
      }
      ghost var prepared := actions;
      ok := EmbedPrepared(configuredSize, configuredBytes);
      if !ok {
        return Failed;
      }
      ghost var embedded := actions;
      r := Commit();
      if r.Applied? { GoesOnThrough(before, prepared, embedded, actions); }
    }

    /** Applying the paths a watcher reported: only their scope is scanned, unless an earlier round did
        not end, an ignore file is among them or there are too many. */
    method ApplyPaths(paths: seq<FileId>, configuredSize: Option<NodeBatches.Usize>,
                      configuredBytes: Option<NodeBatches.Usize>)
      returns (r: Refresh)
      requires Valid() && round.Idle?
      modifies this, host
      ensures Valid() && old(actions) <= actions && round.Idle?
      ensures r.Applied? ==> !needsRescan && old(version) <= version <= old(version) + 1
      ensures !r.Applied? ==> graph == old(graph) && manifest == old(manifest) && version == old(version)
      ensures r.Superseded? <==> superseded
      ensures r.Failed? ==> GaveUp(old(actions), actions)
      ensures old(superseded) ==> Sys() == old(Sys())
      ensures r.Applied? && CalmSince(old(actions), actions) ==>
        Converged(old(Sys()), ScopeOf(old(Sys()), paths), Sys()) && Follows(old(Sys()), paths, Sys())
    {
      hide Shape, Matching, TablesExact, Runs, Final;
      if superseded {
        return Superseded;
      }
      var scope := FullScope(host.disk, manifest);
      if !(needsRescan || TouchesIgnoreRules(paths) || |paths| > MAX_TARGETED_PATHS) {
        scope := set f | f in scope && InScope(f, paths);
      }
      ghost var before := actions;
      assert scope == ScopeOf(Sys(), paths);
      var ok := Scan(scope);
      if !ok {
        return Failed;
      }
      ghost var scanned := actions;
      r := ApplyDelta(configuredSize, configuredBytes);
      if r.Applied? && CalmSince(before, actions) {
        GoesOnNow(scanned);
        GoesOnThrough(before + [Refreshes(Begin(scope))], scanned, scanned, actions);
        RoundIsRun(start, before, scope, actions);
        ConsistentAt(before);
        ConvergedFollows(Final(start, before), paths, Sys());
      }
    }

    /** At every moment of the run so far. */
    lemma ConsistentAt(before: seq<Action>)
      requires Valid() && Runs(start, before)
      ensures Shape(Final(start, before)) && Matching(Final(start, before))
    {
      MatchingRun(start, before);
    }

    /** Comparing the whole project with the manifest and applying the difference. If meanwhile no file
        was edited or unreadable and the embedder answered, the manifest then lists the disk, and the
        graph is the one an index from scratch builds exactly if no stale file was hidden yet readable and
        every leftover was dirty. */
    method ApplyRescan(configuredSize: Option<NodeBatches.Usize>, configuredBytes: Option<NodeBatches.Usize>)
      returns (r: Refresh)
      requires Valid() && round.Idle?
      modifies this, host
      ensures Valid() && old(actions) <= actions && round.Idle?
      ensures r.Applied? ==> !needsRescan && old(version) <= version <= old(version) + 1
      ensures !r.Applied? ==> graph == old(graph) && manifest == old(manifest) && version == old(version)
      ensures r.Superseded? <==> superseded
      ensures r.Failed? ==> GaveUp(old(actions), actions)
      ensures old(superseded) ==> Sys() == old(Sys())
      ensures r.Applied? && CalmSince(old(actions), actions) ==>
        Converged(old(Sys()), FullScope(old(host.disk), old(manifest)), Sys())
    {
      if superseded {
        return Superseded;
      }
      ghost var before, scope := actions, FullScope(host.disk, manifest);
      var ok := Scan(FullScope(host.disk, manifest));
      if !ok {
        return Failed;
      }
      ghost var scanned := actions;
      r := ApplyDelta(configuredSize, configuredBytes);
      if r.Applied? && CalmSince(before, actions) {
        GoesOnNow(scanned);
        GoesOnThrough(before + [Refreshes(Begin(scope))], scanned, scanned, actions);
        RoundIsRun(start, before, scope, actions);
      }
    }

    /** Comparing the disk with the manifest without changing anything of the index. If nobody edits a
        file meanwhile and nothing is pending, every entry matches and no other generation is known, and
        the graph is the one an index from scratch builds unless an earlier step left nodes behind. The walk may
        fail after some files; only then there is no answer. */
    method HasPendingChanges(failure: Option<nat>) returns (pending: Option<bool>)
      requires Valid() && round.Idle?
      modifies this, host
      ensures Valid() && old(actions) <= actions && SameIndex(old(Sys()), Sys())
      ensures pending == Some(false) && NoEditsSince(old(actions), actions) ==>
        && !superseded
        && (forall f: FileId :: View(At(host.disk, f)) == Entry(manifest, f))
        && (UpToDate(Sys()) <==> !Leftovers(Sys()))
      ensures failure.None? ==> pending.Some?
      ensures pending == Some(true) && NoEditsSince(old(actions), actions) ==>
        superseded || exists f: FileId :: View(At(host.disk, f)) != Entry(manifest, f)
    {
      hide Shape, Matching, TablesExact, Runs, Final;
      if superseded {
        return Some(true);
      }
      ghost var disk, before := host.disk, actions;
      var todo := FullScope(host.disk, manifest);
      var differs, visited := false, 0;
      while todo != {}
        invariant Valid() && before <= actions && SameIndex(old(Sys()), Sys())
        invariant todo <= FullScope(disk, manifest)
        invariant NoEditsSince(before, actions) ==> host.disk == disk
        invariant NoEditsSince(before, actions) && !differs ==>
          forall f :: f in FullScope(disk, manifest) - todo ==> View(At(disk, f)) == Entry(manifest, f)
        invariant NoEditsSince(before, actions) && differs ==>
          exists f: FileId :: View(At(disk, f)) != Entry(manifest, f)
        decreases todo
      {
        ghost var seen := actions;
        Wait(HoldingState);
        assert NoEditsSince(before, actions) ==> NoEditsSince(before, seen) && NoEditsSince(seen, actions);
        if failure == Some(visited) {
          return None;
        }
        var f :| f in todo;
        todo, visited := todo - {f}, visited + 1;
        if View(At(host.disk, f)) != Entry(manifest, f) {
          differs := true;
        }
      }
      if !differs && NoEditsSince(before, actions) {
        assert !Pending(Sys());
        forall f: FileId ensures View(At(host.disk, f)) == Entry(manifest, f) { SameView(Sys(), f); }
        QuietMeansUpToDate(start, actions);
      }
      pending := Some(differs);
    }

    // -------------------------------------------------------------- persisting

    /** A persist stops with an error; a graph that was already renamed stays. */
    method GiveUp()
      requires Valid() && SaveEnabled(Sys(), FailSave)
      modifies this, host
      ensures Valid() && old(actions) <= actions && persist.NoPersist? && GaveUpSaving(old(actions), actions)
    {
      persist := NoPersist;
      host.lock := Released(host.lock, ByPersist);
      Record(Saves(FailSave));
      assert actions[|old(actions)|..][0] == Saves(FailSave);
    }

    /** Reading the pointer, without the lock first and with it afterwards. */
    method CheckCurrentPointer() returns (current: bool)
      requires Valid() && SaveEnabled(Sys(), CheckCurrent)
      modifies this, host
      ensures Valid() && old(actions) <= actions
      ensures if current then host.lock == old(host.lock) && host.pointer == generation
                && persist == old(persist).(stage := if old(persist).stage.Snapped? then Waiting else Checked)
              else persist == old(persist).(stage := Refused)
    {
      current := host.pointer == generation;
      if current {
        persist := persist.(stage := if persist.stage.Snapped? then Waiting else Checked);
      } else {
        persist := persist.(stage := Refused);
        host.lock := Released(host.lock, ByPersist);
      }
      Record(Saves(CheckCurrent));
    }

    /** Putting the graph and then the manifest in place; an error may fall between the two. */
    method RenameBoth() returns (ok: bool)
      requires Valid() && SaveIn(Sys(), Checked) && host.lock == ByPersist
      modifies this, host
      ensures Valid() && old(actions) <= actions
      ensures if ok then persist == old(persist).(stage := Written)
              else persist.NoPersist? && GaveUpSaving(old(actions), actions)
    {
      hide Valid, GaveUpSaving;
      ghost var before := actions;
      Wait(HoldingGate);
      ghost var waited := actions;
      if * {
        GiveUp();
        GaveUpLater(before, waited, actions, actions);
        return false;
      }
      RenameGraphFile();
      ghost var renamed := actions;
      ok := RenameManifestFile();
      if !ok { GaveUpLater(before, renamed, actions, actions); }
    }

    method RenameGraphFile()
      requires Valid() && SaveIn(Sys(), Checked) && host.lock == ByPersist
      modifies this, host
      ensures Valid() && actions == old(actions) + [Saves(RenameGraph)]
      ensures SaveIn(Sys(), GraphRenamed) && host.lock == ByPersist
      ensures persist == old(persist).(stage := GraphRenamed)
    {
      AlwaysConsistent();
      host.stored := host.stored[generation := host.stored[generation].(graph := persist.graph)];
      persist := persist.(stage := GraphRenamed);
      Record(Saves(RenameGraph));
    }

    method RenameManifestFile() returns (ok: bool)
      requires Valid() && SaveIn(Sys(), GraphRenamed) && host.lock == ByPersist
      modifies this, host
      ensures Valid() && old(actions) <= actions
      ensures if ok then persist == old(persist).(stage := Written)
              else persist.NoPersist? && GaveUpSaving(old(actions), actions)
    {
      hide Valid, GaveUpSaving;
      ghost var before := actions;
      Wait(HoldingGate);
      ghost var waited := actions;
      if * {
        GiveUp();
        GaveUpLater(before, waited, actions, actions);
        return false;
      }
      ReplaceManifest();
      ghost var renamed := actions;
      if * {
        GiveUp();
        GaveUpLater(before, renamed, actions, actions);
        return false;
      }
      ok := true;
    }

    method ReplaceManifest()
      requires Valid() && SaveIn(Sys(), GraphRenamed) && host.lock == ByPersist
      modifies this, host
      ensures Valid() && actions == old(actions) + [Saves(RenameManifest)]
      ensures persist == old(persist).(stage := Written)
    {
      AlwaysConsistent();
      host.stored := host.stored[generation := host.stored[generation].(manifest := persist.manifest)];
      persist := persist.(stage := Written);
      host.lock := Free;
      Record(Saves(RenameManifest));
    }

    /** From the temporary files to the lock. */
    method AwaitLock() returns (locked: bool)
      requires Valid() && SaveIn(Sys(), Snapped)
      modifies this, host
      ensures Valid() && old(actions) <= actions
      ensures if locked then persist == old(persist).(stage := Waiting) && host.lock == ByPersist
              else (persist.NoPersist? && GaveUpSaving(old(actions), actions)) || SaveIn(Sys(), Refused)
    {
      hide Shape, Matching, Runs, Final, GaveUpSaving;
      ghost var before := actions;
      Wait(HoldingGate);
      var current := CheckCurrentPointer();
      if !current {
        return false;
      }
      Wait(HoldingGate);
      ghost var waited := actions;
      var failed: bool := *;
      if failed || host.lock != Free {
        GiveUp();
        GaveUpLater(before, waited, actions, actions);
        return false;
      }
      host.lock := ByPersist;
      Record(Saves(WaitLock));
      locked := true;
    }

    method WriteSnapshot() returns (written: bool)
      requires Valid() && SaveIn(Sys(), Snapped)
      modifies this, host
      ensures Valid() && old(actions) <= actions
      ensures written ==> persist == old(persist).(stage := Written)
      ensures !written ==> (persist.NoPersist? && GaveUpSaving(old(actions), actions)) || SaveIn(Sys(), Refused)
    {
      hide Shape, Matching, TablesExact, Runs, Final, GaveUpSaving;
      ghost var before := actions;
      var locked := AwaitLock();
      if !locked {
        return false;
      }
      Wait(HoldingGate);
      var current := CheckCurrentPointer();
      if !current {
        return false;
      }
      ghost var checked := actions;
      written := RenameBoth();
      if !written { GaveUpLater(before, checked, actions, actions); }
    }

    /** Waiting for the state lock: a round that is still running ends first. */
    method AwaitState()
      requires Valid()
      modifies this, host
      ensures Valid() && old(actions) <= actions && round.Idle? && persist == old(persist)
    {
      Wait(HoldingGate);
      if round.Active? {
        Foreign(HoldingGate, Commits(FailRound));
      }
    }

    method RecordOutcome()
      requires Valid() && SaveEnabled(Sys(), EndSave)
      modifies this, host
      ensures Valid() && actions == old(actions) + [Saves(EndSave)] && persist.NoPersist? && round.Idle?
      ensures old(persist).stage.Refused? ==> superseded
      ensures old(persist).stage.Written? ==> old(persist).version <= persistedVersion
    {
      hide Shape, Matching, Runs, Final;
      if persist.stage.Refused? {
        superseded := true;
      } else if persistedVersion < persist.version {
        persistedVersion := persist.version;
      }
      persist := NoPersist;
      Record(Saves(EndSave));
    }

    /** Writing the last applied state into the active generation. When it was written and no later round
        has been applied, the stored files are the live graph and manifest. */
    method Persist() returns (r: Saved)
      requires Valid() && round.Idle? && persist.NoPersist?
      modifies this, host
      ensures Valid() && old(actions) <= actions && round.Idle? && persist.NoPersist?
      ensures old(superseded) ==> r.Outdated? && Sys() == old(Sys())
      ensures !old(superseded) && old(version) == old(persistedVersion) ==> r.NothingNew? && Sys() == old(Sys())
      ensures r.NothingNew? ==> old(version) == old(persistedVersion)
      ensures r.Broken? ==> GaveUpSaving(old(actions), actions)
      ensures r.Outdated? ==> superseded
      ensures r.Persisted? ==> old(version) <= persistedVersion
      ensures r.Persisted? && version == old(version) ==>
        generation in host.stored && host.stored[generation] == Stored(graph, manifest)
    {
      hide Valid, GaveUpSaving;
      StoredIsLive();
      if superseded {
        return Outdated;
      }
      if version == persistedVersion {
        return NothingNew;
      }
      ghost var before := actions;
      TakeSnapshot();
      ghost var taken := actions;
      var written := WriteSnapshot();
      ghost var tried := actions;
      AwaitState();
      if persist.NoPersist? {
        GaveUpLater(before, taken, tried, actions);
        return Broken;
      }
      RecordOutcome();
      StoredIsLive();
      r := if written then Persisted else Outdated;
    }

    method TakeSnapshot()
      requires Valid() && SaveEnabled(Sys(), Snapshot)
      modifies this, host
      ensures Valid() && actions == old(actions) + [Saves(Snapshot)] && SaveIn(Sys(), Snapped)
      ensures persist == Persisting(Snapped, graph, manifest, version) && Sys().live == old(Sys()).live
    {
      persist := Persisting(Snapped, graph, manifest, version);
      Record(Saves(Snapshot));
    }

    /** A version that is stored is stored in full. */
    lemma StoredIsLive()
      requires Valid()
      ensures persistedVersion <= version
      ensures 0 < persistedVersion == version ==>
        generation in host.stored && host.stored[generation] == Stored(graph, manifest)
    {
      AlwaysConsistent();
      hide Matching;
    }
  }

  /** What the path leads to holds text. */
  ghost predicate LeadsToText(disk: Disk, f: FileId) {
    Target(disk, f).Some?
    && At(disk, Target(disk, f).value).Present? && At(disk, Target(disk, f).value).body.Source?
  }

  predicate IsFor(q: Queued, f: FileId, n: CodeNode) {
    q.file == f && q.node.id.key == n.id.key
  }

  /** Every function, method, class and struct of the file waits to be embedded, and nothing but nodes of the file has
      been added. */
  ghost predicate Queues(before: seq<Queued>, after: seq<Queued>, f: FileId, part: Part) {
    && before <= after
    && (forall n :: n in part.nodes && IsCallableOrType(n) ==> exists q :: q in after && IsFor(q, f, n))
    && forall i :: |before| <= i < |after| ==>
         after[i].file == f && after[i].node in part.nodes && IsCallableOrType(after[i].node)
  }

  lemma {:induction false} NotQueuedAre(queue: seq<Queued>, more: seq<Queued>)
    ensures forall q :: q in NotQueued(queue, more) ==> q in more
    ensures forall q :: q in more ==>
      exists p :: (p in queue || p in NotQueued(queue, more)) && IsFor(p, q.file, q.node)
  {
    if more != [] {
      NotQueuedAre(queue, more[1..]);
      var first := more[0];
      if i :| 0 <= i < |queue| && queue[i].file == first.file && queue[i].node.id.key == first.node.id.key {
        assert queue[i] in queue && IsFor(queue[i], first.file, first.node);
      } else {
        assert first in NotQueued(queue, more) && IsFor(first, first.file, first.node);
      }
    }
  }

  lemma NewNodesQueue(r: Round, g: FileId, part: Part)
    requires r.Active?
    ensures Queues(r.nodes, r.nodes + NewNodes(r, g, part), g, part)
  {
    var all, more := Embeddable(g, part.nodes), NewNodes(r, g, part);
    EmbeddableAre(g, part.nodes);
    NotQueuedAre(r.nodes, all);
    hide Embeddable, NotQueued, IsCallableOrType;
    forall n | n in part.nodes && IsCallableOrType(n) ensures exists q :: q in r.nodes + more && IsFor(q, g, n) {
      var q := Queued(g, n);
      if g in r.prepared {
        var p :| (p in r.nodes || p in more) && IsFor(p, q.file, q.node);
        assert p in r.nodes + more;
      } else {
        assert q in more && q in r.nodes + more && IsFor(q, g, n);
      }
    }
    forall i | |r.nodes| <= i < |r.nodes + more|
      ensures var q := (r.nodes + more)[i]; q.file == g && q.node in part.nodes && IsCallableOrType(q.node)
    {
      assert (r.nodes + more)[i] == more[i - |r.nodes|];
      assert more[i - |r.nodes|] in more;
    }
  }

  lemma FirstBatch(table: Table, batches: seq<seq<Row>>)
    requires batches != []
    ensures (table + batches[0]) + Flatten(batches[1..]) == table + Flatten(batches)
  {
    assert (table + batches[0]) + Flatten(batches[1..]) == table + (batches[0] + Flatten(batches[1..]));
  }

  lemma NothingToWrite(table: Table, batches: seq<seq<Row>>)
    requires batches == []
    ensures table + Flatten(batches) == table
  {
  }

  lemma NothingEmbedded(queue: seq<Queued>, known: Known)
    ensures Flatten([]) == EmbedAll(queue[..0], known)
  {
  }

  lemma AllEmbedded(requests: seq<seq<CodeNode>>, k: nat, queue: seq<Queued>, done: nat)
    requires k == |requests| && done <= |queue| && done + |NodeBatches.Joined(requests[k..])| == |queue|
    ensures queue[..done] == queue
  {
    assert requests[k..] == [];
  }

  /** Embedding the `k`-th request; what is embedded so far is what one call for all would give. */
  method EmbedRequest(requests: seq<seq<CodeNode>>, k: nat, queue: seq<Queued>, done: nat, known: Known,
                      batches: seq<seq<Row>>)
    returns (batches': seq<seq<Row>>, done': nat)
    requires k < |requests| && done + |NodeBatches.Joined(requests[k..])| == |queue|
    requires Flatten(batches) == EmbedAll(queue[..done], known)
    ensures done' + |NodeBatches.Joined(requests[k + 1..])| == |queue|
    ensures Flatten(batches') == EmbedAll(queue[..done'], known)
  {
    assert requests[k..][1..] == requests[k + 1..];
    done' := done + |requests[k]|;
    var request := queue[done..done'];
    assert queue[..done'] == queue[..done] + request;
    EmbedAllConcat(queue[..done], request, known);
    FlattenAppend(batches, EmbedAll(request, known));
    batches' := batches + [EmbedAll(request, known)];
  }

  lemma FlattenAppend(batches: seq<seq<Row>>, last: seq<Row>)
    ensures Flatten(batches + [last]) == Flatten(batches) + last
  {
    if batches == [] {
      assert [last][1..] == [];
    } else {
      assert (batches + [last])[1..] == batches[1..] + [last];
      FlattenAppend(batches[1..], last);
      assert batches[0] + (Flatten(batches[1..]) + last) == (batches[0] + Flatten(batches[1..])) + last;
    }
  }

  /** The index itself, and what it knows of itself, is unchanged. */
  ghost predicate SameIndex(s: System, t: System) {
    s.live.Up? && t.live.Up? && t.live == s.live.(tableOpen := t.live.tableOpen) && t.loader == s.loader
    && (s.live.tableOpen ==> t.live.tableOpen)
  }

  /** What the steps of others leave alone while a task runs. */
  ghost predicate LeftAlone(task: Task, s: System, t: System) {
    && s.live.Up? && t.live.Up? && t.live.generation == s.live.generation && t.loader == s.loader
    && (task.HoldingState? ==> t.round == s.round && SameIndex(s, t))
    && (task.HoldingState? && HoldsRoundLock(s.round) && s.lock == ByRound ==>
          t.lock == ByRound && t.pointer == s.pointer && t.tables == s.tables)
    && (task.HoldingGate? ==> t.persist == s.persist)
    && (task.HoldingGate? && s.lock == ByPersist ==> t.lock == ByPersist && t.pointer == s.pointer)
  }

  lemma ReadingLeavesPersistAlone(s: System, r: ReadStep)
    requires ReadEnabled(s, r)
    ensures LeftAlone(HoldingGate, s, ReadNext(s, r))
  {
  }

  lemma CommittingLeavesPersistAlone(s: System, c: CommitStep)
    requires Shape(s) && CommitEnabled(s, c)
    ensures LeftAlone(HoldingGate, s, CommitNext(s, c))
  {
  }

  lemma PersistLeavesRoundAlone(s: System, v: SaveStep)
    requires Shape(s) && SaveEnabled(s, v) && !v.Snapshot? && !v.EndSave?
    ensures LeftAlone(HoldingState, s, SaveNext(s, v))
  {
  }

  lemma MeanwhileFrame(task: Task, s: System, a: Action)
    requires Shape(s) && Enabled(s, a) && Meanwhile(task, a) && s.live.Up?
    ensures LeftAlone(task, s, Next(s, a))
  {
    match a
    case Saves(v) => PersistLeavesRoundAlone(s, v); hide Shape, SaveEnabled, SaveNext;
    case Refreshes(r) => ReadingLeavesPersistAlone(s, r); hide Shape, ReadEnabled, ReadNext;
    case Commits(c) => CommittingLeavesPersistAlone(s, c); hide Shape, CommitEnabled, CommitNext;
    case Edits(_) =>
    case Others(_) =>
    case Lives(_) =>
  }

  /** What a loader has read stays as it is until the load ends. */
  lemma {:induction false} LoadingRuns(s: System, actions: seq<Action>)
    requires Shape(s) && Runs(s, actions) && s.loader.GotManifest? && Lives(LoadGraph) !in actions
    ensures var t := Final(s, actions);
      Shape(t) && t.loader == s.loader && t.loader.generation in t.stored
    decreases |actions|
  {
    if actions != [] {
      var a := actions[0];
      ShapeStep(s, a);
      KeepsLoader(s, a);
      LoadingRuns(Next(s, a), actions[1..]);
    }
  }

  lemma KeepsLoader(s: System, a: Action)
    requires Enabled(s, a) && s.loader.GotManifest? && a != Lives(LoadGraph)
    ensures Next(s, a).loader == s.loader
  {
    hide EditNext, OtherNext, ReadNext, CommitNext, SaveNext;
    hide EditEnabled, OtherEnabled, ReadEnabled, CommitEnabled, SaveEnabled;
    match a
    case Edits(d) => EditKeeps(s, d);
    case Others(o) => OtherKeeps(s, o);
    case Refreshes(r) => ReadKeeps(s, r);
    case Commits(c) => CommitKeeps(s, c);
    case Saves(v) => SaveKeeps(s, v);
    case Lives(_) =>
  }
}
