/** Convergence: what one round without an edit makes of any state that failures left behind, whatever
    persists, loads and other processes do meanwhile. */
module LiveConvergence {
  import opened Basics
  import opened CodeModel
  import opened VectorRows
  import opened LiveModel
  import opened LiveShape
  import opened LiveFreshness

  /** What may happen during a round in which every file is readable, the embedder answers and nothing
      fails: its own steps, any step of a persist, of a load and of other processes; no edit. */
  predicate Undisturbed(a: Action) {
    match a
    case Edits(_) => false
    case Others(_) => true
    case Refreshes(r) => r.ScanOne? || r.ScanDone? || r.PrepareOk? || r.EmbedDone?
    case Commits(c) => !c.FailRound?
    case Saves(_) => true
    case Lives(p) => !p.Crash?
  }

  predicate AllUndisturbed(actions: seq<Action>) {
    forall i :: 0 <= i < |actions| ==> Undisturbed(actions[i])
  }

  /** A round that compares the files of `scope`. */
  predicate RoundOver(s: System, scope: set<FileId>, actions: seq<Action>) {
    actions != [] && actions[0] == Refreshes(Begin(scope)) && AllUndisturbed(actions[1..])
  }

  /** A round that compares everything there is. */
  predicate FullRound(s: System, scope: set<FileId>, actions: seq<Action>)
    requires s.live.Up?
  {
    RoundOver(s, scope, actions) && FullScope(s.disk, s.live.manifest) <= scope
  }

  /** No round is running, and no other generation was found to be active. */
  predicate InUse(t: System) {
    t.live.Up? && t.round.Idle? && !t.live.superseded
  }

  /** A file the round takes up: left dirty, or in scope with an entry that differs from the disk. */
  predicate Taken(s: System, scope: set<FileId>, f: FileId)
    requires s.live.Up?
  {
    f in s.live.dirty || (f in scope && Entry(s.live.manifest, f) != View(At(s.disk, f)))
  }

  /** A file the round reads: one that a path it takes up leads to. */
  ghost predicate Reread(s: System, scope: set<FileId>, f: FileId)
    requires s.live.Up?
  {
    exists h :: Taken(s, scope, h) && Target(s.disk, h) == Some(f)
  }

  /** The entry a file has after the round. */
  function ScannedEntry(s: System, scope: set<FileId>, f: FileId): Option<Stamp>
    requires s.live.Up?
  {
    if f in scope then View(At(s.disk, f)) else Entry(s.live.manifest, f)
  }

  /** Every file prepared so far is one the round reads, with the part it has on disk. */
  ghost predicate PreparesRight(s: System, scope: set<FileId>, prepared: Graph)
    requires s.live.Up?
  {
    forall f :: f in prepared ==> Reread(s, scope, f) && prepared[f] == Read(At(s.disk, f))
  }

  /** Every path outside `todo` that the round has taken up has been followed. */
  ghost predicate Followed(disk: Disk, files: set<FileId>, prepared: Graph, todo: set<FileId>) {
    forall h :: h in files && h !in todo && Target(disk, h).Some? ==> Target(disk, h).value in prepared
  }

  /** The state `t` of a round that started in `s`. */
  ghost predicate Midway(s: System, scope: set<FileId>, t: System)
    requires s.live.Up?
  {
    && Shape(t) && t.live.Up? && t.round.Active?
    && t.disk == s.disk && !t.live.superseded
    && t.live.graph == s.live.graph && t.live.manifest == s.live.manifest
    && t.live.semanticUnavailable == s.live.semanticUnavailable
    && t.round.retry == {}
    && (t.round.phase == Scanning ==>
          t.live.dirty == s.live.dirty && t.round.todo <= scope
          && forall f: FileId :: Entry(t.round.next, f) == ScannedEntry(s, scope - t.round.todo, f))
    && (t.round.phase != Scanning ==>
          && (forall f: FileId :: Entry(t.round.next, f) == ScannedEntry(s, scope, f))
          && (forall f: FileId :: f in t.round.files <==> Taken(s, scope, f))
          && PreparesRight(s, scope, t.round.prepared)
          && Followed(s.disk, t.round.files, t.round.prepared,
                      if t.round.phase == Preparing then t.round.todo else {}))
  }

  /** What the round leaves: nothing dirty, a manifest that lists the files in scope as they are, and a
      graph in which exactly the files the round reads have been read again. */
  ghost predicate Settled(s: System, scope: set<FileId>, t: System)
    requires s.live.Up?
  {
    && Shape(t) && t.live.Up? && t.round.Idle? && t.disk == s.disk
    && !t.live.needsRescan && t.live.dirty == {}
    && t.live.semanticUnavailable == s.live.semanticUnavailable
    && (forall f: FileId :: Entry(t.live.manifest, f) == ScannedEntry(s, scope, f))
    && forall f: FileId ::
         PartOf(t.live.graph, f) ==
           if Reread(s, scope, f) then Read(At(s.disk, f)) else PartOf(s.live.graph, f)
  }

  /** Another process has activated a generation; the round ends and nothing of it is applied. */
  ghost predicate Ended(s: System, t: System)
    requires s.live.Up?
  {
    && Shape(t) && t.live.Up? && t.round.Idle? && t.live.superseded
    && t.live.graph == s.live.graph && t.live.manifest == s.live.manifest
  }

  ghost predicate Running(s: System, scope: set<FileId>, t: System)
    requires s.live.Up?
  {
    Midway(s, scope, t) || Settled(s, scope, t) || Ended(s, t)
  }

  lemma BeginMidway(s: System, scope: set<FileId>)
    requires Shape(s) && ReadEnabled(s, Begin(scope))
    ensures Midway(s, scope, ReadNext(s, Begin(scope)))
  {
    ShapeRead(s, Begin(scope));
  }

  lemma ScanOnwards(s: System, scope: set<FileId>, t: System, f: FileId)
    requires s.live.Up? && Midway(s, scope, t) && ReadEnabled(t, ScanOne(f))
    ensures Midway(s, scope, ReadNext(t, ScanOne(f)))
  {
    ShapeRead(t, ScanOne(f));
    hide Shape;
    var t' := ReadNext(t, ScanOne(f));
    forall g: FileId ensures Entry(t'.round.next, g) == ScannedEntry(s, scope - t'.round.todo, g) {
      assert Entry(t.round.next, g) == ScannedEntry(s, scope - t.round.todo, g);
    }
  }

  lemma TakenFiles(s: System, scope: set<FileId>, t: System, f: FileId)
    requires s.live.Up? && Midway(s, scope, t) && ReadEnabled(t, ScanDone)
    ensures f in t.live.dirty + Differing(t.live.manifest, t.round.next) <==> Taken(s, scope, f)
    ensures Entry(t.round.next, f) == ScannedEntry(s, scope, f)
  {
    hide Shape;
    assert scope - t.round.todo == scope;
    assert Entry(t.round.next, f) == ScannedEntry(s, scope, f);
    if Entry(t.live.manifest, f) != Entry(t.round.next, f) {
      assert f in t.live.manifest.Keys + t.round.next.Keys;
    }
  }

  lemma ScanEnds(s: System, scope: set<FileId>, t: System)
    requires s.live.Up? && Midway(s, scope, t) && ReadEnabled(t, ScanDone)
    ensures Midway(s, scope, AfterScan(t)) || Settled(s, scope, AfterScan(t))
  {
    ShapeRead(t, ScanDone);
    ScanDoneKeeps(t);
    assert Rounds(t);
    forall f: FileId
      ensures f in t.live.dirty + Differing(t.live.manifest, t.round.next) <==> Taken(s, scope, f)
      ensures Entry(t.round.next, f) == ScannedEntry(s, scope, f)
    {
      TakenFiles(s, scope, t, f);
    }
    hide Shape, Taken, Differing, AfterScan;
    var files := t.live.dirty + Differing(t.live.manifest, t.round.next);
    if files == {} {
      assert forall f: FileId :: !Reread(s, scope, f);
      ScanSettles(s, scope, t);
    }
  }

  lemma ScanSettles(s: System, scope: set<FileId>, t: System)
    requires s.live.Up? && Midway(s, scope, t) && ReadEnabled(t, ScanDone) && Shape(AfterScan(t))
    requires forall f: FileId :: !Reread(s, scope, f) && Entry(t.round.next, f) == ScannedEntry(s, scope, f)
    requires t.live.dirty + Differing(t.live.manifest, t.round.next) == {}
    ensures Settled(s, scope, AfterScan(t))
  {
    hide Shape, Reread, ScannedEntry;
    NoDifference(t.live.manifest, t.round.next);
  }

  lemma FollowedOne(disk: Disk, files: set<FileId>, prepared: Graph, after: Graph, todo: set<FileId>, h: FileId)
    requires Followed(disk, files, prepared, todo) && prepared.Keys <= after.Keys
    requires Target(disk, h).Some? ==> Target(disk, h).value in after
    ensures Followed(disk, files, after, todo - {h})
  {
    hide Target;
  }

  lemma PreparesOne(s: System, scope: set<FileId>, prepared: Graph, f: FileId)
    requires s.live.Up? && PreparesRight(s, scope, prepared) && Reread(s, scope, f)
    ensures PreparesRight(s, scope, prepared[f := Read(At(s.disk, f))])
  {
    hide Reread;
  }

  lemma PrepareOnwards(s: System, scope: set<FileId>, t: System, h: FileId)
    requires s.live.Up? && Midway(s, scope, t) && ReadEnabled(t, PrepareOk(h))
    ensures Midway(s, scope, AfterPrepare(t, h))
  {
    ShapeRead(t, PrepareOk(h));
    assert Rounds(t);
    hide Shape, Rounds, Canonical, Target, NewNodes, Taken, Read, HasText, Covered, KnownVectors;
    assert h in t.round.files && Taken(s, scope, h);
    if Target(t.disk, h).Some? {
      assert Reread(s, scope, Target(t.disk, h).value);
      PreparesOne(s, scope, t.round.prepared, Target(t.disk, h).value);
    }
    var t' := AfterPrepare(t, h);
    FollowedOne(t.disk, t.round.files, t.round.prepared, t'.round.prepared, t.round.todo, h);
    hide PreparesRight, Followed, Reread, ScannedEntry, Passes;
  }

  lemma EmbedOnwards(s: System, scope: set<FileId>, t: System, batches: seq<seq<Row>>)
    requires s.live.Up? && Midway(s, scope, t) && ReadEnabled(t, EmbedDone(batches))
    ensures Midway(s, scope, ReadNext(t, EmbedDone(batches)))
  {
    ShapeRead(t, EmbedDone(batches));
    hide Shape, Reread, Taken, ScannedEntry, PreparesRight, Followed, EmbedAll, Flatten;
    assert t.round.todo == {};
  }

  lemma ReadOnwards(s: System, scope: set<FileId>, t: System, r: ReadStep)
    requires s.live.Up? && Midway(s, scope, t) && ReadEnabled(t, r) && Undisturbed(Refreshes(r))
    ensures Running(s, scope, ReadNext(t, r))
  {
    hide Midway, Settled, Ended, ReadEnabled;
    match r {
      case ScanOne(f) => ScanOnwards(s, scope, t, f);
      case ScanDone => ScanEnds(s, scope, t);
      case PrepareOk(h) => PrepareOnwards(s, scope, t, h);
      case EmbedDone(batches) => EmbedOnwards(s, scope, t, batches);
    }
  }

  lemma SwapSettles(s: System, scope: set<FileId>, t: System)
    requires s.live.Up? && Midway(s, scope, t) && CommitEnabled(t, SwapGraph)
    requires Shape(CommitNext(t, SwapGraph))
    ensures Settled(s, scope, CommitNext(t, SwapGraph))
  {
    hide Shape, Taken;
    var t' := CommitNext(t, SwapGraph);
    forall f: FileId
      ensures Entry(t'.live.manifest, f) == ScannedEntry(s, scope, f)
      ensures f in t.round.prepared <==> Reread(s, scope, f)
    {
      assert Entry(t'.live.manifest, f) == Entry(t.round.next, f);
      if Reread(s, scope, f) {
        var h :| Taken(s, scope, h) && Target(s.disk, h) == Some(f);
        assert h in t.round.files;
      }
    }
  }

  lemma CommitOnwards(s: System, scope: set<FileId>, t: System, c: CommitStep)
    requires s.live.Up? && Midway(s, scope, t) && CommitEnabled(t, c) && Undisturbed(Commits(c))
    ensures Running(s, scope, CommitNext(t, c))
  {
    ShapeCommit(t, c);
    hide Shape;
    if c.SwapGraph? {
      SwapSettles(s, scope, t);
    } else if c.CheckPointer? {
      CheckFrame(s, scope, t);
    } else {
      CommitFrame(s, scope, t, c);
    }
  }

  lemma CheckFrame(s: System, scope: set<FileId>, t: System)
    requires s.live.Up? && Midway(s, scope, t) && CommitEnabled(t, CheckPointer) && Shape(AfterCheck(t))
    ensures Running(s, scope, AfterCheck(t))
  {
    hide Shape, Reread, Taken, ScannedEntry, PreparesRight, Followed, Settled;
  }

  lemma CommitFrame(s: System, scope: set<FileId>, t: System, c: CommitStep)
    requires s.live.Up? && Midway(s, scope, t) && CommitEnabled(t, c) && Undisturbed(Commits(c))
    requires !c.SwapGraph? && !c.CheckPointer? && Shape(CommitNext(t, c))
    ensures Running(s, scope, CommitNext(t, c))
  {
    hide Shape, Reread, Taken, ScannedEntry, PreparesRight, Followed, Settled, Ended, Without, KeptWithout, Owned;
  }

  /** What the round is about is left alone by everything that is not its own. */
  ghost predicate RoundLeftAlone(t: System, t': System) {
    && t.live.Up? && t'.live.Up? && t'.round == t.round && t'.disk == t.disk
    && t'.live == t.live.(persistedVersion := t'.live.persistedVersion, superseded := t'.live.superseded,
                          tableOpen := t'.live.tableOpen)
    && (t.live.superseded || t.round.Active? ==> t'.live.superseded == t.live.superseded)
  }

  lemma SaveAside(t: System, v: SaveStep)
    requires SaveEnabled(t, v)
    ensures RoundLeftAlone(t, SaveNext(t, v))
  {
  }

  lemma OtherAside(t: System, o: OtherStep)
    requires OtherEnabled(t, o) && t.live.Up?
    ensures RoundLeftAlone(t, OtherNext(t, o))
  {
  }

  lemma LoadAside(t: System, p: ProcessStep)
    requires ProcessEnabled(t, p) && t.live.Up? && !p.Crash?
    ensures RoundLeftAlone(t, ProcessNext(t, p))
  {
  }

  lemma AsideOnwards(s: System, scope: set<FileId>, t: System, t': System)
    requires s.live.Up? && Running(s, scope, t) && RoundLeftAlone(t, t') && Shape(t')
    ensures Running(s, scope, t')
  {
    hide Shape, Reread, Taken, ScannedEntry, PreparesRight, Followed;
  }

  lemma Onward(s: System, scope: set<FileId>, t: System, a: Action)
    requires s.live.Up? && Running(s, scope, t) && Enabled(t, a) && Undisturbed(a)
    ensures Running(s, scope, Next(t, a))
  {
    hide Midway, Settled, Ended, RoundLeftAlone;
    RunningHasShape(s, scope, t);
    ShapeStep(t, a);
    match a {
      case Others(o) => OtherAside(t, o); AsideOnwards(s, scope, t, OtherNext(t, o));
      case Saves(v) => SaveAside(t, v); AsideOnwards(s, scope, t, SaveNext(t, v));
      case Lives(p) => LoadAside(t, p); AsideOnwards(s, scope, t, ProcessNext(t, p));
      case Refreshes(r) => IdleTakesNoStep(s, scope, t); ReadOnwards(s, scope, t, r);
      case Commits(c) => IdleTakesNoStep(s, scope, t); CommitOnwards(s, scope, t, c);
    }
  }

  lemma RunningHasShape(s: System, scope: set<FileId>, t: System)
    requires s.live.Up? && Running(s, scope, t)
    ensures Shape(t) && t.live.Up?
  {
  }

  lemma IdleTakesNoStep(s: System, scope: set<FileId>, t: System)
    requires s.live.Up? && Running(s, scope, t)
    ensures t.round.Active? ==> Midway(s, scope, t)
  {
  }

  lemma {:induction false} Onwards(s: System, scope: set<FileId>, t: System, actions: seq<Action>)
    requires s.live.Up? && Running(s, scope, t) && Runs(t, actions) && AllUndisturbed(actions)
    ensures Running(s, scope, Final(t, actions))
    decreases |actions|
  {
    hide Running, Undisturbed;
    if actions != [] {
      assert Undisturbed(actions[0]);
      Onward(s, scope, t, actions[0]);
      assert forall i :: 0 <= i < |actions[1..]| ==> actions[1..][i] == actions[i + 1];
      Onwards(s, scope, Next(t, actions[0]), actions[1..]);
    }
  }

  /** A round that has ended was applied, unless another process activated a generation first. */
  lemma RoundSettles(s: System, scope: set<FileId>, actions: seq<Action>)
    requires Shape(s) && s.live.Up?
    requires Runs(s, actions) && RoundOver(s, scope, actions) && Final(s, actions).round.Idle?
    ensures Settled(s, scope, Final(s, actions)) || Ended(s, Final(s, actions))
  {
    BeginMidway(s, scope);
    Onwards(s, scope, Next(s, actions[0]), actions[1..]);
  }

  // ---------------------------------------------------------------- when the graph is right afterwards

  /** No file that is read is hidden from the walk while it holds text. */
  ghost predicate ReadsOnlyVisible(s: System, scope: set<FileId>)
    requires s.live.Up?
  {
    forall f: FileId :: Reread(s, scope, f) && View(At(s.disk, f)).None? ==> Read(At(s.disk, f)) == EMPTY_PART
  }

  /** No path with nodes in the graph is taken up without being read: that is, none of them is a link that
      leads elsewhere. */
  ghost predicate LinksAreEmpty(s: System, scope: set<FileId>)
    requires s.live.Up?
  {
    forall f: FileId :: Taken(s, scope, f) && !Reread(s, scope, f) ==> PartOf(s.live.graph, f) == EMPTY_PART
  }

  /** Every leftover of earlier rounds is read again. */
  ghost predicate LeftoversAreRead(s: System, scope: set<FileId>)
    requires s.live.Up?
  {
    forall f: FileId :: Leftover(s, f) ==> Reread(s, scope, f)
  }

  /** All three can be checked before the round starts. */
  ghost predicate Repairable(s: System, scope: set<FileId>)
    requires s.live.Up?
  {
    ReadsOnlyVisible(s, scope) && LinksAreEmpty(s, scope) && LeftoversAreRead(s, scope)
  }

  ghost predicate RepairableAt(s: System, scope: set<FileId>, f: FileId)
    requires s.live.Up?
  {
    if Reread(s, scope, f) then View(At(s.disk, f)).None? ==> Read(At(s.disk, f)) == EMPTY_PART
    else !Leftover(s, f) && (Taken(s, scope, f) ==> PartOf(s.live.graph, f) == EMPTY_PART)
  }

  lemma UntouchedPart(s: System, f: FileId)
    requires MatchingAt(s, f) && s.live.Up? && Entry(s.live.manifest, f) == View(At(s.disk, f))
    ensures PartOf(s.live.graph, f) == Fresh(At(s.disk, f)) <==> !Leftover(s, f)
  {
    if f in s.live.manifest {
      assert Agrees(Mixed, s, f, Some(s.live.manifest[f]));
      assert Pair(Mixed, s, f, Entry(s.live.manifest, f), PartOf(s.live.graph, f));
    }
  }

  /** A path that is taken up but not read is a link, so the walk does not see it. */
  lemma NotRead(s: System, scope: set<FileId>, f: FileId)
    requires s.live.Up? && Taken(s, scope, f) && !Reread(s, scope, f)
    ensures At(s.disk, f).Link?
  {
  }

  /** A file in scope, and a file that was dirty, has the part it has on disk after the round exactly under
      conditions that can be checked before. */
  lemma SettledPart(s: System, scope: set<FileId>, t: System, f: FileId)
    requires Shape(s) && Matching(s) && s.live.Up? && Settled(s, scope, t) && (f in scope || f in s.live.dirty)
    ensures f in scope ==> Entry(t.live.manifest, f) == View(At(t.disk, f))
    ensures PartOf(t.live.graph, f) == Fresh(At(t.disk, f)) <==> RepairableAt(s, scope, f)
  {
    hide Shape;
    if !Reread(s, scope, f) {
      if Taken(s, scope, f) {
        NotRead(s, scope, f);
      } else {
        assert MatchingAt(s, f);
        UntouchedPart(s, f);
      }
    }
  }

  lemma RepairableExactly(s: System, scope: set<FileId>)
    requires s.live.Up?
    ensures Repairable(s, scope) <==> forall f: FileId :: RepairableAt(s, scope, f)
  {
    hide Reread, Taken, Leftover;
    if forall f: FileId :: RepairableAt(s, scope, f) {
      forall f: FileId ensures Leftover(s, f) ==> Reread(s, scope, f) { assert RepairableAt(s, scope, f); }
      forall f: FileId | Taken(s, scope, f) && !Reread(s, scope, f)
        ensures PartOf(s.live.graph, f) == EMPTY_PART { assert RepairableAt(s, scope, f); }
      forall f: FileId | Reread(s, scope, f) && View(At(s.disk, f)).None?
        ensures Read(At(s.disk, f)) == EMPTY_PART { assert RepairableAt(s, scope, f); }
    }
  }

  /** A file that is neither on disk nor listed has nothing to be compared. */
  predicate Unknown(s: System, f: FileId)
    requires s.live.Up?
  {
    f !in s.disk && f !in s.live.manifest
  }

  /** The same for files that are in scope but were neither on disk nor listed. */
  lemma ScopedPart(s: System, scope: set<FileId>, t: System, f: FileId)
    requires Shape(s) && Matching(s) && s.live.Up? && Settled(s, scope, t) && (f in scope || Unknown(s, f))
    ensures Entry(t.live.manifest, f) == View(At(t.disk, f))
    ensures PartOf(t.live.graph, f) == Fresh(At(t.disk, f)) <==> RepairableAt(s, scope, f)
    ensures View(At(t.disk, f)).Some? ==> PartOf(t.live.graph, f) == Fresh(At(t.disk, f))
  {
    hide Shape;
    if f in scope || f in s.live.dirty {
      SettledPart(s, scope, t, f);
    } else {
      assert MatchingAt(s, f);
      UntouchedPart(s, f);
      assert Target(s.disk, f) == Some(f);
    }
    if View(At(t.disk, f)).Some? {
      VisiblePart(s, scope, f);
    }
  }

  /** What the walk sees in scope is always read if it is stale. */
  lemma VisiblePart(s: System, scope: set<FileId>, f: FileId)
    requires s.live.Up? && (f in scope || Unknown(s, f)) && View(At(s.disk, f)).Some?
    ensures RepairableAt(s, scope, f)
  {
    assert Target(s.disk, f) == Some(f);
    if Entry(s.live.manifest, f) != View(At(s.disk, f)) {
      assert Taken(s, scope, f);
    }
  }

  /** From any reachable state, one full round with no edit meanwhile, after which the index is not
      superseded, leaves the manifest listing the disk and nothing dirty, and it leaves the graph an
      index from scratch builds if and only if no file it reads is hidden from the walk while it holds
      text, no path with nodes that it takes up is a link that leads elsewhere, and no leftover is passed
      over. */
  lemma FullRoundConverges(s: System, scope: set<FileId>, actions: seq<Action>)
    requires Shape(s) && Matching(s) && s.live.Up?
    requires Runs(s, actions) && FullRound(s, scope, actions) && InUse(Final(s, actions))
    ensures var t := Final(s, actions);
      Settled(s, scope, t) && (forall f: FileId :: Entry(t.live.manifest, f) == View(At(t.disk, f)))
    ensures UpToDate(Final(s, actions)) <==> Repairable(s, scope)
  {
    RoundSettles(s, scope, actions);
    var t := Final(s, actions);
    forall f: FileId
      ensures Entry(t.live.manifest, f) == View(At(t.disk, f))
      ensures PartOf(t.live.graph, f) == Fresh(At(t.disk, f)) <==> RepairableAt(s, scope, f)
    {
      ScopedPart(s, scope, t, f);
    }
    RepairableExactly(s, scope);
    hide Settled, RepairableAt, Shape, Repairable;
    if forall f: FileId :: RepairableAt(s, scope, f) {
      forall f: FileId ensures PartOf(t.live.graph, f) == Fresh(At(t.disk, f)) {
        assert RepairableAt(s, scope, f);
      }
    }
    if UpToDate(t) {
      forall f: FileId ensures RepairableAt(s, scope, f) {
        assert PartOf(t.live.graph, f) == Fresh(At(t.disk, f));
      }
    }
  }

  /** Crash, load, full round: wherever the crash fell, also between the two renames, the reloaded
      index ends with the graph an index from scratch builds, if and only if the loaded pair of manifest
      and graph meets the three conditions; what the load brought left over has to be read again. */
  lemma ReloadConverges(s: System, before: seq<Action>, scope: set<FileId>, actions: seq<Action>)
    requires Shape(s) && Matching(s) && Runs(s, before)
    requires var m := Final(s, before);
      m.live.Down? && ProcessEnabled(m, LoadGraph)
    requires var l := ProcessNext(Final(s, before), LoadGraph);
      Runs(l, actions) && FullRound(l, scope, actions) && InUse(Final(l, actions))
    ensures var m := Final(s, before);
      var l := ProcessNext(m, LoadGraph);
      Final(l, actions).live.Up? && (UpToDate(Final(l, actions)) <==> Repairable(l, scope))
      && (LoadsLeftovers(m) <==> Leftovers(l))
  {
    MatchingRun(s, before);
    var m := Final(s, before);
    var l := ProcessNext(m, LoadGraph);
    ShapeStep(m, Lives(LoadGraph));
    MatchingStep(m, Lives(LoadGraph));
    FullRoundConverges(l, scope, actions);
    hide Repairable, UpToDate, Shape, Matching;
    forall f: FileId
      ensures Leftover(l, f) <==>
        f !in m.loader.manifest && View(At(m.disk, f)).None?
        && PartOf(m.stored[m.loader.generation].graph, f) != EMPTY_PART
    {
    }
  }
}
