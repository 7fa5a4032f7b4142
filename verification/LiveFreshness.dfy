/** Freshness: what a manifest that matches the disk says about the graph, over every interleaving
    of edits, rounds, persists, crashes, loads and activations (core/src/live.rs). */
module LiveFreshness {
  import opened Basics
  import opened CodeModel
  import opened LiveModel
  import opened LiveShape

  /** Which manifests and graphs are looked at together. `Process`: those of the running live index and
      of its round. `Saved`: also those that are stored, or being persisted, as one pair. `Mixed`: also
      any older manifest with a newer graph that a load may bring together. */
  datatype Level = Process | Saved | Mixed

  /** `e` is the entry for `f` in a manifest no newer than the graph being persisted. */
  ghost predicate StoredEntry(s: System, f: FileId, e: Option<Stamp>)
    requires s.live.Up?
  {
    || (s.live.generation in s.stored && e == Entry(s.stored[s.live.generation].manifest, f))
    || (s.persist.Persisting? && e == Entry(s.persist.manifest, f))
    || (s.loader.GotManifest? && s.loader.generation == s.live.generation && e == Entry(s.loader.manifest, f))
  }

  /** `e` is the entry for `f` in a manifest no newer than the live graph. */
  ghost predicate OldEntry(level: Level, s: System, f: FileId, e: Option<Stamp>)
    requires s.live.Up?
  {
    e == Entry(s.live.manifest, f) || (level.Mixed? && StoredEntry(s, f, e))
  }

  /** The graph of the generation has been renamed, the manifest not yet. */
  predicate Torn(s: System, g: Generation) {
    SaveIn(s, GraphRenamed) && g == s.live.generation
  }

  /** `e` and `p` are what the stored files of generation `g` say about `f`. */
  predicate StoredPair(s: System, g: Generation, f: FileId, e: Option<Stamp>, p: Part) {
    g in s.stored && e == Entry(s.stored[g].manifest, f) && p == PartOf(s.stored[g].graph, f)
  }

  /** The same for some generation whose files belong together. */
  ghost predicate FilesHave(level: Level, s: System, f: FileId, e: Option<Stamp>, p: Part) {
    exists g :: StoredPair(s, g, f, e, p) && (level.Mixed? || !Torn(s, g))
  }

  /** The same for a snapshot on its way to the files. */
  ghost predicate SnapshotHas(level: Level, s: System, f: FileId, e: Option<Stamp>, p: Part) {
    s.live.Up? && s.persist.Persisting? && p == PartOf(s.persist.graph, f)
    && (e == Entry(s.persist.manifest, f) || (level.Mixed? && StoredEntry(s, f, e)))
  }

  /** The entry the manifest is to have after the round: put-off files get their old one back. */
  function EntryAfter(s: System, f: FileId): Option<Stamp>
    requires s.live.Up? && s.round.Active?
  {
    if f in s.round.retry then Entry(s.live.manifest, f) else Entry(s.round.next, f)
  }

  /** The part the graph is to have after the round, for a file that was prepared or passed over. */
  ghost predicate PartAfter(s: System, f: FileId, p: Part)
    requires s.live.Up? && s.round.Active?
  {
    if f in s.round.prepared then p == s.round.prepared[f]
    else f in s.round.passed && p == PartOf(s.live.graph, f)
  }

  ghost predicate RoundHas(level: Level, s: System, f: FileId, e: Option<Stamp>, p: Part) {
    s.live.Up? && s.round.Active? && PartAfter(s, f, p)
    && (e == EntryAfter(s, f) || (level.Mixed? && (OldEntry(level, s, f, e) || e == Entry(s.round.next, f))))
  }

  /** `e` and `p` are what a manifest and a graph say about `f` that belong together at this level. */
  ghost predicate Pair(level: Level, s: System, f: FileId, e: Option<Stamp>, p: Part) {
    || (s.live.Up? && p == PartOf(s.live.graph, f) && OldEntry(level, s, f, e))
    || RoundHas(level, s, f, e, p)
    || (!level.Process? && SnapshotHas(level, s, f, e, p))
    || (!level.Process? && FilesHave(level, s, f, e, p))
    || (level.Mixed? && s.loader.GotManifest? && s.loader.generation in s.stored
        && e == Entry(s.loader.manifest, f) && p == PartOf(s.stored[s.loader.generation].graph, f))
  }

  /** No stamp is from the future. */
  ghost predicate StampsAt(s: System, f: FileId) {
    && (At(s.disk, f).Present? ==> At(s.disk, f).stamp < s.clock)
    && (s.live.Up? && s.round.Active? && f in s.round.next ==> s.round.next[f] < s.clock)
  }

  /** Every graph part that can be brought together with the entry `e` agrees with the disk. */
  ghost predicate Agrees(level: Level, s: System, f: FileId, e: Option<Stamp>) {
    forall p :: Pair(level, s, f, e, p) ==> Fits(s.clock, At(s.disk, f), e, p)
  }

  ghost predicate MatchingAt(s: System, f: FileId) {
    StampsAt(s, f) && forall k: Stamp :: Agrees(Mixed, s, f, Some(k))
  }

  /** A listed file whose entry matches the disk has the part it parses to, everywhere. */
  ghost predicate Matching(s: System) {
    forall f: FileId :: MatchingAt(s, f)
  }

  /** A file that no manifest lists and the walk does not see has left no nodes behind. */
  ghost predicate Clean(level: Level, s: System) {
    forall f: FileId :: Agrees(level, s, f, None)
  }

  // ---------------------------------------------------------------- the steps that leave nodes behind

  /** A graph has nodes of a file that the manifest belonging to it does not list. */
  ghost predicate Naked(level: Level, s: System, f: FileId) {
    exists p :: Pair(level, s, f, None, p) && p != EMPTY_PART
  }

  /** For the running index: the graph has nodes and the manifest no entry, or the round is to leave nodes
      and no entry. A file that the round lists may go while the round is running. */
  lemma NakedInProcess(s: System, f: FileId)
    ensures Naked(Process, s, f) <==>
      s.live.Up?
      && ((f !in s.live.manifest && PartOf(s.live.graph, f) != EMPTY_PART)
          || (s.round.Active? && EntryAfter(s, f).None? && exists p :: PartAfter(s, f, p) && p != EMPTY_PART))
  {
    if s.live.Up? && f !in s.live.manifest {
      assert Pair(Process, s, f, None, PartOf(s.live.graph, f));
    }
    if s.live.Up? && s.round.Active? && EntryAfter(s, f).None? {
      forall p | PartAfter(s, f, p) ensures Pair(Process, s, f, None, p) {
        assert RoundHas(Process, s, f, None, p);
      }
    }
  }

  /** A path that leads elsewhere is passed over although the graph has nodes of it and the round does not
      list it. */
  predicate LeavesOut(s: System, f: FileId)
    requires s.live.Up? && s.round.Active?
  {
    Target(s.disk, f) != Some(f) && f !in s.round.prepared && EntryAfter(s, f).None?
    && PartOf(s.live.graph, f) != EMPTY_PART
  }

  /** A file that the round does not list is read although the ignore rules hide it. */
  predicate ReadsHidden(s: System, f: FileId)
    requires s.live.Up? && s.round.Active?
  {
    View(At(s.disk, f)).None? && Read(At(s.disk, f)) != EMPTY_PART && EntryAfter(s, f).None?
  }

  /** A file that has been read in this round, and is gone from the walk, is put off and so unlisted. */
  predicate PutsOffRead(s: System, f: FileId)
    requires s.live.Up? && s.round.Active?
  {
    f in s.round.prepared && s.round.prepared[f] != EMPTY_PART && View(At(s.disk, f)).None?
    && f !in s.live.manifest
  }

  /** The manifest and the graph being loaded leave nodes behind. */
  ghost predicate LoadsLeftovers(s: System)
    requires ProcessEnabled(s, LoadGraph)
  {
    exists f: FileId ::
      f !in s.loader.manifest && View(At(s.disk, f)).None?
      && PartOf(s.stored[s.loader.generation].graph, f) != EMPTY_PART
  }

  /** The stored manifest and the graph that has just been renamed leave nodes behind. */
  ghost predicate TornLeftovers(s: System) {
    SaveIn(s, GraphRenamed) && s.live.generation in s.stored
    && exists f: FileId ::
         f !in s.stored[s.live.generation].manifest && View(At(s.disk, f)).None?
         && PartOf(s.stored[s.live.generation].graph, f) != EMPTY_PART
  }

  /** The only steps that leave nodes behind: a file leaves the walk while the graph has nodes of it
      that the manifest of the same time does not list; preparing passes over a path with nodes, reads a
      hidden file, or puts a file off that it has read; a manifest and a graph that disagree are loaded;
      or, for what is stored, a persist ends between its two renames. */
  ghost predicate Spoils(level: Level, s: System, a: Action)
    requires Enabled(s, a)
  {
    match a
    case Edits(Write(f, visible, _)) => !visible && Naked(level, s, f)
    case Edits(Remove(f)) => Naked(level, s, f)
    case Edits(MakeLink(f, _)) => Naked(level, s, f)
    case Edits(SetVisible(f, visible)) => !visible && Naked(level, s, f)
    case Refreshes(PrepareOk(f)) =>
      !level.Mixed?
      && (LeavesOut(s, f) || (Target(s.disk, f).Some? && ReadsHidden(s, Target(s.disk, f).value)))
    case Refreshes(PrepareRetry(f)) =>
      !level.Mixed? && (LeavesOut(s, f) || PutsOffRead(s, Target(s.disk, f).value))
    case Lives(LoadGraph) => !level.Mixed? && s.live.Down? && LoadsLeftovers(s)
    case Lives(Crash) => level.Saved? && TornLeftovers(s)
    case Saves(FailSave) => level.Saved? && TornLeftovers(s)
    case _ => false
  }

  // ---------------------------------------------------------------- one step, one pair

  lemma EditPair(level: Level, s: System, d: Edit, f: FileId, e: Option<Stamp>, p: Part)
    requires EditEnabled(s, d) && StampsAt(s, f) && Agrees(level, s, f, e)
    requires e.None? ==> !Spoils(level, s, Edits(d))
    requires Pair(level, EditNext(s, d), f, e, p)
    ensures Fits(EditNext(s, d).clock, At(EditNext(s, d).disk, f), e, p)
  {
    EditKeeps(s, d);
    PairOnDisk(level, EditNext(s, d), s, f, e, p);
    hide Pair, Target;
  }

  /** A pair does not depend on the disk. */
  lemma PairOnDisk(level: Level, s: System, s': System, f: FileId, e: Option<Stamp>, p: Part)
    requires s' == s.(disk := s'.disk, clock := s'.clock) && Pair(level, s, f, e, p)
    ensures Pair(level, s', f, e, p)
  {
    if !level.Process? && FilesHave(level, s, f, e, p) { FilesFrame(level, s', s, f, e, p); }
  }

  lemma OtherPair(level: Level, s: System, o: OtherStep, f: FileId, e: Option<Stamp>, p: Part)
    requires Generations(s) && OtherEnabled(s, o)
    requires Pair(level, OtherNext(s, o), f, e, p)
    ensures Pair(level, s, f, e, p) || Fits(s.clock, At(s.disk, f), e, p)
  {
    hide AllFit, Fits;
    if o.Activate? && e == Entry(o.artifacts.manifest, f) && p == PartOf(o.artifacts.graph, f) {
      AllFitAt(s.disk, s.clock, o.artifacts.manifest, o.artifacts.graph, f);
    } else {
      var s' := OtherNext(s, o);
      if FilesHave(level, s', f, e, p) {
        var g :| StoredPair(s', g, f, e, p) && (level.Mixed? || !Torn(s', g));
        assert StoredPair(s, g, f, e, p);
      }
    }
  }

  lemma FilesFrame(level: Level, s: System, s': System, f: FileId, e: Option<Stamp>, p: Part)
    requires s'.stored == s.stored && (level.Saved? && SaveIn(s, GraphRenamed) ==> SaveIn(s', GraphRenamed))
    requires s.live.Up? && s'.live.Up? ==> s'.live.generation == s.live.generation
    requires !level.Process? && FilesHave(level, s', f, e, p)
    ensures FilesHave(level, s, f, e, p)
  {
    var g :| StoredPair(s', g, f, e, p) && (level.Mixed? || !Torn(s', g));
    assert StoredPair(s, g, f, e, p);
  }

  /** `s'` holds no manifest, graph or prepared part that `s` does not hold in the same place. */
  ghost predicate NothingNew(level: Level, s: System, s': System) {
    && s'.stored == s.stored && s'.loader == s.loader
    && (level.Saved? && SaveIn(s, GraphRenamed) ==> SaveIn(s', GraphRenamed))
    && (s'.persist.Persisting? ==>
          s.persist.Persisting? && s'.persist.graph == s.persist.graph
          && s'.persist.manifest == s.persist.manifest)
    && (s'.live.Up? ==>
          s.live.Up? && s'.live.generation == s.live.generation
          && s'.live.graph == s.live.graph && s'.live.manifest == s.live.manifest)
    && (s'.round.Active? && (s'.round.prepared != map[] || s'.round.passed != {}) ==>
          s.round.Active? && s'.round.prepared == s.round.prepared && s'.round.passed == s.round.passed
          && s'.round.next == s.round.next && s'.round.retry == s.round.retry)
  }

  lemma PairFrame(level: Level, s: System, s': System, f: FileId, e: Option<Stamp>, p: Part)
    requires NothingNew(level, s, s') && Pair(level, s', f, e, p)
    ensures Pair(level, s, f, e, p)
  {
    if !level.Process? && FilesHave(level, s', f, e, p) { FilesFrame(level, s, s', f, e, p); }
  }

  lemma ScanDoneFrame(level: Level, s: System)
    requires ReadEnabled(s, ScanDone)
    ensures NothingNew(level, s, AfterScan(s))
  {
    ScanDoneKeeps(s);
    hide AfterScan, Differing;
  }

  lemma ReadFrame(level: Level, s: System, r: ReadStep)
    requires Rounds(s) && ReadEnabled(s, r) && !r.PrepareOk? && !r.PrepareRetry?
    ensures NothingNew(level, s, ReadNext(s, r))
  {
    if r.ScanDone? { ScanDoneFrame(level, s); }
  }

  /** Only the parts prepared for other files differ. */
  lemma PairBesideRound(level: Level, s: System, s': System, f: FileId, e: Option<Stamp>, p: Part)
    requires s'.persist == s.persist && s'.stored == s.stored && s'.loader == s.loader
    requires s.live.Up? && s'.live.Up? && s'.live.generation == s.live.generation
    requires s'.live.graph == s.live.graph && s'.live.manifest == s.live.manifest
    requires !RoundHas(level, s', f, e, p)
    requires Pair(level, s', f, e, p)
    ensures Pair(level, s, f, e, p)
  {
    if !level.Process? && FilesHave(level, s', f, e, p) { FilesFrame(level, s, s', f, e, p); }
  }

  /** An entry the round may leave, and the disk it was seen on. */
  lemma EntryFits(s: System, f: FileId, e: Option<Stamp>, p: Part)
    requires s.live.Up? && s.round.Active? && StampsAt(s, f) && Agrees(Mixed, s, f, e) && e.Some?
    requires OldEntry(Mixed, s, f, e) || e == Entry(s.round.next, f)
    requires At(s.disk, f).Present? ==> p == Read(At(s.disk, f))
    ensures Fits(s.clock, At(s.disk, f), e, p)
  {
    if OldEntry(Mixed, s, f, e) { assert Pair(Mixed, s, f, e, PartOf(s.live.graph, f)); }
  }

  lemma PrepareRoundPair(level: Level, s: System, r: FileId, f: FileId, e: Option<Stamp>, p: Part)
    requires ReadEnabled(s, PrepareOk(r)) && StampsAt(s, f) && Agrees(level, s, f, e)
    requires e.None? ==> !Spoils(level, s, Refreshes(PrepareOk(r)))
    requires e.Some? <==> level.Mixed?
    requires RoundHas(level, AfterPrepare(s, r), f, e, p)
    ensures RoundHas(level, s, f, e, p) || Fits(s.clock, At(s.disk, f), e, p)
  {
    hide Agrees;
    var target := Target(s.disk, r);
    if target == Some(f) || (f == r && f !in s.round.prepared) {
      if e.Some? { EntryFits(s, f, e, p); }
    }
  }

  lemma PreparePair(level: Level, s: System, r: FileId, f: FileId, e: Option<Stamp>, p: Part)
    requires ReadEnabled(s, PrepareOk(r)) && StampsAt(s, f) && Agrees(level, s, f, e)
    requires e.None? ==> !Spoils(level, s, Refreshes(PrepareOk(r)))
    requires e.Some? <==> level.Mixed?
    requires Pair(level, ReadNext(s, PrepareOk(r)), f, e, p)
    ensures Fits(s.clock, At(s.disk, f), e, p)
  {
    hide Target, Canonical, OldEntry, StoredEntry;
    var s' := AfterPrepare(s, r);
    if RoundHas(level, s', f, e, p) {
      PrepareRoundPair(level, s, r, f, e, p);
      if RoundHas(level, s, f, e, p) { assert Pair(level, s, f, e, p); }
    } else {
      PairBesideRound(level, s, s', f, e, p);
    }
  }

  lemma RetryRoundPair(level: Level, s: System, r: FileId, f: FileId, e: Option<Stamp>, p: Part)
    requires ReadEnabled(s, PrepareRetry(r)) && StampsAt(s, f) && Agrees(level, s, f, e)
    requires e.None? ==> !Spoils(level, s, Refreshes(PrepareRetry(r)))
    requires e.Some? <==> level.Mixed?
    requires RoundHas(level, ReadNext(s, PrepareRetry(r)), f, e, p)
    ensures Pair(level, s, f, e, p) || Fits(s.clock, At(s.disk, f), e, p)
  {
    hide Agrees;
    if f == r && f !in s.round.prepared && f !in s.round.passed {
      if e.Some? { EntryFits(s, f, e, p); }
    }
  }

  lemma RetryPair(level: Level, s: System, r: FileId, f: FileId, e: Option<Stamp>, p: Part)
    requires ReadEnabled(s, PrepareRetry(r)) && StampsAt(s, f) && Agrees(level, s, f, e)
    requires e.None? ==> !Spoils(level, s, Refreshes(PrepareRetry(r)))
    requires e.Some? <==> level.Mixed?
    requires Pair(level, ReadNext(s, PrepareRetry(r)), f, e, p)
    ensures Fits(s.clock, At(s.disk, f), e, p)
  {
    var s' := ReadNext(s, PrepareRetry(r));
    if RoundHas(level, s', f, e, p) {
      RetryRoundPair(level, s, r, f, e, p);
    } else {
      PairBesideRound(level, s, s', f, e, p);
    }
  }

  lemma CommitFrame(level: Level, s: System, c: CommitStep)
    requires CommitEnabled(s, c) && !c.SwapGraph?
    ensures NothingNew(level, s, CommitNext(s, c))
  {
  }

  /** After a swap, an entry and the swapped part were already together during the round. */
  lemma SwapPair(level: Level, s: System, f: FileId, e: Option<Stamp>, p: Part)
    requires Rounds(s) && CommitEnabled(s, SwapGraph)
    requires Pair(level, CommitNext(s, SwapGraph), f, e, p)
    ensures Pair(level, s, f, e, p)
  {
    hide Target, FilesHave;
    var s' := CommitNext(s, SwapGraph);
    if p == PartOf(s'.live.graph, f) && OldEntry(level, s', f, e) {
      assert Entry(s'.live.manifest, f) == EntryAfter(s, f);
      assert f in s.round.prepared || f in s.round.passed ==> PartAfter(s, f, p);
    } else if !level.Process? && FilesHave(level, s', f, e, p) {
      FilesFrame(level, s, s', f, e, p);
    }
  }

  /** Only at level `Saved` does it matter that a persist stops between its two renames. */
  lemma SaveFrame(level: Level, s: System, v: SaveStep)
    requires SaveEnabled(s, v) && !v.Snapshot? && !v.RenameGraph? && !v.RenameManifest?
    requires level.Saved? ==> !(v.FailSave? && SaveIn(s, GraphRenamed))
    ensures NothingNew(level, s, SaveNext(s, v))
  {
  }

  lemma SnapshotPair(level: Level, s: System, f: FileId, e: Option<Stamp>, p: Part)
    requires SaveEnabled(s, Snapshot)
    requires Pair(level, SaveNext(s, Snapshot), f, e, p)
    ensures Pair(level, s, f, e, p)
  {
    var s' := SaveNext(s, Snapshot);
    if !level.Process? && FilesHave(level, s', f, e, p) { FilesFrame(level, s, s', f, e, p); }
  }

  lemma RenameGraphPair(level: Level, s: System, f: FileId, e: Option<Stamp>, p: Part)
    requires SaveEnabled(s, RenameGraph)
    requires Pair(level, SaveNext(s, RenameGraph), f, e, p)
    ensures Pair(level, s, f, e, p)
  {
    var s', own := SaveNext(s, RenameGraph), s.live.generation;
    if FilesHave(level, s', f, e, p) {
      var g :| StoredPair(s', g, f, e, p) && (level.Mixed? || !Torn(s', g));
      assert g == own || StoredPair(s, g, f, e, p);
    }
  }

  lemma RenameManifestPair(level: Level, s: System, f: FileId, e: Option<Stamp>, p: Part)
    requires Persists(s) && SaveEnabled(s, RenameManifest)
    requires Pair(level, SaveNext(s, RenameManifest), f, e, p)
    ensures Pair(level, s, f, e, p)
  {
    var s', own := SaveNext(s, RenameManifest), s.live.generation;
    if FilesHave(level, s', f, e, p) {
      var g :| StoredPair(s', g, f, e, p) && (level.Mixed? || !Torn(s', g));
      assert g == own || StoredPair(s, g, f, e, p);
    }
  }

  /** When a persist ends between its renames, what it leaves stored becomes a pair of its own. */
  lemma EndTornPair(s: System, s': System, f: FileId, e: Option<Stamp>, p: Part)
    requires SaveIn(s, GraphRenamed) && NothingNew(Process, s, s') && Pair(Saved, s', f, e, p)
    ensures Pair(Saved, s, f, e, p) || StoredPair(s, s.live.generation, f, e, p)
  {
    if g :| StoredPair(s', g, f, e, p) && !Torn(s', g) {
      assert StoredPair(s, g, f, e, p);
    }
  }

  lemma CrashFrame(s: System)
    requires Locking(s) && s.live.Up?
    ensures NothingNew(Process, s, ProcessNext(s, Crash))
    ensures !SaveIn(s, GraphRenamed) ==> NothingNew(Saved, s, ProcessNext(s, Crash))
    ensures NothingNew(Mixed, s, ProcessNext(s, Crash))
  {
  }

  /** A load pairs the manifest it read before with the graph it reads now. */
  lemma LoadPair(level: Level, s: System, l: ProcessStep, f: FileId, e: Option<Stamp>, p: Part)
    requires Shape(s) && ProcessEnabled(s, l) && !l.Crash?
    requires Pair(level, ProcessNext(s, l), f, e, p)
    ensures Pair(level, s, f, e, p)
         || (!level.Mixed? && l.LoadGraph? && s.live.Down?
             && e == Entry(s.loader.manifest, f) && p == PartOf(s.stored[s.loader.generation].graph, f))
  {
    hide Rounds, Persists;
    var s' := ProcessNext(s, l);
    var g := if l.LoadGraph? then s.loader.generation else s.pointer;
    assert level.Mixed? && StoredPair(s, g, f, e, p) ==> FilesHave(level, s, f, e, p);
    if !level.Process? && FilesHave(level, s', f, e, p) { FilesFrame(level, s, s', f, e, p); }
  }

  /** The pairs that appear when a process ends or loads, apart from those that spoil. */
  lemma ProcessPair(level: Level, s: System, l: ProcessStep, f: FileId, e: Option<Stamp>, p: Part)
    requires Shape(s) && ProcessEnabled(s, l) && Agrees(level, s, f, e)
    requires e.None? ==> !Spoils(level, s, Lives(l))
    requires e.Some? <==> level.Mixed?
    requires Pair(level, ProcessNext(s, l), f, e, p)
    ensures Fits(s.clock, At(s.disk, f), e, p)
  {
    hide Pair, NothingNew, ProcessNext, Generations, Locking, Rounds, Persists;
    if l.Crash? {
      CrashFrame(s);
      if level.Saved? && SaveIn(s, GraphRenamed) {
        EndTornPair(s, ProcessNext(s, l), f, e, p);
      } else {
        PairFrame(level, s, ProcessNext(s, l), f, e, p);
      }
    } else {
      LoadPair(level, s, l, f, e, p);
    }
  }

  lemma ReadPair(level: Level, s: System, r: ReadStep, f: FileId, e: Option<Stamp>, p: Part)
    requires Rounds(s) && ReadEnabled(s, r) && !r.PrepareOk? && !r.PrepareRetry?
    requires Pair(level, ReadNext(s, r), f, e, p)
    ensures Pair(level, s, f, e, p)
  {
    hide Pair, Rounds, ReadEnabled, ReadNext, NothingNew;
    ReadFrame(level, s, r);
    PairFrame(level, s, ReadNext(s, r), f, e, p);
  }

  lemma CommitPair(level: Level, s: System, c: CommitStep, f: FileId, e: Option<Stamp>, p: Part)
    requires Rounds(s) && CommitEnabled(s, c)
    requires Pair(level, CommitNext(s, c), f, e, p)
    ensures Pair(level, s, f, e, p)
  {
    hide Pair, Rounds, CommitEnabled, CommitNext, NothingNew;
    if c.SwapGraph? {
      SwapPair(level, s, f, e, p);
    } else {
      CommitFrame(level, s, c);
      PairFrame(level, s, CommitNext(s, c), f, e, p);
    }
  }

  lemma FailSavePair(level: Level, s: System, f: FileId, e: Option<Stamp>, p: Part)
    requires SaveEnabled(s, FailSave) && Agrees(level, s, f, e)
    requires e.None? ==> !Spoils(level, s, Saves(FailSave))
    requires e.Some? <==> level.Mixed?
    requires Pair(level, SaveNext(s, FailSave), f, e, p)
    ensures Fits(s.clock, At(s.disk, f), e, p)
  {
    var s' := SaveNext(s, FailSave);
    assert NothingNew(Process, s, s');
    hide Pair, NothingNew, SaveNext;
    if level.Saved? && SaveIn(s, GraphRenamed) {
      EndTornPair(s, s', f, e, p);
    } else {
      SaveFrame(level, s, FailSave);
      PairFrame(level, s, s', f, e, p);
    }
  }

  lemma SavePair(level: Level, s: System, v: SaveStep, f: FileId, e: Option<Stamp>, p: Part)
    requires Persists(s) && SaveEnabled(s, v) && Agrees(level, s, f, e)
    requires e.None? ==> !Spoils(level, s, Saves(v))
    requires e.Some? <==> level.Mixed?
    requires Pair(level, SaveNext(s, v), f, e, p)
    ensures Fits(s.clock, At(s.disk, f), e, p)
  {
    hide Pair, Persists, SaveEnabled, SaveNext, NothingNew;
    match v {
      case Snapshot => SnapshotPair(level, s, f, e, p);
      case RenameGraph => RenameGraphPair(level, s, f, e, p);
      case RenameManifest => RenameManifestPair(level, s, f, e, p);
      case FailSave => FailSavePair(level, s, f, e, p);
      case _ =>
        SaveFrame(level, s, v);
        PairFrame(level, s, SaveNext(s, v), f, e, p);
    }
  }

  /** Only an edit moves the disk or the clock. */
  lemma SameDisk(s: System, a: Action)
    requires Enabled(s, a) && !a.Edits?
    ensures Next(s, a).disk == s.disk && Next(s, a).clock == s.clock
  {
    hide OtherNext, ReadNext, CommitNext, SaveNext, ProcessNext;
    hide OtherEnabled, ReadEnabled, CommitEnabled, SaveEnabled, ProcessEnabled;
    match a
    case Others(o) => OtherKeeps(s, o);
    case Refreshes(r) => ReadKeeps(s, r);
    case Commits(c) => CommitKeeps(s, c);
    case Saves(v) => SaveKeeps(s, v);
    case Lives(p) => ProcessKeeps(s, p);
  }

  lemma PairStep(level: Level, s: System, a: Action, f: FileId, e: Option<Stamp>, p: Part)
    requires Shape(s) && Enabled(s, a) && StampsAt(s, f) && Agrees(level, s, f, e)
    requires e.None? ==> !Spoils(level, s, a)
    requires e.Some? <==> level.Mixed?
    requires Pair(level, Next(s, a), f, e, p)
    ensures Fits(Next(s, a).clock, At(Next(s, a).disk, f), e, p)
  {
    hide Pair, NothingNew, Generations, Locking, Rounds, Persists, StampsAt;
    hide EditNext, OtherNext, ReadNext, CommitNext, SaveNext;
    match a {
      case Edits(d) => EditPair(level, s, d, f, e, p);
      case Others(o) =>
        SameDisk(s, a);
        OtherPair(level, s, o, f, e, p);
      case Refreshes(r) =>
        SameDisk(s, a);
        if r.PrepareOk? {
          PreparePair(level, s, r.file, f, e, p);
        } else if r.PrepareRetry? {
          RetryPair(level, s, r.file, f, e, p);
        } else {
          ReadPair(level, s, r, f, e, p);
        }
      case Commits(c) =>
        SameDisk(s, a);
        CommitPair(level, s, c, f, e, p);
      case Saves(v) =>
        SameDisk(s, a);
        SavePair(level, s, v, f, e, p);
      case Lives(l) =>
        SameDisk(s, a);
        ProcessPair(level, s, l, f, e, p);
    }
  }

  lemma AgreesStep(level: Level, s: System, a: Action, f: FileId, e: Option<Stamp>)
    requires Shape(s) && Enabled(s, a) && StampsAt(s, f) && Agrees(level, s, f, e)
    requires e.None? ==> !Spoils(level, s, a)
    requires e.Some? <==> level.Mixed?
    ensures Agrees(level, Next(s, a), f, e)
  {
    forall p | Pair(level, Next(s, a), f, e, p)
      ensures Fits(Next(s, a).clock, At(Next(s, a).disk, f), e, p)
    {
      PairStep(level, s, a, f, e, p);
    }
  }

  // ---------------------------------------------------------------- one step

  lemma EditStamps(s: System, d: Edit, f: FileId)
    requires EditEnabled(s, d) && StampsAt(s, f)
    ensures StampsAt(EditNext(s, d), f)
  {
  }

  /** The next manifest of a round only ever gains stamps seen on the disk. */
  lemma ReadStamps(s: System, r: ReadStep, f: FileId)
    requires ReadEnabled(s, r) && MatchingAt(s, f)
    ensures StampsAt(ReadNext(s, r), f)
  {
    if r.Begin? && f in s.live.manifest {
      assert Agrees(Mixed, s, f, Some(s.live.manifest[f]));
      assert Pair(Mixed, s, f, Entry(s.live.manifest, f), PartOf(s.live.graph, f));
    }
  }

  /** No other step touches the next manifest of a round. */
  lemma SameNext(s: System, a: Action)
    requires Locking(s) && Enabled(s, a) && !a.Refreshes?
    ensures Next(s, a).round.Active? && Next(s, a).live.Up? ==>
      s.round.Active? && s.live.Up? && Next(s, a).round.next == s.round.next
  {
    hide Locking, EditNext, OtherNext, SaveNext, EditEnabled, OtherEnabled, SaveEnabled;
    hide CommitNext, ProcessNext, CommitEnabled, ProcessEnabled;
    match a
    case Edits(d) => EditKeeps(s, d);
    case Others(o) => OtherKeeps(s, o);
    case Saves(v) => SaveKeeps(s, v); SavingUp(s, v);
    case Commits(c) => CommitsSameNext(s, c);
    case Lives(p) => ProcessSameNext(s, p);
  }

  lemma CommitsSameNext(s: System, c: CommitStep)
    requires CommitEnabled(s, c)
    ensures var s' := CommitNext(s, c);
      s'.round.Active? ==> s.live.Up? && s.round.Active? && s'.round.next == s.round.next
  {
  }

  lemma ProcessSameNext(s: System, p: ProcessStep)
    requires ProcessEnabled(s, p) && Locking(s)
    ensures var s' := ProcessNext(s, p);
      s'.round.Active? ==> s.live.Up? && s.round.Active? && s'.round.next == s.round.next
  {
  }

  lemma SavingUp(s: System, v: SaveStep)
    requires SaveEnabled(s, v)
    ensures s.live.Up?
  {
  }

  lemma OtherStamps(s: System, a: Action, f: FileId)
    requires Shape(s) && Enabled(s, a) && StampsAt(s, f) && !a.Edits? && !a.Refreshes?
    ensures StampsAt(Next(s, a), f)
  {
    SameDisk(s, a);
    SameNext(s, a);
    hide Next, Enabled, Generations, Locking, Rounds, Persists;
  }

  /** No step of any process breaks the agreement of a listed file's entry with its graph part. */
  lemma MatchingStep(s: System, a: Action)
    requires Shape(s) && Matching(s) && Enabled(s, a)
    ensures Matching(Next(s, a))
  {
    forall f: FileId ensures MatchingAt(Next(s, a), f) {
      assert MatchingAt(s, f);
      match a {
        case Edits(d) => EditStamps(s, d, f);
        case Refreshes(r) => ReadStamps(s, r, f);
        case _ => OtherStamps(s, a, f);
      }
      forall k: Stamp ensures Agrees(Mixed, Next(s, a), f, Some(k)) {
        AgreesStep(Mixed, s, a, f, Some(k));
      }
    }
  }

  lemma SpoiltEdit(level: Level, s: System, d: Edit)
    requires EditEnabled(s, d) && Spoils(level, s, Edits(d))
    ensures !Agrees(level, EditNext(s, d), d.file, None)
  {
    var p :| Pair(level, s, d.file, None, p) && p != EMPTY_PART;
    EditKeeps(s, d);
    PairOnDisk(level, s, EditNext(s, d), d.file, None, p);
    hide Pair, Target;
    assert Pair(level, EditNext(s, d), d.file, None, p);
  }

  lemma SpoiltRead(level: Level, s: System, r: ReadStep)
    requires ReadEnabled(s, r) && Spoils(level, s, Refreshes(r))
    ensures !Clean(level, ReadNext(s, r))
  {
    var s' := ReadNext(s, r);
    var f := if LeavesOut(s, r.file) then r.file else Target(s.disk, r.file).value;
    var p := if f in s'.round.prepared then s'.round.prepared[f] else PartOf(s.live.graph, f);
    assert RoundHas(level, s', f, None, p);
    assert Pair(level, s', f, None, p);
    assert !Agrees(level, s', f, None);
  }

  lemma SpoiltLoad(level: Level, s: System)
    requires ProcessEnabled(s, LoadGraph) && s.live.Down? && LoadsLeftovers(s)
    ensures !Clean(level, ProcessNext(s, LoadGraph))
  {
    var f: FileId :| f !in s.loader.manifest && View(At(s.disk, f)).None?
      && PartOf(s.stored[s.loader.generation].graph, f) != EMPTY_PART;
    var s' := ProcessNext(s, LoadGraph);
    assert Pair(level, s', f, None, PartOf(s'.live.graph, f));
    assert !Agrees(level, s', f, None);
  }

  lemma SpoiltFiles(s: System, a: Action)
    requires Enabled(s, a) && (a == Lives(Crash) || a == Saves(FailSave)) && TornLeftovers(s)
    ensures !Clean(Saved, Next(s, a))
  {
    var s', g := Next(s, a), s.live.generation;
    var f: FileId :| f !in s.stored[g].manifest && View(At(s.disk, f)).None?
      && PartOf(s.stored[g].graph, f) != EMPTY_PART;
    assert StoredPair(s', g, f, None, PartOf(s.stored[g].graph, f)) && !Torn(s', g);
    assert Pair(Saved, s', f, None, PartOf(s.stored[g].graph, f));
    assert !Agrees(Saved, s', f, None);
  }

  /** A step leaves nodes behind if and only if it is one of the spoiling steps. */
  lemma CleanStep(level: Level, s: System, a: Action)
    requires Shape(s) && Matching(s) && Clean(level, s) && Enabled(s, a) && !level.Mixed?
    ensures Clean(level, Next(s, a)) <==> !Spoils(level, s, a)
  {
    if Spoils(level, s, a) {
      match a {
        case Edits(d) => SpoiltEdit(level, s, d);
        case Refreshes(r) => SpoiltRead(level, s, r);
        case Saves(_) => SpoiltFiles(s, a);
        case Lives(Crash) => SpoiltFiles(s, a);
        case Lives(_) => SpoiltLoad(level, s);
      }
    } else {
      forall f: FileId ensures Agrees(level, Next(s, a), f, None) {
        assert MatchingAt(s, f);
        AgreesStep(level, s, a, f, None);
      }
    }
  }

  // ---------------------------------------------------------------- whole runs

  lemma {:induction false} MatchingRun(s: System, actions: seq<Action>)
    requires Shape(s) && Matching(s) && Runs(s, actions)
    ensures Shape(Final(s, actions)) && Matching(Final(s, actions))
    decreases |actions|
  {
    if actions != [] {
      ShapeStep(s, actions[0]);
      MatchingStep(s, actions[0]);
      MatchingRun(Next(s, actions[0]), actions[1..]);
    }
  }

  ghost predicate NeverSpoils(level: Level, s: System, actions: seq<Action>)
    requires Runs(s, actions)
    decreases |actions|
  {
    actions == []
    || (!Spoils(level, s, actions[0]) && NeverSpoils(level, Next(s, actions[0]), actions[1..]))
  }

  lemma {:induction false} CleanRun(level: Level, s: System, actions: seq<Action>)
    requires Shape(s) && Matching(s) && Clean(level, s) && !level.Mixed?
    requires Runs(s, actions) && NeverSpoils(level, s, actions)
    ensures Clean(level, Final(s, actions))
    decreases |actions|
  {
    if actions != [] {
      ShapeStep(s, actions[0]);
      MatchingStep(s, actions[0]);
      CleanStep(level, s, actions[0]);
      CleanRun(level, Next(s, actions[0]), actions[1..]);
    }
  }

  /** What the pending check answers when nothing changes while it scans. */
  ghost predicate Pending(s: System)
    requires s.live.Up?
  {
    s.live.superseded
    || exists f :: f in FullScope(s.disk, s.live.manifest) && View(At(s.disk, f)) != Entry(s.live.manifest, f)
  }

  /** The live graph holds for every file what an index built from the disk holds. */
  ghost predicate UpToDate(s: System)
    requires s.live.Up?
  {
    forall f: FileId :: PartOf(s.live.graph, f) == Fresh(At(s.disk, f))
  }

  /** A stale graph that the pending check calls fresh. */
  ghost predicate MissesAChange(s: System) {
    s.live.Up? && !Pending(s) && !UpToDate(s)
  }

  /** The live graph has nodes of the file, the manifest does not list it and the walk does not see it. */
  predicate Leftover(s: System, f: FileId)
    requires s.live.Up?
  {
    f !in s.live.manifest && View(At(s.disk, f)).None? && PartOf(s.live.graph, f) != EMPTY_PART
  }

  ghost predicate Leftovers(s: System)
    requires s.live.Up?
  {
    exists f: FileId :: Leftover(s, f)
  }

  lemma SameView(s: System, f: FileId)
    requires s.live.Up? && !Pending(s)
    ensures View(At(s.disk, f)) == Entry(s.live.manifest, f)
  {
    if f !in FullScope(s.disk, s.live.manifest) {
      assert At(s.disk, f) == Gone;
    }
  }

  lemma SamePart(s: System, f: FileId)
    requires Matching(s) && s.live.Up? && !Pending(s)
    ensures PartOf(s.live.graph, f) == Fresh(At(s.disk, f)) || Leftover(s, f)
  {
    SameView(s, f);
    if f in s.live.manifest {
      assert MatchingAt(s, f);
      assert Agrees(Mixed, s, f, Some(s.live.manifest[f]));
      assert Pair(Mixed, s, f, Entry(s.live.manifest, f), PartOf(s.live.graph, f));
    }
  }

  /** After any run at all, a quiet pending check means that the graph is the one built from the disk,
      except for leftovers: it is exact if and only if there are none. */
  lemma QuietMeansUpToDate(s: System, actions: seq<Action>)
    requires Shape(s) && Matching(s) && Runs(s, actions)
    requires Final(s, actions).live.Up? && !Pending(Final(s, actions))
    ensures UpToDate(Final(s, actions)) <==> !Leftovers(Final(s, actions))
  {
    MatchingRun(s, actions);
    var t := Final(s, actions);
    forall f: FileId
      ensures PartOf(t.live.graph, f) == Fresh(At(t.disk, f)) || Leftover(t, f)
    {
      SamePart(t, f);
    }
  }

  /** Over any run without a spoiling step, the pending check never misses a stale graph. */
  lemma NoMissedChange(s: System, actions: seq<Action>)
    requires Shape(s) && Matching(s) && Clean(Process, s) && Runs(s, actions) && NeverSpoils(Process, s, actions)
    requires Final(s, actions).live.Up? && !Pending(Final(s, actions))
    ensures UpToDate(Final(s, actions))
  {
    CleanRun(Process, s, actions);
    QuietMeansUpToDate(s, actions);
    var t := Final(s, actions);
    forall f: FileId ensures !Leftover(t, f) {
      if f !in t.live.manifest {
        assert Agrees(Process, t, f, None);
        assert Pair(Process, t, f, None, PartOf(t.live.graph, f));
      }
    }
  }

  /** Wherever a load is interleaved with persists, crashes and activations, the graph it reads is not
      older than the manifest it read before: a listed file whose entry still matches the disk has the
      part it parses to. */
  lemma LoadedGraphIsNotOlder(s: System, actions: seq<Action>, f: FileId)
    requires Shape(s) && Matching(s) && Runs(s, actions)
    requires ProcessEnabled(Final(s, actions), LoadGraph)
    requires f in Final(s, actions).loader.manifest
    ensures var t := Final(s, actions);
      View(At(t.disk, f)) == Entry(t.loader.manifest, f) ==>
        PartOf(t.stored[t.loader.generation].graph, f) == Fresh(At(t.disk, f))
  {
    MatchingRun(s, actions);
    var t := Final(s, actions);
    assert MatchingAt(t, f);
    assert Agrees(Mixed, t, f, Some(t.loader.manifest[f]));
    assert Pair(Mixed, t, f, Entry(t.loader.manifest, f), PartOf(t.stored[t.loader.generation].graph, f));
  }

  /** The load reads the manifest and the graph of one persist. */
  ghost predicate LoadsOnePersist(s: System)
    requires ProcessEnabled(s, LoadGraph)
  {
    s.loader.manifest == s.stored[s.loader.generation].manifest && !Torn(s, s.loader.generation)
  }

  /** No persist ends between its two renames, no load straddles one of them, and neither an edit nor a
      round leaves nodes behind. */
  ghost predicate Orderly(s: System, a: Action)
    requires Enabled(s, a)
  {
    match a
    case Lives(LoadGraph) => LoadsOnePersist(s)
    case Lives(Crash) => !SaveIn(s, GraphRenamed)
    case Saves(FailSave) => !SaveIn(s, GraphRenamed)
    case _ => !Spoils(Saved, s, a)
  }

  lemma OnePersistIsClean(s: System)
    requires Clean(Saved, s) && ProcessEnabled(s, LoadGraph) && LoadsOnePersist(s)
    ensures !LoadsLeftovers(s)
  {
    var g := s.loader.generation;
    forall f: FileId | f !in s.loader.manifest && View(At(s.disk, f)).None?
      ensures PartOf(s.stored[g].graph, f) == EMPTY_PART
    {
      assert Agrees(Saved, s, f, None);
      assert StoredPair(s, g, f, None, PartOf(s.stored[g].graph, f)) && !Torn(s, g);
      assert Pair(Saved, s, f, None, PartOf(s.stored[g].graph, f));
    }
  }

  ghost predicate OrderlyRun(s: System, actions: seq<Action>)
    requires Runs(s, actions)
    decreases |actions|
  {
    actions == [] || (Orderly(s, actions[0]) && OrderlyRun(Next(s, actions[0]), actions[1..]))
  }

  /** If no persist stopped between its renames and no load straddles one, a load brings no leftovers:
      the edits that would leave some are those named for a running index. */
  lemma {:induction false} LoadedGraphIsClean(s: System, actions: seq<Action>)
    requires Shape(s) && Matching(s) && Clean(Saved, s) && Runs(s, actions) && OrderlyRun(s, actions)
    requires ProcessEnabled(Final(s, actions), LoadGraph) && LoadsOnePersist(Final(s, actions))
    ensures !LoadsLeftovers(Final(s, actions))
    decreases |actions|
  {
    if actions == [] {
      OnePersistIsClean(s);
    } else {
      var a := actions[0];
      if a == Lives(LoadGraph) { OnePersistIsClean(s); }
      ShapeStep(s, a);
      MatchingStep(s, a);
      CleanStep(Saved, s, a);
      LoadedGraphIsClean(Next(s, a), actions[1..]);
    }
  }
}
