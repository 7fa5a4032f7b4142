/** The structure of reachable states: generations, the lock, a round's and a persist's bookkeeping. */
module LiveShape {
  import opened CodeModel
  import opened VectorRows
  import opened LiveModel

  predicate HoldsRoundLock(r: Round) {
    r.Active? && r.phase in {Locked, Deleting, Writing}
  }

  predicate PastScan(r: Round) {
    r.Active? && r.phase != Scanning
  }

  predicate PastCheck(r: Round) {
    r.Active? && r.phase in {Deleting, Writing}
  }

  /** Generations are numbered as they are activated, and the stored ones are those below `next`. */
  ghost predicate Generations(s: System) {
    && s.pointer in s.stored
    && (forall g :: g in s.stored ==> g < s.next)
    && s.tables.Keys == s.stored.Keys
    && (s.live.Up? ==> s.live.generation in s.stored)
    && (s.loader.GotManifest? ==> s.loader.generation in s.stored)
  }

  /** Who holds the activation lock, and what holding it guarantees about the pointer. */
  ghost predicate Locking(s: System) {
    && (s.live.Down? ==> s.round.Idle? && s.persist.NoPersist? && s.lock in {Free, ByOther})
    && (s.lock == ByRound <==> HoldsRoundLock(s.round))
    && (s.persist.Persisting? && s.persist.stage in {Checked, GraphRenamed} ==> s.lock == ByPersist)
    && (s.lock == ByPersist ==> s.persist.Persisting? && s.persist.stage in {Waiting, Checked, GraphRenamed})
    && (s.live.Up? && PastCheck(s.round) ==> s.pointer == s.live.generation)
    && (SaveIn(s, Checked) || SaveIn(s, GraphRenamed) ==> s.pointer == s.live.generation)
    && (SaveIn(s, Refused) ==> s.pointer != s.live.generation)
    && (s.live.Up? && s.live.superseded ==> s.pointer != s.live.generation && s.round.Idle?)
  }

  /** A round's bookkeeping. */
  ghost predicate Rounds(s: System) {
    && (s.round.Active? && s.round.phase == Scanning ==>
          s.round == Active(Scanning, s.round.todo, s.round.next, {}, map[], {}, map[], [], false, [], {}, map[]))
    && (s.live.Up? && PastScan(s.round) ==>
      && s.live.dirty <= s.round.files
      && s.live.needsRescan
      && s.round.passed <= s.round.files
      && (s.round.phase == Preparing ==>
            s.round.todo <= s.round.files
            && s.round.files <= s.round.prepared.Keys + s.round.retry + s.round.passed + s.round.todo)
      && (s.round.phase != Preparing ==>
            s.round.files <= s.round.prepared.Keys + s.round.retry + s.round.passed)
      && (PastCheck(s.round) ==> s.round.todo <= s.round.prepared.Keys && s.live.dirty == s.round.files)
      && (s.round.phase == Writing ==> s.round.todo == {})
      && (!PastCheck(s.round) ==> s.round.kept == map[])
      && forall f :: f !in s.round.files ==> Entry(s.round.next, f) == Entry(s.live.manifest, f))
  }

  /** What persisting has stored so far; a version that is up to date is stored in full. */
  ghost predicate Persists(s: System) {
    s.live.Up? && s.live.generation in s.stored ==>
      && (s.persist.Persisting? ==>
            && s.live.persistedVersion < s.persist.version <= s.live.version
            && (s.persist.version == s.live.version ==>
                  s.persist.graph == s.live.graph && s.persist.manifest == s.live.manifest))
      && s.live.persistedVersion <= s.live.version
      && (s.persist.Persisting? && s.persist.stage in {GraphRenamed, Written} ==>
            s.stored[s.live.generation].graph == s.persist.graph)
      && (s.persist.Persisting? && s.persist.stage == Written ==>
            s.stored[s.live.generation].manifest == s.persist.manifest)
      && (s.live.version == s.live.persistedVersion && 0 < s.live.version ==>
            s.stored[s.live.generation] == Stored(s.live.graph, s.live.manifest))
  }

  ghost predicate Shape(s: System) {
    Generations(s) && Locking(s) && Rounds(s) && Persists(s)
  }

  lemma NoDifference(previous: Manifest, next: Manifest)
    requires Differing(previous, next) == {}
    ensures previous == next
  {
    forall f | f in previous.Keys + next.Keys
      ensures Entry(previous, f) == Entry(next, f)
    {
      assert f !in Differing(previous, next);
    }
    assert forall f :: f in previous <==> f in next by {
      forall f ensures f in previous <==> f in next {
        if f in previous { assert Entry(previous, f).Some?; }
        if f in next { assert Entry(next, f).Some?; }
      }
    }
  }

  // ---------------------------------------------------------------- what each kind of step can change

  lemma EditKeeps(s: System, d: Edit)
    requires EditEnabled(s, d)
    ensures var s' := EditNext(s, d); s' == s.(disk := s'.disk, clock := s'.clock)
  {
  }

  lemma OtherKeeps(s: System, o: OtherStep)
    requires OtherEnabled(s, o)
    ensures var s' := OtherNext(s, o);
      s' == s.(pointer := s'.pointer, next := s'.next, lock := s'.lock, stored := s'.stored, tables := s'.tables)
  {
  }

  lemma ReadKeeps(s: System, r: ReadStep)
    requires ReadEnabled(s, r)
    ensures var s' := ReadNext(s, r); s' == s.(live := s'.live, round := s'.round)
  {
  }

  lemma CommitKeeps(s: System, c: CommitStep)
    requires CommitEnabled(s, c)
    ensures var s' := CommitNext(s, c);
      s' == s.(lock := s'.lock, tables := s'.tables, live := s'.live, round := s'.round)
  {
  }

  lemma SaveKeeps(s: System, v: SaveStep)
    requires SaveEnabled(s, v)
    ensures var s' := SaveNext(s, v);
      s' == s.(lock := s'.lock, stored := s'.stored, live := s'.live, persist := s'.persist)
  {
  }

  lemma ProcessKeeps(s: System, p: ProcessStep)
    requires ProcessEnabled(s, p)
    ensures var s' := ProcessNext(s, p);
      s' == s.(lock := s'.lock, live := s'.live, round := s'.round, persist := s'.persist, loader := s'.loader)
  {
  }

  // ---------------------------------------------------------------- every step keeps the structure

  lemma ShapeEdit(s: System, e: Edit)
    requires Shape(s) && EditEnabled(s, e)
    ensures Shape(EditNext(s, e))
  {
  }

  lemma ShapeOther(s: System, o: OtherStep)
    requires Shape(s) && OtherEnabled(s, o)
    ensures Shape(OtherNext(s, o))
  {
    var s' := OtherNext(s, o);
    if o.Activate? {
      assert s'.stored.Keys == s.stored.Keys + {s.next};
      assert s'.tables.Keys == s.tables.Keys + {s.next};
    }
  }

  /** Ending a scan changes only the round and the rescan flag: when nothing differs, the new manifest is
      the old one. */
  lemma ScanDoneKeeps(s: System)
    requires ReadEnabled(s, ScanDone)
    ensures var s' := AfterScan(s);
      var files := s.live.dirty + Differing(s.live.manifest, s.round.next);
      && s' == s.(live := s.live.(needsRescan := files != {}), round := s'.round)
      && s'.round == if files == {} then Idle else s.round.(phase := Preparing, files := files, todo := files)
  {
    hide Differing;
    if Differing(s.live.manifest, s.round.next) == {} {
      NoDifference(s.live.manifest, s.round.next);
    }
  }

  lemma ScanDoneRounds(s: System)
    requires Shape(s) && ReadEnabled(s, ScanDone)
    ensures Rounds(AfterScan(s))
  {
    hide Generations, Locking, Persists, RestoreRetryFiles;
    forall f | f !in Differing(s.live.manifest, s.round.next)
      ensures Entry(s.round.next, f) == Entry(s.live.manifest, f)
    {
    }
  }

  lemma ScanDonePersists(s: System)
    requires Shape(s) && ReadEnabled(s, ScanDone)
    ensures Persists(AfterScan(s))
  {
    ScanDoneKeeps(s);
    hide AfterScan, Differing;
  }

  lemma ScanDoneLocking(s: System)
    requires Generations(s) && Locking(s) && ReadEnabled(s, ScanDone)
    ensures Generations(AfterScan(s)) && Locking(AfterScan(s))
  {
  }

  lemma ShapeRead(s: System, r: ReadStep)
    requires Shape(s) && ReadEnabled(s, r)
    ensures Shape(ReadNext(s, r))
  {
    hide Generations, Locking, Rounds, Persists, AfterPrepare, AfterScan, ReadEnabled;
    match r {
      case ScanDone =>
        ScanDoneRounds(s);
        ScanDonePersists(s);
        ScanDoneLocking(s);
      case PrepareOk(f) => ShapePrepare(s, f);
      case _ => ShapeOtherRead(s, r);
    }
  }

  lemma ShapePrepare(s: System, f: FileId)
    requires Shape(s) && ReadEnabled(s, PrepareOk(f))
    ensures Shape(AfterPrepare(s, f))
  {
    hide Canonical, NewNodes, Covered, KnownVectors, Read, HasText;
  }

  lemma ShapeOtherRead(s: System, r: ReadStep)
    requires Shape(s) && ReadEnabled(s, r) && !r.ScanDone? && !r.PrepareOk?
    ensures Shape(ReadNext(s, r))
  {
    hide Canonical, AfterPrepare, AfterScan, EmbedAll, Flatten;
  }

  lemma CommitKeepsGenerations(s: System, c: CommitStep)
    requires Generations(s) && CommitEnabled(s, c)
    ensures Generations(CommitNext(s, c))
  {
    hide Without, KeptWithout, Owned, RestoreRetryFiles;
    assert CommitNext(s, c).tables.Keys == s.tables.Keys;
  }

  lemma CommitKeepsPersists(s: System, c: CommitStep)
    requires Persists(s) && CommitEnabled(s, c)
    ensures Persists(CommitNext(s, c))
  {
    hide Without, KeptWithout, Owned, RestoreRetryFiles;
  }

  lemma CommitKeepsLocking(s: System, c: CommitStep)
    requires Locking(s) && CommitEnabled(s, c)
    ensures Locking(CommitNext(s, c))
  {
    hide Without, KeptWithout, Owned, RestoreRetryFiles;
  }

  lemma CommitKeepsRounds(s: System, c: CommitStep)
    requires Rounds(s) && CommitEnabled(s, c)
    ensures Rounds(CommitNext(s, c))
  {
    hide Without, KeptWithout, Owned, RestoreRetryFiles;
  }

  lemma ShapeCommit(s: System, c: CommitStep)
    requires Shape(s) && CommitEnabled(s, c)
    ensures Shape(CommitNext(s, c))
  {
    hide Generations, Locking, Rounds, Persists, CommitNext, CommitEnabled;
    CommitKeepsGenerations(s, c);
    CommitKeepsPersists(s, c);
    CommitKeepsLocking(s, c);
    CommitKeepsRounds(s, c);
  }

  lemma SaveKeepsGenerations(s: System, p: SaveStep)
    requires Shape(s) && SaveEnabled(s, p)
    ensures Generations(SaveNext(s, p)) && Rounds(SaveNext(s, p))
  {
    hide Persists, Locking;
    assert SaveNext(s, p).stored.Keys == s.stored.Keys;
  }

  lemma SaveKeepsLocking(s: System, p: SaveStep)
    requires Shape(s) && SaveEnabled(s, p)
    ensures Locking(SaveNext(s, p))
  {
    hide Persists, Rounds, Generations;
  }

  lemma SaveKeepsPersists(s: System, p: SaveStep)
    requires Shape(s) && SaveEnabled(s, p)
    ensures Persists(SaveNext(s, p))
  {
    hide Generations, Rounds;
  }

  lemma ShapeSave(s: System, p: SaveStep)
    requires Shape(s) && SaveEnabled(s, p)
    ensures Shape(SaveNext(s, p))
  {
    hide Generations, Locking, Rounds, Persists, SaveNext, SaveEnabled;
    SaveKeepsGenerations(s, p);
    SaveKeepsLocking(s, p);
    SaveKeepsPersists(s, p);
  }

  lemma ShapeProcess(s: System, p: ProcessStep)
    requires Shape(s) && ProcessEnabled(s, p)
    ensures Shape(ProcessNext(s, p))
  {
  }

  lemma ShapeStep(s: System, a: Action)
    requires Shape(s) && Enabled(s, a)
    ensures Shape(Next(s, a))
  {
    match a
    case Edits(e) => ShapeEdit(s, e);
    case Others(o) => ShapeOther(s, o);
    case Refreshes(r) => ShapeRead(s, r);
    case Commits(c) => ShapeCommit(s, c);
    case Saves(p) => ShapeSave(s, p);
    case Lives(p) => ShapeProcess(s, p);
  }

  lemma {:induction false} ShapeRun(s: System, actions: seq<Action>)
    requires Shape(s) && Runs(s, actions)
    ensures Shape(Final(s, actions))
    decreases |actions|
  {
    hide Shape;
    if actions != [] {
      ShapeStep(s, actions[0]);
      ShapeRun(Next(s, actions[0]), actions[1..]);
    }
  }
}
