/** The other half of the freshness results: what the spoiling steps leave behind is really missed. From
    every state in which it remains there is a run without any edit that ends with a stale graph the
    pending check calls fresh. */
module LiveMissed {
  import opened Basics
  import opened CodeModel
  import opened VectorRows
  import opened LiveModel
  import opened LiveShape
  import opened LiveFreshness
  import opened LiveConvergence

  // ---------------------------------------------------------------- a full round can always be run

  /** `done` leads from `s` to `t` without an edit or a failure. */
  ghost predicate Leads(s: System, done: seq<Action>, t: System) {
    Runs(s, done) && Final(s, done) == t && AllUndisturbed(done) && Shape(t)
  }

  /** No other generation is active and the lock is not in anyone's way. */
  predicate Unhindered(t: System) {
    t.live.Up? && !t.live.superseded && t.pointer == t.live.generation && t.lock in {Free, ByRound}
  }

  lemma Go(s: System, done: seq<Action>, t: System, a: Action) returns (done': seq<Action>, t': System)
    requires Leads(s, done, t) && Enabled(t, a) && Undisturbed(a)
    ensures Leads(s, done', t') && t' == Next(t, a)
  {
    hide Shape;
    done', t' := done + [a], Next(t, a);
    RunsSnoc(s, done, a);
    ShapeStep(t, a);
  }

  /** A persist that is under way fails and another process lets go of the lock. */
  lemma FreeLock(s: System, done: seq<Action>, t: System) returns (done': seq<Action>, t': System)
    requires Leads(s, done, t) && t.live.Up? && !t.live.superseded && t.pointer == t.live.generation
    ensures Leads(s, done', t') && Unhindered(t')
    ensures t'.live == t.live && t'.round == t.round && t'.disk == t.disk
  {
    hide Runs, Final, Generations, Rounds, Persists;
    done', t' := done, t;
    if t.lock == ByOther {
      done', t' := Go(s, done, t, Others(Unlock));
    } else if t.lock == ByPersist {
      done', t' := Go(s, done, t, Saves(FailSave));
    }
  }

  /** The steps of a phase change only the round, and open the table. */
  ghost predicate OnlyRound(t: System, t': System) {
    t.live.Up? && t'.live.Up?
    && t' == t.(round := t'.round, live := t.live.(tableOpen := t'.live.tableOpen))
  }

  lemma ScanRest(s: System, done: seq<Action>, t: System) returns (done': seq<Action>, t': System)
    requires Leads(s, done, t) && RoundIn(t, Scanning)
    ensures Leads(s, done', t') && RoundIn(t', Scanning) && t'.round.todo == {} && OnlyRound(t, t')
    decreases |t.round.todo|
  {
    hide Leads;
    done', t' := done, t;
    if t.round.todo != {} {
      var f :| f in t.round.todo;
      done', t' := Go(s, done, t, Refreshes(ScanOne(f)));
      done', t' := ScanRest(s, done', t');
    }
  }

  /** A path the round has still to prepare leads to the file. */
  ghost predicate LedTo(t: System, f: FileId) {
    t.round.Active? && t.round.phase == Preparing
    && exists h :: h in t.round.todo && Target(t.disk, h) == Some(f)
  }

  /** What the round is to leave for a file stays as it is, unless the file is read again. */
  ghost predicate KeepsAt(t: System, t': System, f: FileId)
    requires t.live.Up? && t.round.Active? && t'.live.Up? && t'.round.Active?
  {
    forall p :: PartAfter(t, f, p) ==>
      PartAfter(t', f, p) || (LedTo(t, f) && PartAfter(t', f, Read(At(t.disk, f))))
  }

  ghost predicate Keeps(t: System, t': System)
    requires t.live.Up? && t.round.Active?
  {
    t'.live.Up? && t'.round.Active? && t'.round.next == t.round.next && t'.round.retry == t.round.retry
    && (forall f :: LedTo(t', f) ==> LedTo(t, f)) && (forall f: FileId :: KeepsAt(t, t', f))
  }

  lemma PrepareOneAt(t: System, h: FileId, f: FileId)
    requires Rounds(t) && ReadEnabled(t, PrepareOk(h))
    ensures KeepsAt(t, AfterPrepare(t, h), f)
    ensures LedTo(AfterPrepare(t, h), f) ==> LedTo(t, f)
  {
    hide Target, NewNodes, Covered, KnownVectors;
    if Target(t.disk, h) == Some(f) { assert LedTo(t, f); }
  }

  lemma PrepareOne(t: System, h: FileId)
    requires Rounds(t) && ReadEnabled(t, PrepareOk(h))
    ensures var t' := ReadNext(t, PrepareOk(h));
      RoundIn(t', Preparing) && OnlyRound(t, t') && Keeps(t, t') && t'.round.todo == t.round.todo - {h}
  {
    hide Target, NewNodes, Covered, KnownVectors, KeepsAt, LedTo;
    forall f: FileId
      ensures KeepsAt(t, AfterPrepare(t, h), f) && (LedTo(AfterPrepare(t, h), f) ==> LedTo(t, f))
    {
      PrepareOneAt(t, h, f);
    }
  }

  lemma KeepsAtAll(t: System, t': System, t'': System, f: FileId)
    requires t.live.Up? && t.round.Active? && t'.live.Up? && t'.round.Active? && t''.live.Up? && t''.round.Active?
    requires KeepsAt(t, t', f) && KeepsAt(t', t'', f) && (LedTo(t', f) ==> LedTo(t, f)) && t'.disk == t.disk
    ensures KeepsAt(t, t'', f)
  {
  }

  lemma KeepsAll(t: System, t': System, t'': System)
    requires t.live.Up? && t.round.Active? && OnlyRound(t, t') && Keeps(t, t') && Keeps(t', t'')
    requires OnlyRound(t', t'')
    ensures Keeps(t, t'') && OnlyRound(t, t'')
  {
    hide KeepsAt, LedTo;
    forall f: FileId ensures KeepsAt(t, t'', f) {
      assert KeepsAt(t, t', f);
      KeepsAtAll(t, t', t'', f);
    }
  }

  lemma KeepsItself(t: System)
    requires t.live.Up? && t.round.Active?
    ensures Keeps(t, t)
  {
  }

  lemma PrepareRest(s: System, done: seq<Action>, t: System) returns (done': seq<Action>, t': System)
    requires Leads(s, done, t) && RoundIn(t, Preparing)
    ensures Leads(s, done', t') && RoundIn(t', Preparing) && t'.round.todo == {}
    ensures OnlyRound(t, t') && Keeps(t, t')
    decreases |t.round.todo|
  {
    done', t' := done, t;
    if t.round.todo == {} {
      KeepsItself(t);
    } else {
      assert Rounds(t);
      hide Leads, Rounds, Keeps, ReadNext;
      var f :| f in t.round.todo;
      PrepareOne(t, f);
      var done1, t1 := Go(s, done, t, Refreshes(PrepareOk(f)));
      done', t' := PrepareRest(s, done1, t1);
      KeepsAll(t, t1, t');
    }
  }

  /** What the round is to leave is the same. */
  ghost predicate SameRound(t: System, t': System)
    requires t.round.Active?
  {
    t.live.Up? && t'.live.Up? && t'.round.Active? && t'.live.graph == t.live.graph
    && t'.live.manifest == t.live.manifest && t'.disk == t.disk
    && t'.round.next == t.round.next && t'.round.retry == t.round.retry
    && t'.round.prepared == t.round.prepared && t'.round.passed == t.round.passed
    && t'.round.phase !in {Scanning, Preparing}
  }

  lemma EmbedRest(s: System, done: seq<Action>, t: System) returns (done': seq<Action>, t': System)
    requires Leads(s, done, t) && RoundIn(t, Preparing) && t.round.todo == {}
    ensures Leads(s, done', t') && RoundIn(t', Embedded) && OnlyRound(t, t')
    ensures SameRound(t, t')
  {
    hide Leads, EmbedAll;
    var rows := EmbedAll(t.round.nodes, t.round.known);
    assert Flatten([rows]) == rows by { assert [rows][1..] == []; }
    done', t' := Go(s, done, t, Refreshes(EmbedDone([rows])));
  }

  /** The steps of a commit change only the table and the round. */
  ghost predicate OnlyTable(t: System, t': System) {
    t.live.Up? && t'.live.Up?
    && t' == t.(round := t'.round, tables := t'.tables, live := t.live.(tableOpen := t'.live.tableOpen))
  }

  lemma DeleteRest(s: System, done: seq<Action>, t: System) returns (done': seq<Action>, t': System)
    requires Leads(s, done, t) && RoundIn(t, Deleting)
    ensures Leads(s, done', t') && RoundIn(t', Deleting) && t'.round.todo == {}
    ensures OnlyTable(t, t') && t'.round == t.round.(todo := {}, kept := t'.round.kept)
    decreases |t.round.todo|
  {
    done', t' := done, t;
    if t.round.todo != {} {
      assert t.live.generation in t.tables;
      hide Leads;
      var f :| f in t.round.todo;
      done', t' := Go(s, done, t, Commits(DeleteRows(f)));
      done', t' := DeleteRest(s, done', t');
    }
  }

  lemma WriteRest(s: System, done: seq<Action>, t: System) returns (done': seq<Action>, t': System)
    requires Leads(s, done, t) && Committing(t) && t.round.todo == {}
    ensures Leads(s, done', t') && Committing(t') && t'.round.todo == {} && t'.round.batches == []
    ensures OnlyTable(t, t') && t'.round == t.round.(phase := t'.round.phase, batches := [])
    decreases |t.round.batches|
  {
    done', t' := done, t;
    if t.round.batches != [] {
      assert t.live.generation in t.tables;
      hide Leads;
      done', t' := Go(s, done, t, Commits(WriteBatch));
      done', t' := WriteRest(s, done', t');
    }
  }

  /** What the round was to leave is there, unless it was read again; and it is dirty only if put off. */
  ghost predicate BringsAt(t: System, t': System, f: FileId)
    requires t.live.Up? && t.round.Active? && t'.live.Up?
  {
    forall p :: PartAfter(t, f, p) ==>
      && (PartOf(t'.live.graph, f) == p || (LedTo(t, f) && PartOf(t'.live.graph, f) == Read(At(t.disk, f))))
      && Entry(t'.live.manifest, f) == EntryAfter(t, f)
      && (f in t'.live.dirty ==> f in t.round.retry)
  }

  ghost predicate Brings(t: System, t': System)
    requires t.live.Up? && t.round.Active?
  {
    t'.live.Up? && forall f: FileId :: BringsAt(t, t', f)
  }

  lemma SwapRest(s: System, done: seq<Action>, t: System) returns (done': seq<Action>, t': System)
    requires Leads(s, done, t) && Committing(t) && t.round.todo == {} && t.round.batches == []
    ensures Leads(s, done', t') && t'.round.Idle? && t'.disk == t.disk && Brings(t, t')
    ensures t'.live.superseded == t.live.superseded && t'.live.generation == t.live.generation
    ensures t'.pointer == t.pointer
  {
    assert Rounds(t);
    hide Leads;
    done', t' := Go(s, done, t, Commits(SwapGraph));
    forall f: FileId ensures BringsAt(t, t', f) {
      assert Entry(t'.live.manifest, f) == EntryAfter(t, f);
    }
  }

  lemma CommitRest(s: System, done: seq<Action>, t: System) returns (done': seq<Action>, t': System)
    requires Leads(s, done, t) && Committing(t)
    ensures Leads(s, done', t') && t'.round.Idle? && t'.disk == t.disk && Brings(t, t')
    ensures t'.live.superseded == t.live.superseded && t'.live.generation == t.live.generation
    ensures t'.pointer == t.pointer
  {
    assert Rounds(t);
    hide Leads, Brings;
    done', t' := done, t;
    if t.round.phase == Deleting {
      done', t' := DeleteRest(s, done, t);
    }
    done', t' := WriteRest(s, done', t');
    var last := t';
    assert SameRound(t, last);
    done', t' := SwapRest(s, done', t');
    BringsTheSame(t, last, t');
  }

  lemma BringsTheSame(t: System, last: System, t': System)
    requires t.round.Active? && SameRound(t, last) && Brings(last, t')
    ensures Brings(t, t')
  {
    forall f: FileId ensures BringsAt(t, t', f) {
      assert BringsAt(last, t', f) && !LedTo(last, f);
      forall p | PartAfter(t, f, p) ensures PartAfter(last, f, p) {
      }
    }
  }

  lemma BringsKept(t: System, last: System, t': System)
    requires t.live.Up? && t.round.Active? && OnlyRound(t, last) && Keeps(t, last) && last.round.todo == {}
    requires Brings(last, t')
    ensures Brings(t, t')
  {
    forall f: FileId ensures BringsAt(t, t', f) {
      assert BringsAt(last, t', f) && KeepsAt(t, last, f);
      BringsKeptAt(t, last, t', f);
    }
  }

  lemma BringsKeptAt(t: System, last: System, t': System, f: FileId)
    requires t.live.Up? && t.round.Active? && OnlyRound(t, last) && Keeps(t, last) && last.round.todo == {}
    requires t'.live.Up? && BringsAt(last, t', f) && KeepsAt(t, last, f)
    ensures BringsAt(t, t', f)
  {
    hide Target;
    assert !LedTo(last, f) && EntryAfter(last, f) == EntryAfter(t, f);
    var again := Read(At(t.disk, f));
    assert PartAfter(last, f, again) ==> PartOf(t'.live.graph, f) == again;
  }

  lemma LockRest(s: System, done: seq<Action>, t: System) returns (done': seq<Action>, t': System)
    requires Leads(s, done, t) && (RoundIn(t, Embedded) || RoundIn(t, Locked)) && Unhindered(t)
    ensures Leads(s, done', t') && Committing(t') && SameRound(t, t')
    ensures t'.pointer == t.pointer && t'.live.generation == t.live.generation && !t'.live.superseded
  {
    assert Locking(t);
    hide Leads;
    done', t' := done, t;
    if t.round.phase == Embedded {
      done', t' := Go(s, done, t, Commits(TakeLock));
    }
    done', t' := Go(s, done', t', Commits(CheckPointer));
  }

  /** A round ends well from wherever it is. */
  lemma FinishRound(s: System, done: seq<Action>, t: System) returns (done': seq<Action>, t': System)
    requires Leads(s, done, t) && t.round.Active? && Unhindered(t)
    ensures Leads(s, done', t') && InUse(t') && t'.disk == t.disk && Brings(t, t')
    ensures t'.pointer == t'.live.generation
    decreases if t.round.phase == Scanning then 1 else 0
  {
    assert Rounds(t);
    hide Leads, Brings;
    done', t' := done, t;
    match t.round.phase {
      case Scanning =>
        done', t' := ScanRest(s, done, t);
        done', t' := Go(s, done', t', Refreshes(ScanDone));
        if t'.round.Active? {
          done', t' := FinishRound(s, done', t');
        }
        BringsNothing(t, t');
      case Preparing => done', t' := FinishPreparing(s, done, t);
      case Embedded => done', t' := FinishCommit(s, done, t);
      case Locked => done', t' := FinishCommit(s, done, t);
      case Deleting => done', t' := CommitRest(s, done, t);
      case Writing => done', t' := CommitRest(s, done, t);
    }
  }

  lemma BringsNothing(t: System, t': System)
    requires t.live.Up? && t.round.Active? && t.round.prepared == map[] && t.round.passed == {} && t'.live.Up?
    ensures Brings(t, t')
  {
  }

  lemma FinishCommit(s: System, done: seq<Action>, t: System) returns (done': seq<Action>, t': System)
    requires Leads(s, done, t) && (RoundIn(t, Embedded) || RoundIn(t, Locked)) && Unhindered(t)
    ensures Leads(s, done', t') && InUse(t') && t'.disk == t.disk && Brings(t, t')
    ensures t'.pointer == t'.live.generation
  {
    hide Leads, Brings;
    done', t' := LockRest(s, done, t);
    var last := t';
    done', t' := CommitRest(s, done', t');
    BringsTheSame(t, last, t');
  }

  lemma FinishPreparing(s: System, done: seq<Action>, t: System) returns (done': seq<Action>, t': System)
    requires Leads(s, done, t) && RoundIn(t, Preparing) && Unhindered(t)
    ensures Leads(s, done', t') && InUse(t') && t'.disk == t.disk && Brings(t, t')
    ensures t'.pointer == t'.live.generation
  {
    hide Leads, Brings;
    done', t' := PrepareRest(s, done, t);
    var ready := t';
    done', t' := EmbedRest(s, done', t');
    var last := t';
    done', t' := FinishCommit(s, done', t');
    BringsTheSame(ready, last, t');
    BringsKept(t, ready, t');
  }

  /** Everything a full comparison visits. */
  function Everything(s: System): set<FileId>
    requires s.live.Up?
  {
    FullScope(s.disk, s.live.manifest)
  }

  /** Whatever failed before, a live index of the active generation can run a full round to its end. */
  lemma FullRoundExists(s: System) returns (actions: seq<Action>)
    requires Shape(s) && InUse(s) && s.pointer == s.live.generation
    ensures Runs(s, actions) && FullRound(s, Everything(s), actions) && InUse(Final(s, actions))
  {
    var first := Refreshes(Begin(Everything(s)));
    var t := Next(s, first);
    ShapeStep(s, first);
    assert Leads(t, [], t);
    assert t.live == s.live && t.pointer == s.pointer && t.round.Active?;
    hide Leads;
    var done, u := FreeLock(t, [], t);
    done, u := FinishRound(t, done, u);
    assert Leads(t, done, u);
    actions := [first] + done;
    assert actions[1..] == done;
    LeadsOn(s, first, done, u);
  }

  lemma LeadsOn(s: System, first: Action, done: seq<Action>, u: System)
    requires Enabled(s, first) && Leads(Next(s, first), done, u)
    ensures Runs(s, [first] + done) && Final(s, [first] + done) == u && AllUndisturbed(done)
  {
    assert ([first] + done)[1..] == done;
  }

  // ---------------------------------------------------------------- what is missed

  /** No edit, no retry, no unreachable embedder, no crash. */
  predicate Ordinary(a: Action) {
    Undisturbed(a) || a == Commits(FailRound) || (a.Refreshes? && a.read.Begin?)
  }

  ghost predicate CanBeMissed(t: System) {
    exists actions :: Runs(t, actions) && (forall i :: 0 <= i < |actions| ==> Ordinary(actions[i]))
                      && MissesAChange(Final(t, actions))
  }

  /** A full round ends with a stale graph that the pending check calls fresh, exactly if what could be
      checked before it started did not hold. */
  lemma FullRoundMisses(s: System, scope: set<FileId>, actions: seq<Action>)
    requires Shape(s) && Matching(s) && s.live.Up?
    requires Runs(s, actions) && FullRound(s, scope, actions) && InUse(Final(s, actions))
    ensures MissesAChange(Final(s, actions)) <==> !Repairable(s, scope)
  {
    hide Settled, Repairable, UpToDate;
    FullRoundConverges(s, scope, actions);
  }

  lemma UnrepairedIsMissed(t: System)
    requires Shape(t) && Matching(t) && InUse(t) && t.pointer == t.live.generation
    requires !Repairable(t, Everything(t))
    ensures CanBeMissed(t)
  {
    var actions := FullRoundExists(t);
    FullRoundMisses(t, Everything(t), actions);
    forall i | 0 <= i < |actions| ensures Ordinary(actions[i]) {
      assert i == 0 || actions[i] == actions[1..][i - 1];
    }
  }

  // ---------------------------------------------------------------- what the spoiling steps leave

  /** A later round reads the file once more: it is dirty, put off or still to be prepared, or a link leads
      to it. */
  ghost predicate ReadLater(t: System, f: FileId)
    requires t.live.Up?
  {
    || f in t.live.dirty || (t.round.Active? && f in t.round.retry) || LedTo(t, f)
    || exists h :: h != f && Target(t.disk, h) == Some(f)
  }

  /** Nodes that are, or are to be, in the graph without an entry. */
  ghost predicate LeftNaked(t: System, f: FileId) {
    t.live.Up? && View(At(t.disk, f)).None?
    && (Leftover(t, f)
        || (t.round.Active? && EntryAfter(t, f).None? && exists p :: PartAfter(t, f, p) && p != EMPTY_PART))
  }

  /** Nodes of a file that the walk does not see and that no later round takes away: they are in the graph
      and unlisted, or the running round is to leave them so; and the file is not read again, or there is
      text to read in it. */
  ghost predicate LeftBehind(t: System, f: FileId)
    requires t.live.Up?
  {
    LeftNaked(t, f) && (ReadLater(t, f) ==> Read(At(t.disk, f)) != EMPTY_PART)
  }

  lemma IdleLeftover(t: System, f: FileId)
    requires Shape(t) && Matching(t) && InUse(t) && t.pointer == t.live.generation && Leftover(t, f)
    requires Reread(t, Everything(t), f) ==> Read(At(t.disk, f)) != EMPTY_PART
    ensures CanBeMissed(t)
  {
    hide Reread, CanBeMissed, Shape, Matching;
    if Reread(t, Everything(t), f) {
      assert !ReadsOnlyVisible(t, Everything(t));
    } else {
      assert !LeftoversAreRead(t, Everything(t));
    }
    UnrepairedIsMissed(t);
  }

  lemma IdleRemains(t: System, f: FileId)
    requires Shape(t) && Matching(t) && InUse(t) && t.pointer == t.live.generation && LeftBehind(t, f)
    ensures CanBeMissed(t)
  {
    hide Shape, Matching, CanBeMissed;
    if Reread(t, Everything(t), f) {
      var h :| Taken(t, Everything(t), h) && Target(t.disk, h) == Some(f);
      assert h == f ==> f in t.live.dirty;
      assert ReadLater(t, f);
    }
    IdleLeftover(t, f);
  }

  lemma OrdinaryFirst(a: seq<Action>, b: seq<Action>)
    requires forall i :: 0 <= i < |a| ==> Ordinary(a[i])
    requires forall i :: 0 <= i < |b| ==> Ordinary(b[i])
    ensures forall i :: 0 <= i < |a + b| ==> Ordinary((a + b)[i])
  {
  }

  /** What an idle state misses, a state that leads to it misses. */
  lemma MissedLater(t: System, done: seq<Action>, u: System)
    requires Runs(t, done) && Final(t, done) == u && CanBeMissed(u)
    requires forall i :: 0 <= i < |done| ==> Ordinary(done[i])
    ensures CanBeMissed(t)
  {
    hide Ordinary, MissesAChange;
    var more :| Runs(u, more) && (forall i :: 0 <= i < |more| ==> Ordinary(more[i])) && MissesAChange(Final(u, more));
    RunsConcat(t, done, more);
    OrdinaryFirst(done, more);
  }

  lemma LedAlong(t: System, done: seq<Action>, u: System)
    requires Shape(t) && Matching(t) && Leads(t, done, u)
    ensures Shape(u) && Matching(u) && Runs(t, done) && Final(t, done) == u
    ensures forall i :: 0 <= i < |done| ==> Ordinary(done[i])
  {
    MatchingRun(t, done);
  }

  /** What the running round is to leave is in the graph once it has ended. */
  lemma BroughtLeftover(t: System, u: System, f: FileId)
    requires t.live.Up? && t.round.Active? && LeftBehind(t, f) && EntryAfter(t, f).None?
    requires exists p :: PartAfter(t, f, p) && p != EMPTY_PART
    requires InUse(u) && u.disk == t.disk && Brings(t, u)
    ensures LeftBehind(u, f)
  {
    hide Target;
    assert BringsAt(t, u, f);
    assert LedTo(t, f) ==> ReadLater(t, f);
  }

  lemma BroughtRemains(t: System, f: FileId)
    requires Shape(t) && Matching(t) && t.live.Up? && !t.live.superseded && t.pointer == t.live.generation
    requires t.round.Active? && LeftBehind(t, f) && EntryAfter(t, f).None?
    requires exists p :: PartAfter(t, f, p) && p != EMPTY_PART
    ensures CanBeMissed(t)
  {
    assert Leads(t, [], t);
    hide Leads, CanBeMissed, LeftBehind, Matching, Brings, PartAfter;
    var done, u := FreeLock(t, [], t);
    var ready := u;
    done, u := FinishRound(t, done, u);
    BringsSame(t, ready, u);
    BroughtLeftover(t, u, f);
    LedAlong(t, done, u);
    IdleRemains(u, f);
    MissedLater(t, done, u);
  }

  lemma BringsSame(t: System, ready: System, u: System)
    requires t.live.Up? && t.round.Active? && ready.live == t.live && ready.round == t.round && ready.disk == t.disk
    requires Brings(ready, u)
    ensures Brings(t, u)
  {
    forall f: FileId ensures BringsAt(t, u, f) {
      assert BringsAt(ready, u, f);
      assert LedTo(ready, f) == LedTo(t, f);
      forall p | PartAfter(t, f, p) ensures PartAfter(ready, f, p) {
      }
    }
  }

  /** From every state in which nodes remain, a run without any edit, retry or crash ends with a stale
      graph that the pending check calls fresh. */
  lemma RemainsIsMissed(t: System, f: FileId)
    requires Shape(t) && Matching(t) && t.live.Up? && LeftBehind(t, f)
    requires !t.live.superseded && t.pointer == t.live.generation
    ensures CanBeMissed(t)
  {
    if t.round.Idle? {
      IdleRemains(t, f);
    } else if EntryAfter(t, f).None? && exists p :: PartAfter(t, f, p) && p != EMPTY_PART {
      BroughtRemains(t, f);
    } else {
      FailedRemains(t, f);
    }
  }

  lemma FailedRemains(t: System, f: FileId)
    requires Shape(t) && Matching(t) && t.live.Up? && t.round.Active? && LeftBehind(t, f) && Leftover(t, f)
    requires !t.live.superseded && t.pointer == t.live.generation
    ensures CanBeMissed(t)
  {
    var failed := Commits(FailRound);
    var u := Next(t, failed);
    ShapeStep(t, failed);
    MatchingStep(t, failed);
    assert u.live == t.live && u.disk == t.disk && u.pointer == t.pointer;
    hide Shape, Matching, CanBeMissed;
    assert LeftBehind(u, f);
    IdleRemains(u, f);
    assert [failed][1..] == [];
    assert Runs(u, []) && Final(u, []) == u;
    assert Runs(t, [failed]) && Final(t, [failed]) == u;
    MissedLater(t, [failed], u);
  }

  lemma SpoiltByEdit(s: System, d: Edit)
    requires EditEnabled(s, d) && Spoils(Process, s, Edits(d))
    ensures LeftNaked(EditNext(s, d), d.file)
  {
    var f, t := d.file, EditNext(s, d);
    NakedInProcess(s, f);
    hide Naked, Target;
    if s.round.Active? && EntryAfter(s, f).None? && exists p :: PartAfter(s, f, p) && p != EMPTY_PART {
      var p :| PartAfter(s, f, p) && p != EMPTY_PART;
      assert PartAfter(t, f, p);
    }
  }

  lemma SpoiltByRead(s: System, r: ReadStep, f: FileId)
    requires ReadEnabled(s, r) && Spoils(Process, s, Refreshes(r))
    requires f == if LeavesOut(s, r.file) then r.file else Target(s.disk, r.file).value
    ensures LeftNaked(ReadNext(s, r), f)
  {
    var t := ReadNext(s, r);
    assert PartAfter(t, f, if f in t.round.prepared then t.round.prepared[f] else PartOf(s.live.graph, f));
  }

  /** What a spoiling step leaves behind of which file. */
  lemma SpoiltFile(s: System, a: Action) returns (f: FileId)
    requires Shape(s) && Enabled(s, a) && Spoils(Process, s, a)
    ensures LeftNaked(Next(s, a), f)
  {
    match a {
      case Edits(d) =>
        f := d.file;
        SpoiltByEdit(s, d);
      case Refreshes(r) =>
        f := if LeavesOut(s, r.file) then r.file else Target(s.disk, r.file).value;
        SpoiltByRead(s, r, f);
      case Lives(_) =>
        f :| f !in s.loader.manifest && View(At(s.disk, f)).None?
          && PartOf(s.stored[s.loader.generation].graph, f) != EMPTY_PART;
    }
  }

  /** Each of the named steps is missed: after it there is a run without any edit, retry or crash that
      ends with a stale graph the pending check calls fresh; unless the file is read again by a later round
      and there is nothing to read in it any more. */
  lemma SpoilingStepIsMissed(s: System, a: Action)
    requires Shape(s) && Matching(s) && Enabled(s, a) && Spoils(Process, s, a)
    requires var t := Next(s, a); t.live.Up? ==> !t.live.superseded && t.pointer == t.live.generation
    ensures var t := Next(s, a);
      t.live.Up?
      && (CanBeMissed(t)
          || exists f: FileId ::
               View(At(t.disk, f)).None? && ReadLater(t, f) && Read(At(t.disk, f)) == EMPTY_PART)
  {
    var f := SpoiltFile(s, a);
    ShapeStep(s, a);
    MatchingStep(s, a);
    var t := Next(s, a);
    hide Shape, Matching, Next, Enabled, CanBeMissed, ReadLater, Leftover;
    if ReadLater(t, f) ==> Read(At(t.disk, f)) != EMPTY_PART {
      RemainsIsMissed(t, f);
    }
  }

  // ---------------------------------------------------------------- exactly when a change can be missed

  predicate Stale(s: System, f: FileId)
    requires s.live.Up?
  {
    f in s.live.dirty || Entry(s.live.manifest, f) != View(At(s.disk, f))
  }

  lemma StaleIsTaken(s: System, f: FileId)
    requires s.live.Up?
    ensures Stale(s, f) <==> Taken(s, Everything(s), f)
  {
    assert f !in Everything(s) ==> Unknown(s, f);
  }

  /** In a run from `t` to `u` without an edit: only what was stale is taken up, an entry is the old one or
      the one of the disk, and a part is the old one or has been read. */
  ghost predicate TracksAt(t: System, u: System, f: FileId)
    requires t.live.Up? && u.live.Up?
  {
    && (f in u.live.dirty || (u.round.Active? && f in u.round.files) ==> Stale(t, f))
    && Entry(u.live.manifest, f) in {Entry(t.live.manifest, f), View(At(t.disk, f))}
    && (u.round.Active? ==> Entry(u.round.next, f) in {Entry(u.live.manifest, f), View(At(t.disk, f))})
    && (u.round.Active? && f in u.round.prepared ==>
          Reread(t, Everything(t), f) && u.round.prepared[f] == Read(At(t.disk, f)))
    && (PartOf(u.live.graph, f) == PartOf(t.live.graph, f)
        || (Reread(t, Everything(t), f) && PartOf(u.live.graph, f) == Read(At(t.disk, f))))
  }

  /** A path that was stale still is, or the file it leads to has been read. */
  predicate StillStaleAt(t: System, u: System, h: FileId)
    requires t.live.Up? && u.live.Up?
  {
    Stale(t, h) && Target(t.disk, h).Some? ==>
      Stale(u, h) || PartOf(u.live.graph, Target(t.disk, h).value) == Read(At(t.disk, Target(t.disk, h).value))
  }

  /** What is dirty or being taken up has an entry that shows it. */
  predicate ShowsAt(u: System, h: FileId)
    requires u.live.Up?
  {
    h in u.live.dirty || (u.round.Active? && h in u.round.files) ==>
      Entry(u.live.manifest, h) != View(At(u.disk, h))
  }

  ghost predicate Tracks(t: System, u: System)
    requires t.live.Up?
  {
    && u.live.Up? && u.disk == t.disk
    && (forall f: FileId :: TracksAt(t, u, f))
    && (forall h: FileId :: StillStaleAt(t, u, h))
    && ((u.live.manifest == t.live.manifest && u.live.graph == t.live.graph) || forall h: FileId :: ShowsAt(u, h))
    && (u.round.Active? ==>
          u.round.retry == {}
          && Followed(u.disk, u.round.files, u.round.prepared,
                      if u.round.phase == Preparing then u.round.todo else {}))
  }

  /** The live index and its files are the same, and the round is as far. */
  ghost predicate SameTrack(u: System, u': System) {
    && u.live.Up? && u'.live.Up? && u'.disk == u.disk
    && u'.live.graph == u.live.graph && u'.live.manifest == u.live.manifest
    && (u'.live.dirty == u.live.dirty || (u.round.Active? && u.live.dirty <= u'.live.dirty <= u.round.files))
    && (u'.round.Active? ==>
          u.round.Active? && u'.round.files == u.round.files && u'.round.next == u.round.next
          && u'.round.prepared == u.round.prepared && u'.round.retry == u.round.retry
          && (u'.round.phase == Preparing ==> u.round.phase == Preparing && u.round.todo <= u'.round.todo)
          && (u.round.phase == Preparing && u'.round.phase != Preparing ==> u.round.todo == {}))
  }

  lemma TrackFrame(t: System, u: System, u': System)
    requires t.live.Up? && Tracks(t, u) && SameTrack(u, u')
    ensures Tracks(t, u')
  {
    hide Target, Reread, Read, View;
    forall f: FileId ensures TracksAt(t, u', f) && StillStaleAt(t, u', f) {
      assert TracksAt(t, u, f) && StillStaleAt(t, u, f);
    }
    if forall h: FileId :: ShowsAt(u, h) {
      forall h: FileId ensures ShowsAt(u', h) { assert ShowsAt(u, h); }
    }
  }

  lemma TrackBegin(t: System, u: System, scope: set<FileId>)
    requires t.live.Up? && Tracks(t, u) && ReadEnabled(u, Begin(scope))
    ensures Tracks(t, ReadNext(u, Begin(scope)))
  {
    hide Target, Reread, Read, View;
    var u' := ReadNext(u, Begin(scope));
    forall f: FileId ensures TracksAt(t, u', f) && StillStaleAt(t, u', f) {
      assert TracksAt(t, u, f) && StillStaleAt(t, u, f);
    }
    if forall h: FileId :: ShowsAt(u, h) {
      forall h: FileId ensures ShowsAt(u', h) { assert ShowsAt(u, h); }
    }
  }

  lemma TrackScan(t: System, u: System, f: FileId)
    requires Rounds(u) && t.live.Up? && Tracks(t, u) && ReadEnabled(u, ScanOne(f))
    ensures Tracks(t, ReadNext(u, ScanOne(f)))
  {
    hide Target, Reread, Read, View;
    var u' := ReadNext(u, ScanOne(f));
    forall g: FileId ensures TracksAt(t, u', g) && StillStaleAt(t, u', g) {
      assert TracksAt(t, u, g) && StillStaleAt(t, u, g);
    }
    if forall h: FileId :: ShowsAt(u, h) {
      forall h: FileId ensures ShowsAt(u', h) { assert ShowsAt(u, h); }
    }
  }

  lemma TrackScanned(t: System, u: System)
    requires Rounds(u) && t.live.Up? && Tracks(t, u) && ReadEnabled(u, ScanDone)
    ensures Tracks(t, AfterScan(u))
  {
    ScanDoneKeeps(u);
    hide Target, Reread, Read, View, AfterScan;
    var u' := AfterScan(u);
    forall f: FileId ensures TracksAt(t, u', f) && StillStaleAt(t, u', f) && (ShowsAt(u, f) ==> ShowsAt(u', f)) {
      assert TracksAt(t, u, f) && StillStaleAt(t, u, f);
    }
    if forall h: FileId :: ShowsAt(u, h) {
      forall h: FileId ensures ShowsAt(u', h) { assert ShowsAt(u, h); }
    }
  }

  lemma TrackPrepare(t: System, u: System, h: FileId)
    requires Rounds(u) && t.live.Up? && Tracks(t, u) && ReadEnabled(u, PrepareOk(h))
    ensures Tracks(t, AfterPrepare(u, h))
  {
    hide Target, Reread, Read, View, HasText, NewNodes, Covered, KnownVectors;
    var u' := AfterPrepare(u, h);
    assert h in u.round.files && TracksAt(t, u, h);
    FollowedOne(u.disk, u.round.files, u.round.prepared, u'.round.prepared, u.round.todo, h);
    if Target(u.disk, h).Some? {
      StaleIsTaken(t, h);
      TargetIsReread(t, h);
    }
    forall f: FileId ensures TracksAt(t, u', f) && StillStaleAt(t, u', f) {
      assert TracksAt(t, u, f) && StillStaleAt(t, u, f);
    }
    if forall h: FileId :: ShowsAt(u, h) {
      forall h: FileId ensures ShowsAt(u', h) { assert ShowsAt(u, h); }
    }
  }

  lemma TargetIsReread(t: System, h: FileId)
    requires t.live.Up? && Taken(t, Everything(t), h) && Target(t.disk, h).Some?
    ensures Reread(t, Everything(t), Target(t.disk, h).value)
  {
  }

  lemma TrackSwap(t: System, u: System)
    requires Shape(u) && t.live.Up? && Tracks(t, u) && CommitEnabled(u, SwapGraph)
    ensures Tracks(t, CommitNext(u, SwapGraph))
  {
    hide Generations, Locking, Persists, Target, Reread, Read, View;
    var u' := CommitNext(u, SwapGraph);
    forall f: FileId ensures Entry(u'.live.manifest, f) == Entry(u.round.next, f) {
    }
    forall f: FileId ensures TracksAt(t, u', f) && StillStaleAt(t, u', f) {
      assert TracksAt(t, u, f) && StillStaleAt(t, u, f);
      if Target(t.disk, f).Some? {
        assert f in u.round.files ==> Target(t.disk, f).value in u.round.prepared;
        assert TracksAt(t, u, Target(t.disk, f).value);
      }
    }
  }

  lemma TrackRead(t: System, u: System, r: ReadStep)
    requires Shape(u) && t.live.Up? && Tracks(t, u) && ReadEnabled(u, r)
    requires r.Begin? || Undisturbed(Refreshes(r))
    ensures Tracks(t, ReadNext(u, r))
  {
    hide Tracks, Generations, Locking, Persists, Rounds, ReadEnabled;
    match r {
      case Begin(scope) => TrackBegin(t, u, scope);
      case ScanOne(f) => TrackScan(t, u, f);
      case ScanDone => TrackScanned(t, u);
      case PrepareOk(h) => TrackPrepare(t, u, h);
      case EmbedDone(batches) =>
        EmbedTrack(u, batches);
        TrackFrame(t, u, ReadNext(u, r));
    }
  }

  lemma EmbedTrack(u: System, batches: seq<seq<Row>>)
    requires ReadEnabled(u, EmbedDone(batches))
    ensures SameTrack(u, ReadNext(u, EmbedDone(batches)))
  {
  }

  lemma CommitTrack(u: System, c: CommitStep)
    requires Shape(u) && CommitEnabled(u, c) && !c.SwapGraph?
    ensures SameTrack(u, CommitNext(u, c))
  {
    hide Generations, Locking, Persists;
  }

  lemma AsideTrack(u: System, u': System)
    requires RoundLeftAlone(u, u')
    ensures SameTrack(u, u')
  {
  }

  lemma TrackStep(t: System, u: System, a: Action)
    requires t.live.Up? && Tracks(t, u) && Shape(u) && Enabled(u, a) && Ordinary(a)
    ensures Tracks(t, Next(u, a))
  {
    assert u.live.Up?;
    hide Tracks, Shape, RoundLeftAlone, SameTrack;
    match a {
      case Others(o) => OtherAside(u, o); AsideTrack(u, OtherNext(u, o)); TrackFrame(t, u, OtherNext(u, o));
      case Saves(v) => SaveAside(u, v); AsideTrack(u, SaveNext(u, v)); TrackFrame(t, u, SaveNext(u, v));
      case Lives(p) => LoadAside(u, p); AsideTrack(u, ProcessNext(u, p)); TrackFrame(t, u, ProcessNext(u, p));
      case Refreshes(r) => TrackRead(t, u, r);
      case Commits(c) =>
        if c.SwapGraph? {
          TrackSwap(t, u);
        } else {
          CommitTrack(u, c);
          TrackFrame(t, u, CommitNext(u, c));
        }
    }
  }

  lemma {:induction false} TrackRun(t: System, u: System, actions: seq<Action>)
    requires t.live.Up? && Tracks(t, u) && Shape(u) && Runs(u, actions)
    requires forall i :: 0 <= i < |actions| ==> Ordinary(actions[i])
    ensures Tracks(t, Final(u, actions))
    decreases |actions|
  {
    hide Tracks, Shape, Ordinary;
    if actions != [] {
      assert Ordinary(actions[0]);
      TrackStep(t, u, actions[0]);
      ShapeStep(u, actions[0]);
      assert forall i :: 0 <= i < |actions[1..]| ==> actions[1..][i] == actions[i + 1];
      TrackRun(t, Next(u, actions[0]), actions[1..]);
    }
  }

  lemma TrackedPart(t: System, u: System, f: FileId)
    requires t.live.Up? && Tracks(t, u) && Repairable(t, Everything(t))
    requires forall h: FileId :: !Stale(u, h)
    ensures !Leftover(u, f)
  {
    assert TracksAt(t, u, f);
    if Reread(t, Everything(t), f) {
      var h :| Taken(t, Everything(t), h) && Target(t.disk, h) == Some(f);
      StaleIsTaken(t, h);
      assert StillStaleAt(t, u, h) && !Stale(u, h);
    } else {
      hide Reread, Target;
      StaleIsTaken(t, f);
      assert !Stale(u, f);
    }
  }

  /** While the start was not missed and is repairable, nothing is missed. */
  lemma TrackedIsNotMissed(t: System, u: System)
    requires t.live.Up? && !t.live.superseded && !MissesAChange(t) && Repairable(t, Everything(t))
    requires Tracks(t, u) && Shape(u) && Matching(u)
    ensures !MissesAChange(u)
  {
    if !Pending(u) {
      hide Repairable, Shape, Matching;
      if u.live.manifest == t.live.manifest && u.live.graph == t.live.graph {
        assert !Pending(t);
        assert UpToDate(u);
      } else {
        forall h: FileId ensures !Stale(u, h) {
          assert ShowsAt(u, h);
          SameView(u, h);
        }
        forall f: FileId ensures !Leftover(u, f) { TrackedPart(t, u, f); }
        assert Runs(u, []) && Final(u, []) == u;
        QuietMeansUpToDate(u, []);
      }
    }
  }

  /** Without a further edit, retry or crash a change can be missed exactly if it is missed already, or if
      one of the three conditions of a full round does not hold. */
  lemma CanBeMissedExactly(t: System)
    requires Shape(t) && Matching(t) && InUse(t) && t.pointer == t.live.generation
    ensures CanBeMissed(t) <==> MissesAChange(t) || !Repairable(t, Everything(t))
  {
    if MissesAChange(t) {
      assert Runs(t, []) && Final(t, []) == t;
    } else if !Repairable(t, Everything(t)) {
      UnrepairedIsMissed(t);
    } else if CanBeMissed(t) {
      var actions :| Runs(t, actions) && (forall i :: 0 <= i < |actions| ==> Ordinary(actions[i]))
                     && MissesAChange(Final(t, actions));
      var u := Final(t, actions);
      TrackStart(t);
      hide Tracks, Repairable, MissesAChange, Shape, Matching, Ordinary;
      TrackRun(t, t, actions);
      MatchingRun(t, actions);
      TrackedIsNotMissed(t, u);
    }
  }

  lemma TrackStart(t: System)
    requires InUse(t)
    ensures Tracks(t, t)
  {
  }
}
