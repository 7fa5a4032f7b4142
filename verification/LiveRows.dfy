/** Vector rows: what rounds leave in the table, where it differs from what the graph asks for, and what
    repairs it. */
module LiveRows {
  import opened Basics
  import opened CodeModel
  import opened VectorRows
  import opened LiveModel
  import opened LiveShape
  import opened LiveConvergence

  // ---------------------------------------------------------------- every row is named and exact

  /** Every stored row has an id of its file and the vector of its text, and so has every row and every
      vector a round is holding. */
  ghost predicate TablesExact(s: System) {
    && (forall g :: g in s.tables ==> RowsNamed(s.tables[g]) && RowsExact(s.tables[g]))
    && (s.round.Active? ==>
          KnownExact(s.round.known) && RowsNamed(Flatten(s.round.batches)) && RowsExact(Flatten(s.round.batches)))
  }

  lemma FlattenHead(batches: seq<seq<Row>>)
    requires batches != []
    ensures Flatten(batches) == batches[0] + Flatten(batches[1..])
  {
  }

  lemma LiveTableExact(s: System)
    requires TablesExact(s)
    ensures RowsNamed(LiveTable(s)) && RowsExact(LiveTable(s))
  {
  }

  lemma PrepareTables(s: System, h: FileId)
    requires TablesExact(s) && ReadEnabled(s, PrepareOk(h))
    ensures TablesExact(AfterPrepare(s, h))
  {
    hide Target, NewNodes, Flatten, Read, RowsNamed;
    LiveTableExact(s);
    if Target(s.disk, h).Some? {
      CoveredExact(LiveTable(s), Target(s.disk, h).value);
      KnownVectorsExact(Covered(LiveTable(s), Target(s.disk, h).value));
    }
  }

  lemma ReadTables(s: System, r: ReadStep)
    requires TablesExact(s) && ReadEnabled(s, r)
    ensures TablesExact(ReadNext(s, r))
  {
    match r {
      case PrepareOk(h) => PrepareTables(s, h);
      case EmbedDone(batches) => ReuseIsFresh(s.round.nodes, s.round.known);
      case ScanDone => ScanDoneKeeps(s); hide AfterScan;
      case _ =>
    }
  }

  lemma FirstExact(batches: seq<seq<Row>>)
    requires batches != [] && RowsNamed(Flatten(batches)) && RowsExact(Flatten(batches))
    ensures RowsNamed(batches[0]) && RowsExact(batches[0])
    ensures RowsNamed(Flatten(batches[1..])) && RowsExact(Flatten(batches[1..]))
  {
    FlattenHead(batches);
    hide Flatten, RowsNamed, RowsExact;
    PartsExact(batches[0], Flatten(batches[1..]));
  }

  lemma PartsExact(a: seq<Row>, b: seq<Row>)
    requires RowsNamed(a + b) && RowsExact(a + b)
    ensures RowsNamed(a) && RowsExact(a) && RowsNamed(b) && RowsExact(b)
  {
    assert forall i :: 0 <= i < |a| ==> a[i] == (a + b)[i];
    assert forall i :: 0 <= i < |b| ==> b[i] == (a + b)[|a| + i];
  }

  lemma ConcatExact(a: seq<Row>, b: seq<Row>)
    requires RowsNamed(a) && RowsExact(a) && RowsNamed(b) && RowsExact(b)
    ensures RowsNamed(a + b) && RowsExact(a + b)
  {
  }

  lemma CommitTables(s: System, c: CommitStep)
    requires TablesExact(s) && CommitEnabled(s, c)
    ensures TablesExact(CommitNext(s, c))
  {
    match c
    case DeleteRows(f) =>
      WithoutExact(s.tables[s.live.generation], f);
      WithoutNamed(s.tables[s.live.generation], f);
      hide Without, RowsNamed, RowsExact, KnownExact, Flatten, KeptWithout;
    case WriteBatch =>
      FirstExact(s.round.batches);
      ConcatExact(s.tables[s.live.generation], s.round.batches[0]);
      hide RowsNamed, RowsExact, KnownExact, Flatten;
    case _ =>
      CommitKeeps(s, c);
      hide RowsNamed, RowsExact, KnownExact, Flatten, Owned;
  }

  lemma TablesStep(s: System, a: Action)
    requires TablesExact(s) && Enabled(s, a)
    ensures TablesExact(Next(s, a))
  {
    match a
    case Edits(d) => EditKeeps(s, d);
    case Others(_) =>
    case Refreshes(r) => ReadTables(s, r);
    case Commits(c) => CommitTables(s, c);
    case Saves(v) => SaveKeeps(s, v);
    case Lives(p) => ProcessKeepsTables(s, p);
  }

  lemma ProcessKeepsTables(s: System, p: ProcessStep)
    requires ProcessEnabled(s, p)
    ensures var s' := ProcessNext(s, p); s'.tables == s.tables && (s'.round.Active? ==> s'.round == s.round)
  {
  }

  /** Whatever happens, also over crashes, every stored vector is the one a fresh embedding gives. */
  lemma {:induction false} TablesRun(s: System, actions: seq<Action>)
    requires TablesExact(s) && Runs(s, actions)
    ensures TablesExact(Final(s, actions))
    decreases |actions|
  {
    if actions != [] {
      TablesStep(s, actions[0]);
      TablesRun(Next(s, actions[0]), actions[1..]);
    }
  }

  // ---------------------------------------------------------------- what a round will have written

  /** The rows the round is to write for a file; none without vectors. */
  function Will(s: System, f: FileId): seq<Row> {
    if s.round.Active? && (s.round.phase in {Scanning, Preparing} || s.round.embedded)
    then Owned(EmbedAll(s.round.nodes, map[]), f) else []
  }

  /** The rows of a file that a skipped deletion has left. */
  function Kept(s: System, f: FileId): seq<Row> {
    if s.round.Active? && f in s.round.kept then s.round.kept[f] else []
  }

  /** During a round, the rows of a prepared file are those left and those written, and with those still to
      be written they add up. */
  ghost predicate PlanAt(s: System, f: FileId) {
    s.live.Up? && s.round.Active? ==>
      && (f !in s.round.prepared ==> Will(s, f) == [])
      && (s.round.phase in {Scanning, Preparing} ==>
            s.round.batches == [] && s.round.kept == map[] && !s.round.embedded)
      && (s.round.phase in {Embedded, Locked} ==> s.round.kept == map[])
      && (s.round.phase in {Embedded, Locked, Deleting} ==> Owned(Flatten(s.round.batches), f) == Will(s, f))
      && (s.round.phase == Deleting && f in s.round.kept ==> f in s.round.prepared && f !in s.round.todo)
      && (s.round.phase == Deleting && f in s.round.prepared && f !in s.round.todo ==>
            Owned(LiveTable(s), f) == Kept(s, f))
      && (s.round.phase == Writing && f in s.round.prepared ==>
            Owned(LiveTable(s), f) + Owned(Flatten(s.round.batches), f) == Kept(s, f) + Will(s, f))
      && (s.round.phase == Writing && f !in s.round.prepared ==> Owned(Flatten(s.round.batches), f) == [])
  }

  lemma {:induction false} QueuedFor(f: FileId, nodes: seq<CodeNode>)
    ensures forall i :: 0 <= i < |Embeddable(f, nodes)| ==> Embeddable(f, nodes)[i].file == f
  {
    if nodes != [] { QueuedFor(f, nodes[1..]); }
  }

  lemma {:induction false} NotQueuedFor(queue: seq<Queued>, more: seq<Queued>, f: FileId)
    requires forall i :: 0 <= i < |more| ==> more[i].file == f
    ensures forall i :: 0 <= i < |NotQueued(queue, more)| ==> NotQueued(queue, more)[i].file == f
  {
    if more != [] {
      assert forall i :: 0 <= i < |more[1..]| ==> more[1..][i] == more[i + 1];
      NotQueuedFor(queue, more[1..], f);
    }
  }

  lemma {:induction false} OwnedByOther(rows: seq<Row>, f: FileId, g: FileId)
    requires g != f && forall i :: 0 <= i < |rows| ==> rows[i].file == f
    ensures Owned(rows, g) == []
  {
    if rows != [] {
      assert forall i :: 0 <= i < |rows[1..]| ==> rows[1..][i] == rows[i + 1];
      OwnedByOther(rows[1..], f, g);
    }
  }

  /** The nodes a file adds to the queue give rows of that file only. */
  lemma NewNodesOwned(r: Round, f: FileId, part: Part, g: FileId)
    requires r.Active? && g != f
    ensures Owned(EmbedAll(NewNodes(r, f, part), map[]), g) == []
  {
    QueuedFor(f, part.nodes);
    NotQueuedFor(r.nodes, Embeddable(f, part.nodes), f);
    OwnedByOther(EmbedAll(NewNodes(r, f, part), map[]), f, g);
  }

  lemma PreparePlan(s: System, h: FileId, f: FileId)
    requires Rounds(s) && ReadEnabled(s, PrepareOk(h)) && PlanAt(s, f)
    ensures PlanAt(AfterPrepare(s, h), f)
  {
    hide Target, NewNodes, EmbedAll, Owned, Covered, KnownVectors, Flatten, Read, HasText;
    if Target(s.disk, h).Some? && Target(s.disk, h).value != f {
      var g := Target(s.disk, h).value;
      var added := NewNodes(s.round, g, Read(At(s.disk, g)));
      EmbedAllConcat(s.round.nodes, added, map[]);
      OwnedConcat(EmbedAll(s.round.nodes, map[]), EmbedAll(added, map[]), f);
      NewNodesOwned(s.round, g, Read(At(s.disk, g)), f);
    }
  }

  lemma EmbedPlan(s: System, batches: seq<seq<Row>>, f: FileId)
    requires TablesExact(s) && ReadEnabled(s, EmbedDone(batches)) && PlanAt(s, f)
    ensures PlanAt(ReadNext(s, EmbedDone(batches)), f)
  {
    ReuseIsFresh(s.round.nodes, s.round.known);
    hide Flatten, Owned, EmbedAll;
  }

  lemma ReadPlan(s: System, r: ReadStep, f: FileId)
    requires Shape(s) && TablesExact(s) && ReadEnabled(s, r) && PlanAt(s, f)
    ensures PlanAt(ReadNext(s, r), f)
  {
    hide Generations, Locking, Persists;
    match r {
      case PrepareOk(h) => PreparePlan(s, h, f);
      case EmbedDone(batches) => EmbedPlan(s, batches, f);
      case ScanDone => ScanDoneKeeps(s); hide AfterScan, Differing, Flatten;
      case _ => OtherReadPlan(s, r, f);
    }
  }

  lemma OtherReadPlan(s: System, r: ReadStep, f: FileId)
    requires Rounds(s) && ReadEnabled(s, r) && PlanAt(s, f)
    requires r.Begin? || r.ScanOne? || r.PrepareRetry? || r.EmbedUnavailable?
    ensures PlanAt(ReadNext(s, r), f)
  {
    hide Target;
    if r.Begin? { assert EmbedAll([], map[]) == []; }
  }

  lemma KeptLess(s: System, g: FileId, f: FileId)
    requires CommitEnabled(s, DeleteRows(g))
    ensures Kept(CommitNext(s, DeleteRows(g)), f) == Without(Kept(s, f), g)
    ensures LiveTable(CommitNext(s, DeleteRows(g))) == Without(LiveTable(s), g)
    ensures Will(CommitNext(s, DeleteRows(g)), f) == Will(s, f)
  {
    hide Owned, EmbedAll;
  }

  lemma DeletePlan(s: System, g: FileId, f: FileId)
    requires Shape(s) && TablesExact(s) && CommitEnabled(s, DeleteRows(g)) && PlanAt(s, f)
    ensures PlanAt(CommitNext(s, DeleteRows(g)), f)
  {
    LiveTableExact(s);
    WithoutOwned(LiveTable(s), g, f);
    WithoutFile(LiveTable(s), g, f);
    KeptLess(s, g, f);
    assert f == g ==> Kept(s, f) == [] && Without([], g) == [];
    hide Shape, Flatten, RowsNamed, RowsExact, TablesExact, Owned, Without, LiveTable, Will;
    var s' := CommitNext(s, DeleteRows(g));
    assert s'.round == s.round.(todo := s.round.todo - {g}, kept := KeptWithout(s.round.kept, g));
    assert s'.round.kept.Keys == s.round.kept.Keys;
    hide CommitNext, KeptWithout, Kept;
  }

  lemma SkipPlan(s: System, g: FileId, f: FileId)
    requires Shape(s) && CommitEnabled(s, SkipRows(g)) && PlanAt(s, f)
    ensures PlanAt(CommitNext(s, SkipRows(g)), f)
  {
    hide Generations, Locking, Persists, Flatten, EmbedAll, Owned;
  }

  lemma WritePlan(s: System, f: FileId)
    requires Shape(s) && CommitEnabled(s, WriteBatch) && PlanAt(s, f)
    ensures PlanAt(CommitNext(s, WriteBatch), f)
  {
    hide Generations, Locking, Persists, Flatten, Owned, EmbedAll;
    var head, rest := s.round.batches[0], Flatten(s.round.batches[1..]);
    FlattenHead(s.round.batches);
    OwnedConcat(head, rest, f);
    OwnedConcat(LiveTable(s), head, f);
    Associate(Owned(LiveTable(s), f), Owned(head, f), Owned(rest, f));
  }

  lemma CommitPlan(s: System, c: CommitStep, f: FileId)
    requires Shape(s) && TablesExact(s) && CommitEnabled(s, c) && PlanAt(s, f)
    ensures PlanAt(CommitNext(s, c), f)
  {
    hide Shape, TablesExact, PlanAt, CommitEnabled, CommitNext;
    match c {
      case DeleteRows(g) => DeletePlan(s, g, f);
      case SkipRows(g) => SkipPlan(s, g, f);
      case WriteBatch => WritePlan(s, f);
      case _ => OtherCommitPlan(s, c, f);
    }
  }

  lemma OtherCommitPlan(s: System, c: CommitStep, f: FileId)
    requires Shape(s) && CommitEnabled(s, c) && PlanAt(s, f)
    requires !c.DeleteRows? && !c.SkipRows? && !c.WriteBatch?
    ensures PlanAt(CommitNext(s, c), f)
  {
    hide Generations, Persists, Flatten, EmbedAll, Owned, Without, KeptWithout;
  }

  /** Nothing changed that rows and graph are about. */
  ghost predicate SameRows(s: System, s': System) {
    && s.live.Up? && s'.live.Up? && LiveTable(s') == LiveTable(s) && s'.round == s.round
    && s'.live.dirty == s.live.dirty && s'.live.graph == s.live.graph && s'.live.generation == s.live.generation
  }

  lemma OtherRows(s: System, o: OtherStep)
    requires Shape(s) && OtherEnabled(s, o) && s.live.Up?
    ensures SameRows(s, OtherNext(s, o))
  {
  }

  lemma SaveRows(s: System, v: SaveStep)
    requires SaveEnabled(s, v)
    ensures SameRows(s, SaveNext(s, v))
  {
  }

  lemma FrameRows(s: System, a: Action)
    requires Shape(s) && Enabled(s, a) && !a.Refreshes? && !a.Commits?
    requires s.live.Up? && a != Lives(Crash)
    ensures SameRows(s, Next(s, a))
  {
    match a
    case Others(o) => OtherRows(s, o);
    case Saves(v) => SaveRows(s, v);
    case Edits(d) => EditKeeps(s, d);
    case Lives(_) =>
  }

  lemma StaysUp(s: System, a: Action)
    requires Shape(s) && Enabled(s, a) && s.live.Up? && a != Lives(Crash)
    ensures Next(s, a).live.Up?
  {
    if a.Refreshes? {
      ReadStaysUp(s, a.read);
    } else if a.Commits? {
      CommitStaysUp(s, a.commit);
    } else {
      FrameRows(s, a);
    }
  }

  lemma ReadStaysUp(s: System, r: ReadStep)
    requires ReadEnabled(s, r)
    ensures ReadNext(s, r).live.Up? && LiveTable(ReadNext(s, r)) == LiveTable(s)
    ensures ReadNext(s, r).live.graph == s.live.graph && ReadNext(s, r).live.dirty == s.live.dirty
  {
    ReadKeeps(s, r);
    match r {
      case ScanDone => ScanDoneKeeps(s); hide ReadNext, AfterScan, Differing;
      case PrepareOk(h) => hide Target, NewNodes, Covered, KnownVectors;
      case _ => hide Target, AfterScan;
    }
  }

  lemma CommitStaysUp(s: System, c: CommitStep)
    requires CommitEnabled(s, c)
    ensures CommitNext(s, c).live.Up?
  {
  }

  lemma PlanStep(s: System, a: Action, f: FileId)
    requires Shape(s) && TablesExact(s) && Enabled(s, a) && s.live.Up? && a != Lives(Crash) && PlanAt(s, f)
    ensures PlanAt(Next(s, a), f)
  {
    match a
    case Refreshes(r) => ReadPlan(s, r, f);
    case Commits(c) => CommitPlan(s, c, f);
    case _ => FrameRows(s, a); hide Shape, Next, Enabled, TablesExact;
  }

  // ---------------------------------------------------------------- which rows differ from the graph

  /** The rows of the file are those of its part of the graph. */
  ghost predicate RowsFit(s: System, f: FileId)
    requires s.live.Up?
  {
    Owned(LiveTable(s), f) == RowsFor(f, PartOf(s.live.graph, f))
  }

  /** The file is dirty, or the running round is replacing its rows. */
  predicate Excused(s: System, f: FileId)
    requires s.live.Up?
  {
    f in s.live.dirty || (Committing(s) && f in s.round.prepared)
  }

  ghost predicate RowsRight(s: System, f: FileId)
    requires s.live.Up?
  {
    !Excused(s, f) ==> RowsFit(s, f)
  }

  /** Whether the file has wrong rows after a step without being dirty, given whether it had before. Rows
      go wrong in four ways only. A swap takes up a file whose deletion was skipped, or in a round without
      vectors, or with nodes read twice. A swap passes over a dirty file whose path leads elsewhere. A
      deletion takes rows of a file whose path clashes. A round fails after it has changed the rows of a file
      that only a link led it to. */
  ghost predicate MarredAfter(s: System, a: Action, f: FileId, was: bool)
    requires s.live.Up? && Enabled(s, a)
  {
    match a
    case Commits(CheckPointer) =>
      if s.pointer == s.live.generation && (f in s.round.files || f in s.round.prepared) then false else was
    case Commits(DeleteRows(g)) =>
      if Excused(s, f) || Without(Owned(LiveTable(s), f), g) == Owned(LiveTable(s), f) then was
      else Without(Owned(LiveTable(s), f), g) != RowsFor(f, PartOf(s.live.graph, f))
    case Commits(SwapGraph) =>
      if f in s.round.retry then false
      else if f in s.round.prepared then Kept(s, f) + Will(s, f) != RowsFor(f, s.round.prepared[f])
      else if f in s.round.files then !RowsFit(s, f)
      else was
    case Commits(FailRound) =>
      if Committing(s) && f in s.round.prepared && f !in s.live.dirty then !RowsFit(s, f) else was
    case _ => was
  }

  lemma DeleteRight(s: System, g: FileId, f: FileId)
    requires Shape(s) && CommitEnabled(s, DeleteRows(g))
    ensures var s' := CommitNext(s, DeleteRows(g));
      RowsRight(s', f) <==> !MarredAfter(s, Commits(DeleteRows(g)), f, !RowsRight(s, f))
  {
    hide Generations, Locking, Rounds, Persists, Owned, Without, RowsFor, Flatten;
    WithoutOwned(LiveTable(s), g, f);
  }

  /** A batch of a write in which the file has no rows adds none to it. */
  lemma WriteOther(table: Table, batches: seq<seq<Row>>, f: FileId)
    requires batches != [] && Owned(Flatten(batches), f) == []
    ensures Owned(table + batches[0], f) == Owned(table, f)
  {
    hide Owned, Flatten;
    FlattenHead(batches);
    OwnedConcat(batches[0], Flatten(batches[1..]), f);
    OwnedConcat(table, batches[0], f);
    assert Owned(batches[0], f) == [];
  }

  lemma WriteRight(s: System, f: FileId)
    requires Shape(s) && CommitEnabled(s, WriteBatch) && PlanAt(s, f)
    ensures RowsRight(CommitNext(s, WriteBatch), f) <==> RowsRight(s, f)
  {
    var s' := CommitNext(s, WriteBatch);
    assert Excused(s', f) == Excused(s, f) && s'.live.graph == s.live.graph;
    if f !in s.round.prepared {
      hide Generations, Locking, Rounds, Persists, Owned, RowsFor, Flatten, EmbedAll;
      WriteOther(LiveTable(s), s.round.batches, f);
      assert LiveTable(s') == LiveTable(s) + s.round.batches[0];
    }
  }

  lemma SwapRight(s: System, f: FileId)
    requires Shape(s) && CommitEnabled(s, SwapGraph) && PlanAt(s, f)
    ensures RowsRight(CommitNext(s, SwapGraph), f)
       <==> !MarredAfter(s, Commits(SwapGraph), f, !RowsRight(s, f))
  {
    hide Generations, Locking, Persists, Owned, RowsFor, EmbedAll;
    assert LiveTable(CommitNext(s, SwapGraph)) == LiveTable(s);
    assert Flatten(s.round.batches) == [] && Owned([], f) == [] by { assert s.round.batches == []; OwnedNothing(f); }
  }

  lemma OwnedNothing(f: FileId)
    ensures Owned([], f) == []
  {
  }

  lemma LockRight(s: System, c: CommitStep, f: FileId)
    requires Shape(s) && CommitEnabled(s, c) && (c.TakeLock? || c.CheckPointer? || c.FailRound? || c.SkipRows?)
    ensures RowsRight(CommitNext(s, c), f) <==> !MarredAfter(s, Commits(c), f, !RowsRight(s, f))
  {
    hide Generations, Persists, Owned, RowsFor;
    assert LiveTable(CommitNext(s, c)) == LiveTable(s);
  }

  lemma CommitRight(s: System, c: CommitStep, f: FileId)
    requires Shape(s) && CommitEnabled(s, c) && PlanAt(s, f)
    ensures CommitNext(s, c).live.Up?
    ensures RowsRight(CommitNext(s, c), f) <==> !MarredAfter(s, Commits(c), f, !RowsRight(s, f))
  {
    CommitStaysUp(s, c);
    hide Shape, PlanAt, RowsRight, CommitNext, CommitEnabled;
    match c {
      case DeleteRows(g) => DeleteRight(s, g, f);
      case WriteBatch => WriteRight(s, f);
      case SwapGraph => SwapRight(s, f);
      case _ => LockRight(s, c, f);
    }
  }

  lemma ReadRight(s: System, r: ReadStep, f: FileId)
    requires Shape(s) && ReadEnabled(s, r)
    ensures ReadNext(s, r).live.Up? && (RowsRight(ReadNext(s, r), f) <==> RowsRight(s, f))
  {
    ReadStaysUp(s, r);
    ReadNotCommitting(s, r);
    hide ReadNext, ReadEnabled, Shape, Owned, RowsFor;
  }

  lemma ReadNotCommitting(s: System, r: ReadStep)
    requires ReadEnabled(s, r)
    ensures !Committing(s) && !Committing(ReadNext(s, r))
  {
    hide Target, Differing;
  }

  /** What a step does to the rows of one file. */
  lemma RowsStep(s: System, a: Action, f: FileId)
    requires Shape(s) && Enabled(s, a) && s.live.Up? && a != Lives(Crash) && PlanAt(s, f)
    ensures Next(s, a).live.Up?
    ensures RowsRight(Next(s, a), f) <==> !MarredAfter(s, a, f, !RowsRight(s, f))
  {
    match a {
      case Refreshes(r) => ReadRight(s, r, f);
      case Commits(c) => CommitRight(s, c, f);
      case _ =>
        FrameRows(s, a);
        hide Shape, Next, Enabled, Owned, RowsFor;
    }
  }

  ghost predicate NoCrash(actions: seq<Action>) {
    forall i :: 0 <= i < |actions| ==> actions[i] != Lives(Crash)
  }

  /** Whether the file has wrong rows after a run without being dirty. */
  ghost predicate Marred(s: System, actions: seq<Action>, f: FileId, was: bool)
    requires Shape(s) && s.live.Up? && Runs(s, actions) && NoCrash(actions)
    decreases |actions|
  {
    if actions == [] then was
    else
      assert actions[0] != Lives(Crash);
      StaysUp(s, actions[0]);
      ShapeStep(s, actions[0]);
      assert forall i :: 0 <= i < |actions[1..]| ==> actions[1..][i] == actions[i + 1];
      Marred(Next(s, actions[0]), actions[1..], f, MarredAfter(s, actions[0], f, was))
  }

  /** Over any run of one process, wherever rounds fail: a file that is not dirty has wrong rows exactly if
      one of the four ways made them wrong and no later round took the file up. */
  lemma {:induction false} RowsRun(s: System, actions: seq<Action>, f: FileId)
    requires Shape(s) && TablesExact(s) && s.live.Up? && Runs(s, actions) && NoCrash(actions) && PlanAt(s, f)
    ensures var t := Final(s, actions);
      t.live.Up? && PlanAt(t, f) && (RowsRight(t, f) <==> !Marred(s, actions, f, !RowsRight(s, f)))
    decreases |actions|
  {
    if actions != [] {
      var a := actions[0];
      assert a != Lives(Crash);
      ShapeStep(s, a);
      TablesStep(s, a);
      PlanStep(s, a, f);
      RowsStep(s, a, f);
      assert forall i :: 0 <= i < |actions[1..]| ==> actions[1..][i] == actions[i + 1];
      hide Shape, TablesExact, PlanAt, RowsRight, MarredAfter;
      RowsRun(Next(s, a), actions[1..], f);
    }
  }

  // ---------------------------------------------------------------- runs in which only deletions are skipped

  /** A step that follows no link, has its vectors, and deletes no rows of another file. */
  ghost predicate Plain(s: System, a: Action)
    requires Enabled(s, a)
  {
    match a
    case Refreshes(PrepareOk(h)) => Target(s.disk, h) == Some(h)
    case Refreshes(PrepareRetry(h)) => Target(s.disk, h) == Some(h)
    case Refreshes(r) => !r.EmbedUnavailable?
    case Commits(DeleteRows(g)) => forall h: FileId :: h != g && Owned(LiveTable(s), h) != [] ==> !Clash(g, h)
    case _ => true
  }

  /** The nodes waiting for a prepared file are those of its part. */
  ghost predicate QueueFits(s: System, f: FileId)
    requires s.round.Active?
  {
    f in s.round.prepared ==> Owned(EmbedAll(s.round.nodes, map[]), f) == RowsFor(f, s.round.prepared[f])
  }

  /** What plain steps keep of a round. */
  ghost predicate PlainAt(s: System, f: FileId) {
    s.live.Up? && s.round.Active? ==>
      && s.round.passed == {} && s.round.prepared.Keys <= s.round.files
      && QueueFits(s, f)
      && (s.round.phase == Preparing ==> s.round.prepared.Keys !! s.round.todo)
      && (s.round.phase !in {Scanning, Preparing} ==> s.round.embedded)
  }

  /** What a file adds to the queue keeps the queue fitting, unless it is read again with another text. */
  lemma QueueKeepsFit(r: Round, g: FileId, part: Part, f: FileId)
    requires r.Active? && (g in r.prepared ==> r.prepared[g] == part)
    requires f in r.prepared ==> Owned(EmbedAll(r.nodes, map[]), f) == RowsFor(f, r.prepared[f])
    requires f !in r.prepared ==> Owned(EmbedAll(r.nodes, map[]), f) == []
    ensures f in r.prepared[g := part] ==>
      Owned(EmbedAll(r.nodes + NewNodes(r, g, part), map[]), f) == RowsFor(f, r.prepared[g := part][f])
  {
    var added := NewNodes(r, g, part);
    EmbedAllConcat(r.nodes, added, map[]);
    OwnedConcat(EmbedAll(r.nodes, map[]), EmbedAll(added, map[]), f);
    if g != f {
      NewNodesOwned(r, g, part, f);
    } else if f in r.prepared {
      ReadAgain(r, f, part);
    } else {
      RowsForOwned(f, part.nodes, f);
    }
    hide NotQueued, Embeddable, Owned, EmbedAll;
  }

  lemma PlainPrepare(s: System, h: FileId, f: FileId)
    requires Rounds(s) && ReadEnabled(s, PrepareOk(h)) && Plain(s, Refreshes(PrepareOk(h)))
    requires PlanAt(s, f) && PlainAt(s, f)
    ensures PlainAt(AfterPrepare(s, h), f)
  {
    QueueKeepsFit(s.round, h, Read(At(s.disk, h)), f);
    hide Target, Canonical, NewNodes, EmbedAll, Owned, Covered, KnownVectors, Flatten, Read, HasText, RowsFor;
  }

  lemma PlainRead(s: System, r: ReadStep, f: FileId)
    requires Rounds(s) && ReadEnabled(s, r) && Plain(s, Refreshes(r)) && PlanAt(s, f) && PlainAt(s, f)
    ensures PlainAt(ReadNext(s, r), f)
  {
    match r {
      case PrepareOk(h) => PlainPrepare(s, h, f);
      case ScanDone => ScanDoneKeeps(s); hide AfterScan, Differing, Target, EmbedAll, Owned;
      case _ => hide Target, Canonical, EmbedAll, Owned, Flatten;
    }
  }

  lemma PlainCommit(s: System, c: CommitStep, f: FileId)
    requires CommitEnabled(s, c) && PlainAt(s, f)
    ensures PlainAt(CommitNext(s, c), f)
  {
    hide EmbedAll, Owned, Without, KeptWithout;
  }

  lemma PlainStep(s: System, a: Action, f: FileId)
    requires Shape(s) && Enabled(s, a) && Plain(s, a) && s.live.Up? && a != Lives(Crash)
    requires PlanAt(s, f) && PlainAt(s, f)
    ensures PlainAt(Next(s, a), f)
  {
    match a {
      case Refreshes(r) => PlainRead(s, r, f);
      case Commits(c) => PlainCommit(s, c, f);
      case _ =>
        FrameRows(s, a);
        hide Shape, Next, Enabled, Owned, EmbedAll;
    }
  }

  /** Whether a skipped deletion has left rows of the file that no later round has replaced. */
  ghost predicate SkippedAfter(s: System, a: Action, f: FileId, was: bool)
    requires s.live.Up? && Enabled(s, a)
  {
    match a
    case Commits(CheckPointer) => if s.pointer == s.live.generation && f in s.round.files then false else was
    case Commits(SwapGraph) =>
      if f in s.round.retry then false else if f in s.round.prepared then Kept(s, f) != [] else was
    case _ => was
  }

  lemma NoneLeft(a: seq<Row>, b: seq<Row>)
    ensures a + b == b <==> a == []
  {
    if a + b == b { assert |a| + |b| == |b|; }
  }

  /** In a plain step the four ways come down to one. */
  lemma PlainMarred(s: System, a: Action, f: FileId, was: bool)
    requires Shape(s) && TablesExact(s) && Enabled(s, a) && Plain(s, a) && s.live.Up? && PlanAt(s, f) && PlainAt(s, f)
    ensures MarredAfter(s, a, f, was) == SkippedAfter(s, a, f, was)
  {
    hide Generations, Locking, Persists, RowsFor, EmbedAll, Without, Owned;
    match a {
      case Commits(SwapGraph) =>
        if f in s.round.prepared { NoneLeft(Kept(s, f), Will(s, f)); }
      case Commits(DeleteRows(g)) =>
        if !Excused(s, f) { UntouchedRows(s, g, f); }
      case _ =>
    }
  }

  lemma UntouchedRows(s: System, g: FileId, f: FileId)
    requires TablesExact(s) && CommitEnabled(s, DeleteRows(g)) && Plain(s, Commits(DeleteRows(g))) && f != g
    ensures Without(Owned(LiveTable(s), f), g) == Owned(LiveTable(s), f)
  {
    LiveTableExact(s);
    WithoutOwned(LiveTable(s), g, f);
    if Owned(LiveTable(s), f) != [] {
      WithoutFile(LiveTable(s), g, f);
    }
  }

  ghost predicate PlainRun(s: System, actions: seq<Action>)
    requires Runs(s, actions)
    decreases |actions|
  {
    actions == [] || (Plain(s, actions[0]) && PlainRun(Next(s, actions[0]), actions[1..]))
  }

  ghost predicate Skipped(s: System, actions: seq<Action>, f: FileId, was: bool)
    requires Shape(s) && s.live.Up? && Runs(s, actions) && NoCrash(actions)
    decreases |actions|
  {
    if actions == [] then was
    else
      assert actions[0] != Lives(Crash);
      StaysUp(s, actions[0]);
      ShapeStep(s, actions[0]);
      assert forall i :: 0 <= i < |actions[1..]| ==> actions[1..][i] == actions[i + 1];
      Skipped(Next(s, actions[0]), actions[1..], f, SkippedAfter(s, actions[0], f, was))
  }

  lemma {:induction false} PlainMarredRun(s: System, actions: seq<Action>, f: FileId, was: bool)
    requires Shape(s) && TablesExact(s) && s.live.Up? && Runs(s, actions) && NoCrash(actions)
    requires PlainRun(s, actions) && PlanAt(s, f) && PlainAt(s, f)
    ensures Marred(s, actions, f, was) == Skipped(s, actions, f, was)
    decreases |actions|
  {
    if actions != [] {
      var a := actions[0];
      assert a != Lives(Crash);
      PlainMarred(s, a, f, was);
      StaysUp(s, a);
      ShapeStep(s, a);
      TablesStep(s, a);
      PlanStep(s, a, f);
      PlainStep(s, a, f);
      assert forall i :: 0 <= i < |actions[1..]| ==> actions[1..][i] == actions[i + 1];
      hide Shape, TablesExact, PlanAt, PlainAt, MarredAfter, SkippedAfter;
      PlainMarredRun(Next(s, a), actions[1..], f, MarredAfter(s, a, f, was));
    }
  }

  /** Over plain runs of one process that start with the right rows, wherever rounds fail: a file that is
      not dirty has wrong rows exactly if a skipped deletion left rows of it that no later round replaced. */
  lemma DirtyCoversHalfWritten(s: System, actions: seq<Action>, f: FileId)
    requires Shape(s) && TablesExact(s) && s.live.Up? && s.round.Idle? && RowsRight(s, f)
    requires Runs(s, actions) && NoCrash(actions) && PlainRun(s, actions)
    ensures var t := Final(s, actions);
      t.live.Up? && (!Excused(t, f) ==> (RowsFit(t, f) <==> !Skipped(s, actions, f, false)))
  {
    RowsRun(s, actions, f);
    PlainMarredRun(s, actions, f, false);
  }

  // ---------------------------------------------------------------- where runs of one process start and end

  /** The stored table of a generation holds for every file the rows of its stored part, as a finished
      index run leaves it. */
  ghost predicate StoredRowsFit(s: System, g: Generation, f: FileId) {
    g in s.stored && g in s.tables && Owned(s.tables[g], f) == RowsFor(f, PartOf(s.stored[g].graph, f))
  }

  /** After a load the rows of a file are right exactly if the stored ones were. */
  lemma LoadedRowsMatch(s: System, f: FileId)
    requires Shape(s) && TablesExact(s) && s.live.Down? && ProcessEnabled(s, LoadGraph)
    ensures var t := ProcessNext(s, LoadGraph);
      TablesExact(t) && t.live.Up? && t.round.Idle? && PlanAt(t, f)
      && (RowsRight(t, f) <==> StoredRowsFit(s, s.loader.generation, f))
  {
    var t := ProcessNext(s, LoadGraph);
    assert LiveTable(t) == s.tables[s.loader.generation];
  }

  /** And persisting a version in which nothing is dirty and every row is right stores such a generation. */
  lemma PersistedRowsMatch(s: System, f: FileId)
    requires Shape(s) && s.live.Up? && s.round.Idle? && s.live.dirty == {}
    requires 0 < s.live.persistedVersion == s.live.version
    ensures RowsRight(s, f) <==> StoredRowsFit(s, s.live.generation, f)
  {
    hide Locking, Rounds, Owned, RowsFor;
    assert s.stored[s.live.generation] == Stored(s.live.graph, s.live.manifest);
  }

  // ---------------------------------------------------------------- what a round repairs

  predicate NoSkips(actions: seq<Action>) {
    forall i :: 0 <= i < |actions| ==> !(actions[i].Commits? && actions[i].commit.SkipRows?)
  }

  lemma StaysOpen(s: System, a: Action)
    requires Shape(s) && Enabled(s, a) && s.live.Up? && s.live.tableOpen && a != Lives(Crash)
    ensures Next(s, a).live.Up? && Next(s, a).live.tableOpen
  {
    match a {
      case Refreshes(r) => ReadStaysOpen(s, r);
      case Commits(c) => hide Without, KeptWithout;
      case Saves(v) => SaveAside(s, v); SaveStaysOpen(s, v);
      case Others(o) => OtherKeeps(s, o);
      case Edits(d) => EditKeeps(s, d);
      case Lives(_) =>
    }
  }

  lemma SaveStaysOpen(s: System, v: SaveStep)
    requires SaveEnabled(s, v) && s.live.tableOpen
    ensures SaveNext(s, v).live.tableOpen
  {
  }

  lemma ReadStaysOpen(s: System, r: ReadStep)
    requires ReadEnabled(s, r) && s.live.tableOpen
    ensures ReadNext(s, r).live.Up? && ReadNext(s, r).live.tableOpen
  {
    match r {
      case ScanDone => ScanDoneKeeps(s); hide AfterScan, Differing;
      case PrepareOk(_) => hide Target, NewNodes, Covered, KnownVectors;
      case _ =>
    }
  }

  /** Once the table is open, no deletion is skipped. */
  lemma {:induction false} OpenSkipsNothing(s: System, actions: seq<Action>)
    requires Shape(s) && s.live.Up? && s.live.tableOpen && Runs(s, actions) && NoCrash(actions)
    ensures NoSkips(actions)
    decreases |actions|
  {
    if actions != [] {
      assert actions[0] != Lives(Crash);
      StaysOpen(s, actions[0]);
      ShapeStep(s, actions[0]);
      assert forall i :: 0 <= i < |actions[1..]| ==> actions[1..][i] == actions[i + 1];
      OpenSkipsNothing(Next(s, actions[0]), actions[1..]);
      forall i | 0 <= i < |actions| ensures !(actions[i].Commits? && actions[i].commit.SkipRows?) {
        if i > 0 { assert actions[1..][i - 1] == actions[i]; }
      }
    }
  }

  /** No file that the round reads has a path that clashes with this one. */
  ghost predicate ReadsNoClash(s: System, scope: set<FileId>, f: FileId)
    requires s.live.Up?
  {
    forall g :: g != f && Reread(s, scope, g) ==> !Clash(g, f)
  }

  /** In the state `t` of a round that started in `s`: the rows of a file that is not read are as they were;
      those of one that is read are on their way. */
  ghost predicate RowsMidway(s: System, scope: set<FileId>, t: System, f: FileId)
    requires s.live.Up? && t.live.Up?
  {
    && TablesExact(t) && PlanAt(t, f)
    && (!Reread(s, scope, f) ==> Owned(LiveTable(t), f) == Owned(LiveTable(s), f))
    && (t.round.Active? ==>
          t.round.kept == map[] && (Reread(s, scope, f) ==> QueueFits(t, f))
          && (t.round.phase !in {Scanning, Preparing} ==> t.round.embedded))
    && (t.round.Idle? && !t.live.superseded && Reread(s, scope, f) ==> RowsFit(t, f))
  }

  lemma {:induction false} OwnedIn(table: Table, f: FileId, r: Row)
    requires r in Owned(table, f)
    ensures r in table
  {
    if table != [] && r != table[0] {
      OwnedIn(table[1..], f, r);
    }
  }

  lemma {:induction false} AllQueued(queue: seq<Queued>, more: seq<Queued>)
    requires forall j :: 0 <= j < |more| ==>
      exists i :: 0 <= i < |queue| && queue[i].file == more[j].file && queue[i].node.id.key == more[j].node.id.key
    ensures NotQueued(queue, more) == []
  {
    if more != [] {
      assert exists i ::
        0 <= i < |queue| && queue[i].file == more[0].file && queue[i].node.id.key == more[0].node.id.key;
      forall j | 0 <= j < |more[1..]|
        ensures exists i :: 0 <= i < |queue| && queue[i].file == more[1..][j].file
                            && queue[i].node.id.key == more[1..][j].node.id.key
      {
        assert more[1..][j] == more[j + 1];
      }
      AllQueued(queue, more[1..]);
    }
  }

  /** Reading the same text of a file again adds nothing to the queue. */
  lemma ReadAgain(r: Round, f: FileId, part: Part)
    requires r.Active? && f in r.prepared && r.prepared[f] == part
    requires Owned(EmbedAll(r.nodes, map[]), f) == RowsFor(f, part)
    ensures NewNodes(r, f, part) == []
  {
    var more, rows := Embeddable(f, part.nodes), EmbedAll(r.nodes, map[]);
    QueuedFor(f, part.nodes);
    forall j | 0 <= j < |more|
      ensures exists i :: 0 <= i < |r.nodes| && r.nodes[i].file == more[j].file
                          && r.nodes[i].node.id.key == more[j].node.id.key
    {
      var row := RowsFor(f, part)[j];
      assert row in Owned(rows, f);
      OwnedIn(rows, f, row);
      var i :| 0 <= i < |rows| && rows[i] == row;
      SameSymbol(f, r.nodes[i].node.id.key, more[j].node.id.key);
    }
    AllQueued(r.nodes, more);
  }

  lemma SameSymbol(f: FileId, k: string, l: string)
    requires SymbolId(f, k) == SymbolId(f, l)
    ensures k == l
  {
    assert SymbolId(f, k)[|f| + 1..] == k && SymbolId(f, l)[|f| + 1..] == l;
  }

  lemma PrepareMidway(s: System, scope: set<FileId>, t: System, h: FileId, f: FileId)
    requires s.live.Up? && Midway(s, scope, t) && RowsMidway(s, scope, t, f) && ReadEnabled(t, PrepareOk(h))
    ensures QueueFits(t, f) ==> QueueFits(AfterPrepare(t, h), f)
  {
    if QueueFits(t, f) && Target(t.disk, h).Some? {
      var g := Target(t.disk, h).value;
      assert g in t.round.prepared ==> t.round.prepared[g] == Read(At(t.disk, g));
      assert PlanAt(t, f);
      hide Midway, RowsMidway, Target, NewNodes, EmbedAll, Owned, Covered, KnownVectors, Flatten, Read, RowsFor;
      QueueKeepsFit(t.round, g, Read(At(t.disk, g)), f);
    }
  }

  lemma ReadMidway(s: System, scope: set<FileId>, t: System, r: ReadStep, f: FileId)
    requires s.live.Up? && Midway(s, scope, t) && RowsMidway(s, scope, t, f)
    requires ReadEnabled(t, r) && Undisturbed(Refreshes(r))
    ensures var t' := ReadNext(t, r);
      t'.live.Up? && LiveTable(t') == LiveTable(t)
      && (t'.round.Active? ==>
            t'.round.kept == map[] && (Reread(s, scope, f) ==> QueueFits(t', f))
            && (t'.round.phase !in {Scanning, Preparing} ==> t'.round.embedded))
  {
    ReadStaysUp(t, r);
    match r {
      case PrepareOk(h) => PrepareMidway(s, scope, t, h, f); hide Target, NewNodes, QueueFits, Shape;
      case ScanDone => ScanDoneKeeps(t); hide AfterScan, Differing, Shape, Owned, EmbedAll;
      case _ => hide Target, Owned, EmbedAll, Shape;
    }
  }

  lemma DeleteMidway(s: System, scope: set<FileId>, t: System, g: FileId, f: FileId)
    requires s.live.Up? && Midway(s, scope, t) && RowsMidway(s, scope, t, f) && CommitEnabled(t, DeleteRows(g))
    requires ReadsNoClash(s, scope, f) && !Reread(s, scope, f)
    ensures Owned(LiveTable(CommitNext(t, DeleteRows(g))), f) == Owned(LiveTable(s), f)
  {
    assert Rounds(t) && g in t.round.prepared && Reread(s, scope, g);
    hide Shape, Reread, Rounds, PlanAt, Owned, Without;
    LiveTableExact(t);
    WithoutFile(LiveTable(t), g, f);
  }

  lemma WriteMidway(s: System, scope: set<FileId>, t: System, f: FileId)
    requires s.live.Up? && Midway(s, scope, t) && RowsMidway(s, scope, t, f) && CommitEnabled(t, WriteBatch)
    requires !Reread(s, scope, f)
    ensures Owned(LiveTable(CommitNext(t, WriteBatch)), f) == Owned(LiveTable(s), f)
  {
    assert f !in t.round.prepared;
    assert Owned(Flatten(t.round.batches), f) == [];
    hide Shape, Reread, Midway, PlanAt, Owned, Flatten, EmbedAll;
    WriteOther(LiveTable(t), t.round.batches, f);
  }

  lemma SwappedFile(s: System, scope: set<FileId>, t: System, f: FileId)
    requires s.live.Up? && Midway(s, scope, t) && CommitEnabled(t, SwapGraph) && Reread(s, scope, f)
    ensures f in t.round.prepared
  {
    var h :| Taken(s, scope, h) && Target(s.disk, h) == Some(f);
    hide Shape, Taken, Target;
    assert h in t.round.files;
  }

  /** What the table holds for a prepared file when everything has been written. */
  lemma WrittenRows(t: System, f: FileId)
    requires CommitEnabled(t, SwapGraph) && PlanAt(t, f) && f in t.round.prepared
    ensures Owned(LiveTable(t), f) == Kept(t, f) + Will(t, f)
  {
    hide EmbedAll, LiveTable;
    OwnedNothing(f);
    assert t.round.batches == [] ==> Flatten(t.round.batches) == [];
    hide Owned, Flatten;
  }

  lemma SwapFits(t: System, f: FileId)
    requires CommitEnabled(t, SwapGraph) && f in t.round.prepared
    requires Owned(LiveTable(t), f) == RowsFor(f, t.round.prepared[f])
    ensures CommitNext(t, SwapGraph).live.Up? && RowsFit(CommitNext(t, SwapGraph), f)
  {
    hide Owned, RowsFor;
  }

  lemma SwapMidway(s: System, scope: set<FileId>, t: System, f: FileId)
    requires s.live.Up? && Midway(s, scope, t) && RowsMidway(s, scope, t, f) && CommitEnabled(t, SwapGraph)
    requires Reread(s, scope, f)
    ensures CommitNext(t, SwapGraph).live.Up? && RowsFit(CommitNext(t, SwapGraph), f)
  {
    SwappedFile(s, scope, t, f);
    hide Midway, Reread, PlanAt, Owned, EmbedAll, RowsFor, LiveTable, CommitNext, TablesExact;
    WrittenRows(t, f);
    SwapFits(t, f);
  }

  lemma CommitOtherRows(s: System, scope: set<FileId>, t: System, c: CommitStep, f: FileId)
    requires s.live.Up? && Midway(s, scope, t) && RowsMidway(s, scope, t, f)
    requires CommitEnabled(t, c) && ReadsNoClash(s, scope, f) && !Reread(s, scope, f)
    ensures Owned(LiveTable(CommitNext(t, c)), f) == Owned(LiveTable(s), f)
  {
    match c {
      case DeleteRows(g) => DeleteMidway(s, scope, t, g, f);
      case WriteBatch => WriteMidway(s, scope, t, f);
      case _ => SameTable(t, c);
    }
  }

  lemma SameTable(t: System, c: CommitStep)
    requires CommitEnabled(t, c) && !c.DeleteRows? && !c.WriteBatch?
    ensures LiveTable(CommitNext(t, c)) == LiveTable(t)
  {
  }

  lemma CommitRound(t: System, c: CommitStep, f: FileId)
    requires CommitEnabled(t, c) && !c.SkipRows? && t.round.kept == map[]
    requires t.round.phase !in {Scanning, Preparing} ==> t.round.embedded
    ensures var t' := CommitNext(t, c);
      t'.live.Up?
      && (t'.round.Active? ==>
            t'.round.kept == map[] && (QueueFits(t, f) ==> QueueFits(t', f))
            && (t'.round.phase !in {Scanning, Preparing} ==> t'.round.embedded))
  {
    hide Owned, EmbedAll, Without;
    if c.DeleteRows? { assert KeptWithout(map[], c.file) == map[]; }
  }

  /** A round ends with the swap, with a scan that finds nothing, or because the index is superseded. */
  lemma EndsByCommit(t: System, c: CommitStep)
    requires CommitEnabled(t, c) && c != SwapGraph && c != FailRound
    ensures CommitNext(t, c).live.Up?
    ensures CommitNext(t, c).round.Active? || CommitNext(t, c).live.superseded
  {
  }

  lemma EndsByRead(t: System, r: ReadStep)
    requires ReadEnabled(t, r) && r != ScanDone
    ensures ReadNext(t, r).round.Active?
  {
    hide Target, NewNodes, Covered, KnownVectors;
  }

  lemma NothingRead(s: System, scope: set<FileId>, t: System, f: FileId)
    requires s.live.Up? && Midway(s, scope, t) && ReadEnabled(t, ScanDone) && AfterScan(t).round.Idle?
    ensures !Reread(s, scope, f)
  {
    ScanDoneKeeps(t);
    hide AfterScan, Shape;
    if Reread(s, scope, f) {
      var h :| Taken(s, scope, h) && Target(s.disk, h) == Some(f);
      TakenFiles(s, scope, t, h);
    }
  }

  lemma ReadRowsOnward(s: System, scope: set<FileId>, t: System, r: ReadStep, f: FileId)
    requires s.live.Up? && Midway(s, scope, t) && RowsMidway(s, scope, t, f)
    requires ReadEnabled(t, r) && Undisturbed(Refreshes(r))
    requires ReadNext(t, r).live.Up? && TablesExact(ReadNext(t, r)) && PlanAt(ReadNext(t, r), f)
    ensures RowsMidway(s, scope, ReadNext(t, r), f)
  {
    ReadMidway(s, scope, t, r, f);
    if r.ScanDone? {
      if AfterScan(t).round.Idle? { NothingRead(s, scope, t, f); }
    } else {
      EndsByRead(t, r);
    }
    hide Midway, Reread, ReadNext, ReadEnabled, PlanAt, TablesExact, QueueFits, RowsFit, Owned;
  }

  lemma CommitRowsOnward(s: System, scope: set<FileId>, t: System, c: CommitStep, f: FileId)
    requires s.live.Up? && Midway(s, scope, t) && RowsMidway(s, scope, t, f) && ReadsNoClash(s, scope, f)
    requires CommitEnabled(t, c) && Undisturbed(Commits(c)) && !c.SkipRows?
    requires CommitNext(t, c).live.Up? && TablesExact(CommitNext(t, c)) && PlanAt(CommitNext(t, c), f)
    ensures RowsMidway(s, scope, CommitNext(t, c), f)
  {
    CommitRound(t, c, f);
    if !Reread(s, scope, f) { CommitOtherRows(s, scope, t, c, f); }
    if c.SwapGraph? {
      if Reread(s, scope, f) { SwapMidway(s, scope, t, f); }
    } else {
      EndsByCommit(t, c);
    }
    hide Midway, Reread, CommitNext, CommitEnabled, PlanAt, TablesExact, QueueFits, RowsFit, Owned;
  }

  lemma RowsAside(s: System, scope: set<FileId>, t: System, t': System, f: FileId)
    requires s.live.Up? && t.live.Up? && RowsMidway(s, scope, t, f) && SameRows(t, t')
    requires TablesExact(t') && PlanAt(t', f) && (t.live.superseded ==> t'.live.superseded)
    ensures RowsMidway(s, scope, t', f)
  {
    hide TablesExact, PlanAt, Reread, Owned, RowsFor, EmbedAll;
  }

  lemma RowsOnward(s: System, scope: set<FileId>, t: System, a: Action, f: FileId)
    requires s.live.Up? && Running(s, scope, t) && RowsMidway(s, scope, t, f)
    requires Enabled(t, a) && Undisturbed(a) && !(a.Commits? && a.commit.SkipRows?) && ReadsNoClash(s, scope, f)
    ensures Next(t, a).live.Up? && RowsMidway(s, scope, Next(t, a), f)
  {
    RunningHasShape(s, scope, t);
    TablesStep(t, a);
    PlanStep(t, a, f);
    IdleTakesNoStep(s, scope, t);
    StaysUp(t, a);
    hide Shape, Midway, Settled, Ended, Running, RowsMidway, ReadsNoClash, PlanAt, TablesExact;
    match a {
      case Refreshes(r) => ReadRowsOnward(s, scope, t, r, f);
      case Commits(c) => CommitRowsOnward(s, scope, t, c, f);
      case Saves(v) => SaveAside(t, v); FrameRows(t, a); RowsAside(s, scope, t, SaveNext(t, v), f);
      case Others(o) => OtherAside(t, o); FrameRows(t, a); RowsAside(s, scope, t, OtherNext(t, o), f);
      case Lives(p) => LoadAside(t, p); FrameRows(t, a); RowsAside(s, scope, t, ProcessNext(t, p), f);
    }
  }

  lemma {:induction false} RowsOnwards(s: System, scope: set<FileId>, t: System, actions: seq<Action>, f: FileId)
    requires s.live.Up? && Running(s, scope, t) && t.live.Up? && RowsMidway(s, scope, t, f)
    requires Runs(t, actions) && AllUndisturbed(actions) && NoSkips(actions) && ReadsNoClash(s, scope, f)
    ensures Final(t, actions).live.Up? && RowsMidway(s, scope, Final(t, actions), f)
    decreases |actions|
  {
    hide Running, Undisturbed, RowsMidway, ReadsNoClash;
    if actions != [] {
      assert Undisturbed(actions[0]);
      RowsOnward(s, scope, t, actions[0], f);
      Onward(s, scope, t, actions[0]);
      assert forall i :: 0 <= i < |actions[1..]| ==> actions[1..][i] == actions[i + 1];
      RowsOnwards(s, scope, Next(t, actions[0]), actions[1..], f);
    }
  }

  lemma BeginRows(s: System, scope: set<FileId>, f: FileId)
    requires Shape(s) && TablesExact(s) && ReadEnabled(s, Begin(scope)) && PlanAt(s, f)
    ensures RowsMidway(s, scope, ReadNext(s, Begin(scope)), f)
  {
    var t := ReadNext(s, Begin(scope));
    TablesStep(s, Refreshes(Begin(scope)));
    PlanStep(s, Refreshes(Begin(scope)), f);
    hide TablesExact, PlanAt, Reread, Owned, EmbedAll, RowsFor, Shape;
    assert LiveTable(t) == LiveTable(s);
  }

  /** Whatever failed before, and whatever a crash left: after a round with no edit and no skipped deletion,
      the rows of a file are those of its part of the graph exactly if the round read it or they were before.
      A deletion is not skipped once the table is open. */
  lemma RoundRepairsRows(s: System, scope: set<FileId>, actions: seq<Action>, f: FileId)
    requires Shape(s) && TablesExact(s) && s.live.Up? && PlanAt(s, f)
    requires Runs(s, actions) && RoundOver(s, scope, actions) && InUse(Final(s, actions))
    requires NoSkips(actions) || (s.live.tableOpen && NoCrash(actions))
    requires ReadsNoClash(s, scope, f)
    ensures RowsFit(Final(s, actions), f) <==> Reread(s, scope, f) || RowsFit(s, f)
  {
    if !NoSkips(actions) { OpenSkipsNothing(s, actions); }
    BeginMidway(s, scope);
    BeginRows(s, scope, f);
    var t := Next(s, actions[0]);
    assert forall i :: 0 <= i < |actions[1..]| ==> actions[1..][i] == actions[i + 1];
    RowsOnwards(s, scope, t, actions[1..], f);
    RoundSettles(s, scope, actions);
    hide Reread, Owned, RowsFor, TablesExact, PlanAt, Shape, ReadsNoClash;
  }

  /** Crash, load, full round: the rows of a file are right afterwards exactly if the round read it or the
      stored rows of the loaded generation were those of the loaded part. */
  lemma ReloadRepairsRows(s: System, before: seq<Action>, scope: set<FileId>, actions: seq<Action>, f: FileId)
    requires Shape(s) && TablesExact(s) && Runs(s, before)
    requires var m := Final(s, before);
      m.live.Down? && ProcessEnabled(m, LoadGraph)
    requires var l := ProcessNext(Final(s, before), LoadGraph);
      Runs(l, actions) && RoundOver(l, scope, actions) && InUse(Final(l, actions)) && NoSkips(actions)
      && ReadsNoClash(l, scope, f)
    ensures var m := Final(s, before);
      var l := ProcessNext(m, LoadGraph);
      RowsFit(Final(l, actions), f) <==>
        Reread(l, scope, f) || StoredRowsFit(m, m.loader.generation, f)
  {
    TablesRun(s, before);
    ShapeRun(s, before);
    var m := Final(s, before);
    ShapeStep(m, Lives(LoadGraph));
    LoadedRowsMatch(m, f);
    hide Reread, Owned, RowsFor, TablesExact, PlanAt, Shape, ReadsNoClash;
    RoundRepairsRows(ProcessNext(m, LoadGraph), scope, actions, f);
  }

  /** And after any later run of the loaded index, skipped deletions included. */
  lemma ReloadedRows(s: System, before: seq<Action>, actions: seq<Action>, f: FileId)
    requires Shape(s) && TablesExact(s) && Runs(s, before)
    requires var m := Final(s, before);
      m.live.Down? && ProcessEnabled(m, LoadGraph)
    requires var l := ProcessNext(Final(s, before), LoadGraph);
      Runs(l, actions) && NoCrash(actions)
    ensures var m := Final(s, before);
      var l := ProcessNext(m, LoadGraph);
      Shape(l) && l.live.Up? && Final(l, actions).live.Up?
      && (RowsRight(Final(l, actions), f)
          <==> !Marred(l, actions, f, !StoredRowsFit(m, m.loader.generation, f)))
  {
    TablesRun(s, before);
    ShapeRun(s, before);
    var m := Final(s, before);
    ShapeStep(m, Lives(LoadGraph));
    LoadedRowsMatch(m, f);
    hide TablesExact, PlanAt, Shape, RowsRight, StoredRowsFit;
    RowsRun(ProcessNext(m, LoadGraph), actions, f);
  }
}
