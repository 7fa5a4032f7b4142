/** The live index as a transition system: the disk, the activation pointer and lock, the stored
    generations, one live index with its refresh round and its persist call, one loader, and the
    other processes. Every file read, lock operation, table operation and rename is one step. */
module LiveModel {
  import opened Basics
  import opened CodeModel
  import opened VectorRows

  // ---------------------------------------------------------------- the disk

  type Stamp = nat

  /** What a file holds: text that parses to a part, or content that is never indexed
      (too large, binary). */
  datatype Body = Source(part: Part) | Unindexable

  /** `visible` is false for a file that exists but that the ignore rules hide from the walk. The walk
      does not follow symbolic links; `target` is none for one that leads out of the project, or to where
      nothing is ever indexed. A link to a directory is a link at every path below it. */
  datatype FileState =
    | Gone
    | Present(stamp: Stamp, visible: bool, body: Body)
    | Link(target: Option<FileId>)

  type Disk = map<FileId, FileState>

  function At(disk: Disk, f: FileId): FileState {
    if f in disk then disk[f] else Gone
  }

  datatype Place = Here(file: FileId) | Nowhere | Elsewhere

  /** Where a path leads: links are followed, a loop of links leads nowhere. */
  function Canonical(disk: Disk, f: FileId, seen: set<FileId>): (p: Place)
    ensures p.Here? ==> At(disk, p.file).Present?
    ensures p == Here(f) <==> At(disk, f).Present?
    ensures p == Elsewhere ==> At(disk, f).Link?
    decreases disk.Keys - seen
  {
    match At(disk, f)
    case Gone => Nowhere
    case Present(_, _, _) => Here(f)
    case Link(None) => Elsewhere
    case Link(Some(g)) => if f in seen then Nowhere else Canonical(disk, g, seen + {f})
  }

  /** The file under whose id a path is prepared: where it leads, or the path itself if it leads nowhere;
      none if it leads out of the project. */
  function Target(disk: Disk, f: FileId): (t: Option<FileId>)
    ensures t == Some(f) || At(disk, f).Link?
    ensures t.Some? && t.value != f ==> At(disk, t.value).Present?
    ensures At(disk, f).Present? ==> t == Some(f)
  {
    match Canonical(disk, f, {})
    case Here(g) => Some(g)
    case Nowhere => Some(f)
    case Elsewhere => None
  }

  /** What the project walk reports for a file. */
  function View(s: FileState): Option<Stamp> {
    if s.Present? && s.visible then Some(s.stamp) else None
  }

  /** What preparing a file reads: it asks whether the file exists, not whether the walk sees it. */
  function Read(s: FileState): Part {
    if s.Present? && s.body.Source? then s.body.part else EMPTY_PART
  }

  predicate HasText(s: FileState) {
    s.Present? && s.body.Source?
  }

  /** What an index built from scratch holds for a file. */
  function Fresh(s: FileState): Part {
    if View(s).Some? then Read(s) else EMPTY_PART
  }

  // ---------------------------------------------------------------- manifests and graphs

  type Manifest = map<FileId, Stamp>
  type Graph = map<FileId, Part>

  function Entry(m: Manifest, f: FileId): Option<Stamp> {
    if f in m then Some(m[f]) else None
  }

  function WithEntry(m: Manifest, f: FileId, e: Option<Stamp>): Manifest {
    if e.Some? then m[f := e.value] else m - {f}
  }

  function PartOf(g: Graph, f: FileId): Part {
    if f in g then g[f] else EMPTY_PART
  }

  /** The previous fingerprints are put back for the files that must be retried. */
  function RestoreRetryFiles(previous: Manifest, next: Manifest, retry: set<FileId>): Manifest {
    map f | f in next.Keys + previous.Keys && (if f in retry then f in previous else f in next)
      :: if f in retry then previous[f] else next[f]
  }

  /** The files whose entries differ: changed, added or deleted. */
  function Differing(previous: Manifest, next: Manifest): set<FileId> {
    set f | f in previous.Keys + next.Keys && Entry(previous, f) != Entry(next, f)
  }

  // ---------------------------------------------------------------- the system

  type Generation = nat

  datatype Stored = Stored(graph: Graph, manifest: Manifest)

  datatype Holder = Free | ByRound | ByPersist | ByOther

  datatype Live =
    | Down
    | Up(generation: Generation, graph: Graph, manifest: Manifest, version: nat,
         persistedVersion: nat, needsRescan: bool, superseded: bool, dirty: set<FileId>,
         semanticUnavailable: bool, tableOpen: bool)

  datatype Phase = Scanning | Preparing | Embedded | Locked | Deleting | Writing

  /** `todo` is what the phase still has to visit: files to scan, to prepare or to delete. `passed` are the
      files that were not prepared under their own id because their path leads elsewhere; `kept` are the
      rows that a skipped deletion has left. */
  datatype Round =
    | Idle
    | Active(phase: Phase, todo: set<FileId>, next: Manifest, files: set<FileId>, prepared: Graph,
             retry: set<FileId>, known: Known, nodes: seq<Queued>, embedded: bool,
             batches: seq<seq<Row>>, passed: set<FileId>, kept: map<FileId, seq<Row>>)

  datatype Stage = Snapped | Waiting | Checked | GraphRenamed | Written | Refused

  datatype Persist = NoPersist | Persisting(stage: Stage, graph: Graph, manifest: Manifest, version: nat)

  datatype Loader = NoLoad | GotManifest(generation: Generation, manifest: Manifest)

  datatype System = System(
    disk: Disk, clock: Stamp,
    pointer: Generation, next: Generation, lock: Holder,
    stored: map<Generation, Stored>, tables: map<Generation, Table>,
    live: Live, round: Round, persist: Persist, loader: Loader)

  /** The editor and the ignore rules. */
  datatype Edit =
    | Write(file: FileId, visible: bool, body: Body)
    | Remove(file: FileId)
    | MakeLink(file: FileId, target: Option<FileId>)
    | SetVisible(file: FileId, visible: bool)

  /** Other processes: they activate a new generation under the lock. */
  datatype OtherStep = Lock | Activate(artifacts: Stored, rows: Table) | Unlock

  /** The part of a refresh round that only reads: scan, prepare, embed. */
  datatype ReadStep =
    | Begin(scope: set<FileId>)
    | ScanOne(file: FileId)
    | ScanDone
    | PrepareOk(file: FileId)
    | PrepareRetry(file: FileId)
    | EmbedDone(batches: seq<seq<Row>>)
    | EmbedUnavailable

  /** The part of a round from the lock to the swap, and a round that fails. A deletion is skipped, and
      counts as done, when the table cannot be opened for it. */
  datatype CommitStep =
    | TakeLock | CheckPointer | DeleteRows(file: FileId) | SkipRows(file: FileId) | WriteBatch | SwapGraph
    | FailRound

  datatype SaveStep =
    | Snapshot | WaitLock | CheckCurrent | RenameGraph | RenameManifest | FailSave | EndSave

  /** `OpenTable` is a search in the live index, which keeps the table open. */
  datatype ProcessStep = Crash | LoadManifest | LoadGraph | OpenTable

  datatype Action =
    | Edits(edit: Edit)
    | Others(other: OtherStep)
    | Refreshes(read: ReadStep)
    | Commits(commit: CommitStep)
    | Saves(save: SaveStep)
    | Lives(process: ProcessStep)

  // ---------------------------------------------------------------- what a manifest knows

  /** A manifest entry and a graph part of one file agree with the disk: if the entry still matches
      the file, the part is the one the file parses to. Stamps are spent once. */
  predicate Fits(clock: Stamp, s: FileState, e: Option<Stamp>, p: Part) {
    match e
    case Some(k) => k < clock && (s.Present? && s.stamp == k ==> p == Read(s))
    case None => View(s).None? ==> p == EMPTY_PART
  }

  predicate AllFit(disk: Disk, clock: Stamp, m: Manifest, g: Graph) {
    forall f :: f in disk.Keys + m.Keys + g.Keys ==> Fits(clock, At(disk, f), Entry(m, f), PartOf(g, f))
  }

  lemma AllFitAt(disk: Disk, clock: Stamp, m: Manifest, g: Graph, f: FileId)
    requires AllFit(disk, clock, m, g)
    ensures Fits(clock, At(disk, f), Entry(m, f), PartOf(g, f))
  {
    if f !in disk.Keys + m.Keys + g.Keys {
      assert At(disk, f) == Gone;
    }
  }

  // ---------------------------------------------------------------- steps

  predicate RoundIn(s: System, phase: Phase) {
    s.live.Up? && s.round.Active? && s.round.phase == phase
  }

  predicate Committing(s: System) {
    RoundIn(s, Deleting) || RoundIn(s, Writing)
  }

  predicate SaveIn(s: System, stage: Stage) {
    s.live.Up? && s.persist.Persisting? && s.persist.stage == stage
  }

  predicate EditEnabled(s: System, e: Edit) {
    e.SetVisible? ==> At(s.disk, e.file).Present?
  }

  function EditNext(s: System, e: Edit): System {
    match e
    case Write(f, visible, body) =>
      s.(disk := s.disk[f := Present(s.clock, visible, body)], clock := s.clock + 1)
    case Remove(f) => s.(disk := s.disk - {f})
    case MakeLink(f, target) => s.(disk := s.disk[f := Link(target)])
    case SetVisible(f, visible) =>
      if At(s.disk, f).Present? then s.(disk := s.disk[f := At(s.disk, f).(visible := visible)]) else s
  }

  /** The artifacts another process activates agree with the disk, and its rows have ids of symbols and the
      vectors of their texts, as a finished index run leaves them. */
  predicate OtherEnabled(s: System, o: OtherStep) {
    match o
    case Lock => s.lock == Free
    case Activate(artifacts, rows) =>
      s.lock == ByOther && AllFit(s.disk, s.clock, artifacts.manifest, artifacts.graph)
      && RowsNamed(rows) && RowsExact(rows)
    case Unlock => s.lock == ByOther
  }

  function OtherNext(s: System, o: OtherStep): System {
    match o
    case Lock => s.(lock := ByOther)
    case Activate(artifacts, rows) =>
      s.(stored := s.stored[s.next := artifacts], tables := s.tables[s.next := rows],
         pointer := s.next, next := s.next + 1)
    case Unlock => s.(lock := Free)
  }

  /** The files a full comparison visits: every file on disk and every file in the manifest. */
  function FullScope(disk: Disk, m: Manifest): set<FileId> {
    disk.Keys + m.Keys
  }

  predicate ReadEnabled(s: System, r: ReadStep) {
    match r
    case Begin(scope) =>
      s.live.Up? && s.round.Idle? && !s.live.superseded
      && (s.live.needsRescan ==> FullScope(s.disk, s.live.manifest) <= scope)
    case ScanOne(f) => RoundIn(s, Scanning) && f in s.round.todo
    case ScanDone => RoundIn(s, Scanning) && s.round.todo == {}
    case PrepareOk(f) => RoundIn(s, Preparing) && f in s.round.todo
    case PrepareRetry(f) => RoundIn(s, Preparing) && f in s.round.todo && Target(s.disk, f).Some?
    case EmbedDone(batches) =>
      RoundIn(s, Preparing) && s.round.todo == {}
      && Flatten(batches) == EmbedAll(s.round.nodes, s.round.known)
    case EmbedUnavailable => RoundIn(s, Preparing) && s.round.todo == {}
  }

  function ReadNext(s: System, r: ReadStep): System
    requires ReadEnabled(s, r)
  {
    match r
    case Begin(scope) =>
      s.(round := Active(Scanning, scope, s.live.manifest, {}, map[], {}, map[], [], false, [], {}, map[]))
    case ScanOne(f) =>
      s.(round := s.round.(todo := s.round.todo - {f},
                           next := WithEntry(s.round.next, f, View(At(s.disk, f)))))
    case ScanDone => AfterScan(s)
    case PrepareOk(f) => AfterPrepare(s, f)
    case PrepareRetry(f) =>
      s.(round := s.round.(todo := s.round.todo - {f}, retry := s.round.retry + {Target(s.disk, f).value},
                           passed := s.round.passed + Passes(s.disk, f)))
    case EmbedDone(batches) =>
      s.(round := s.round.(phase := Embedded, embedded := true, batches := batches))
    case EmbedUnavailable =>
      s.(live := s.live.(semanticUnavailable := true), round := s.round.(phase := Embedded))
  }

  /** Ending a scan: nothing differs, or the differing and dirty files are to be prepared. */
  function AfterScan(s: System): System
    requires s.live.Up? && s.round.Active?
  {
    var files := s.live.dirty + Differing(s.live.manifest, s.round.next);
    if files == {} then
      s.(live := s.live.(manifest := s.round.next, needsRescan := false), round := Idle)
    else
      s.(live := s.live.(needsRescan := true),
         round := s.round.(phase := Preparing, files := files, todo := files))
  }

  /** What preparing a path leaves out: the path itself, if it leads elsewhere. */
  function Passes(disk: Disk, f: FileId): set<FileId> {
    if Target(disk, f) == Some(f) then {} else {f}
  }

  /** The nodes of a file that are not waiting yet. */
  function NotQueued(queue: seq<Queued>, more: seq<Queued>): seq<Queued> {
    if more == [] then []
    else (if exists i :: 0 <= i < |queue| && queue[i].file == more[0].file && queue[i].node.id.key == more[0].node.id.key
          then [] else [more[0]]) + NotQueued(queue, more[1..])
  }

  /** The nodes that preparing the file `g` adds. Read a second time in a round, through a link, a file adds
      only nodes it did not have before. */
  function NewNodes(r: Round, g: FileId, part: Part): seq<Queued>
    requires r.Active?
  {
    if g in r.prepared then NotQueued(r.nodes, Embeddable(g, part.nodes)) else Embeddable(g, part.nodes)
  }

  /** Preparing one path: the file it leads to is read and parsed and its current vectors are collected. */
  function AfterPrepare(s: System, f: FileId): System
    requires s.live.Up? && s.round.Active?
  {
    match Target(s.disk, f)
    case None => s.(round := s.round.(todo := s.round.todo - {f}, passed := s.round.passed + {f}))
    case Some(g) =>
      var part := Read(At(s.disk, g));
      s.(live := s.live.(tableOpen := s.live.tableOpen || HasText(At(s.disk, g))),
         round := s.round.(
           todo := s.round.todo - {f},
           passed := s.round.passed + Passes(s.disk, f),
           prepared := s.round.prepared[g := part],
           known := s.round.known + KnownVectors(Covered(LiveTable(s), g)),
           nodes := s.round.nodes + NewNodes(s.round, g, part)))
  }

  /** The vector table of the live index's generation. */
  function LiveTable(s: System): Table {
    if s.live.Up? && s.live.generation in s.tables then s.tables[s.live.generation] else []
  }

  predicate CommitEnabled(s: System, c: CommitStep) {
    match c
    case TakeLock => RoundIn(s, Embedded) && s.lock == Free
    case CheckPointer => RoundIn(s, Locked)
    case DeleteRows(f) => RoundIn(s, Deleting) && f in s.round.todo && s.live.generation in s.tables
    case SkipRows(f) => RoundIn(s, Deleting) && f in s.round.todo && !s.live.tableOpen
    case WriteBatch =>
      Committing(s) && s.round.todo == {} && s.round.batches != [] && s.live.generation in s.tables
    case SwapGraph => Committing(s) && s.round.todo == {} && s.round.batches == []
    case FailRound => s.live.Up? && s.round.Active?
  }

  function CommitNext(s: System, c: CommitStep): System
    requires CommitEnabled(s, c)
  {
    match c
    case TakeLock => s.(lock := ByRound, round := s.round.(phase := Locked))
    case CheckPointer => AfterCheck(s)
    case DeleteRows(f) =>
      s.(tables := s.tables[s.live.generation := Without(s.tables[s.live.generation], f)],
         live := s.live.(tableOpen := true),
         round := s.round.(todo := s.round.todo - {f}, kept := KeptWithout(s.round.kept, f)))
    case SkipRows(f) =>
      s.(round := s.round.(todo := s.round.todo - {f}, kept := s.round.kept[f := Owned(LiveTable(s), f)]))
    case WriteBatch =>
      s.(tables := s.tables[s.live.generation := s.tables[s.live.generation] + s.round.batches[0]],
         live := s.live.(tableOpen := true),
         round := s.round.(phase := Writing, batches := s.round.batches[1..]))
    case SwapGraph => AfterSwap(s)
    case FailRound => EndRound(s)
  }

  function KeptWithout(kept: map<FileId, seq<Row>>, f: FileId): map<FileId, seq<Row>> {
    map g | g in kept :: Without(kept[g], f)
  }

  function Released(lock: Holder, holder: Holder): Holder {
    if lock == holder then Free else lock
  }

  function EndRound(s: System): System {
    s.(round := Idle, lock := Released(s.lock, ByRound))
  }

  /** With the lock held: stop if another generation is active, otherwise start replacing rows. */
  function AfterCheck(s: System): System
    requires s.live.Up? && s.round.Active?
  {
    if s.pointer != s.live.generation then
      EndRound(s.(live := s.live.(superseded := true)))
    else
      s.(live := s.live.(dirty := s.round.files),
         round := s.round.(phase := Deleting, todo := s.round.prepared.Keys))
  }

  function AfterSwap(s: System): System
    requires s.live.Up? && s.round.Active?
  {
    EndRound(s.(live := s.live.(
      graph := s.live.graph + s.round.prepared,
      dirty := s.round.retry,
      manifest := RestoreRetryFiles(s.live.manifest, s.round.next, s.round.retry),
      version := s.live.version + 1,
      needsRescan := false)))
  }

  /** `CheckCurrent` reads the pointer twice: before the temporary files are written, and again
      once the lock is held. */
  predicate SaveEnabled(s: System, p: SaveStep) {
    match p
    case Snapshot =>
      s.live.Up? && s.round.Idle? && s.persist.NoPersist? && !s.live.superseded
      && s.live.version != s.live.persistedVersion
    case WaitLock => SaveIn(s, Waiting) && s.lock == Free
    case CheckCurrent => SaveIn(s, Snapped) || (SaveIn(s, Waiting) && s.lock == ByPersist)
    case RenameGraph => SaveIn(s, Checked) && s.live.generation in s.stored
    case RenameManifest => SaveIn(s, GraphRenamed) && s.live.generation in s.stored
    case FailSave => s.live.Up? && s.persist.Persisting? && s.persist.stage != Refused
    case EndSave => s.round.Idle? && (SaveIn(s, Written) || SaveIn(s, Refused))
  }

  function SaveNext(s: System, p: SaveStep): System
    requires SaveEnabled(s, p)
  {
    match p
    case Snapshot => s.(persist := Persisting(Snapped, s.live.graph, s.live.manifest, s.live.version))
    case WaitLock => s.(lock := ByPersist)
    case CheckCurrent => AfterCheckCurrent(s)
    case RenameGraph =>
      s.(stored := s.stored[s.live.generation := s.stored[s.live.generation].(graph := s.persist.graph)],
         persist := s.persist.(stage := GraphRenamed))
    case RenameManifest =>
      s.(stored := s.stored[s.live.generation := s.stored[s.live.generation].(manifest := s.persist.manifest)],
         persist := s.persist.(stage := Written), lock := Released(s.lock, ByPersist))
    case FailSave => s.(persist := NoPersist, lock := Released(s.lock, ByPersist))
    case EndSave => AfterEndSave(s)
  }

  function AfterCheckCurrent(s: System): System
    requires s.live.Up? && s.persist.Persisting?
  {
    if s.pointer != s.live.generation then
      s.(persist := s.persist.(stage := Refused), lock := Released(s.lock, ByPersist))
    else if s.persist.stage == Snapped then s.(persist := s.persist.(stage := Waiting))
    else s.(persist := s.persist.(stage := Checked))
  }

  function AfterEndSave(s: System): System
    requires s.live.Up? && s.persist.Persisting?
  {
    s.(persist := NoPersist,
       live := if s.persist.stage == Refused then s.live.(superseded := true)
               else s.live.(persistedVersion :=
                 if s.live.persistedVersion < s.persist.version then s.persist.version
                 else s.live.persistedVersion))
  }

  predicate ProcessEnabled(s: System, p: ProcessStep) {
    match p
    case Crash => s.live.Up?
    case LoadManifest => s.loader.NoLoad? && s.pointer in s.stored
    case LoadGraph => s.loader.GotManifest? && s.loader.generation in s.stored
    case OpenTable => s.live.Up?
  }

  /** A load that ends while the live index is running is another process's read. */
  function ProcessNext(s: System, p: ProcessStep): System
    requires ProcessEnabled(s, p)
  {
    match p
    case Crash =>
      s.(live := Down, round := Idle, persist := NoPersist,
         lock := if s.lock == ByOther then ByOther else Free)
    case LoadManifest => s.(loader := GotManifest(s.pointer, s.stored[s.pointer].manifest))
    case LoadGraph =>
      if s.live.Up? then s.(loader := NoLoad)
      else s.(loader := NoLoad,
              live := Up(s.loader.generation, s.stored[s.loader.generation].graph, s.loader.manifest,
                         0, 0, true, false, {}, false, false))
    case OpenTable => s.(live := s.live.(tableOpen := true))
  }

  predicate Enabled(s: System, a: Action) {
    match a
    case Edits(e) => EditEnabled(s, e)
    case Others(o) => OtherEnabled(s, o)
    case Refreshes(r) => ReadEnabled(s, r)
    case Commits(c) => CommitEnabled(s, c)
    case Saves(p) => SaveEnabled(s, p)
    case Lives(p) => ProcessEnabled(s, p)
  }

  function Next(s: System, a: Action): System
    requires Enabled(s, a)
  {
    match a
    case Edits(e) => EditNext(s, e)
    case Others(o) => OtherNext(s, o)
    case Refreshes(r) => ReadNext(s, r)
    case Commits(c) => CommitNext(s, c)
    case Saves(p) => SaveNext(s, p)
    case Lives(p) => ProcessNext(s, p)
  }

  // ---------------------------------------------------------------- runs

  ghost predicate Runs(s: System, actions: seq<Action>)
    decreases |actions|
  {
    actions == [] || (Enabled(s, actions[0]) && Runs(Next(s, actions[0]), actions[1..]))
  }

  function Final(s: System, actions: seq<Action>): System
    requires Runs(s, actions)
    decreases |actions|
  {
    if actions == [] then s else Final(Next(s, actions[0]), actions[1..])
  }

  /** Runs can be continued at their end. */
  lemma {:induction false} RunsConcat(s: System, a: seq<Action>, b: seq<Action>)
    requires Runs(s, a) && Runs(Final(s, a), b)
    ensures Runs(s, a + b) && Final(s, a + b) == Final(Final(s, a), b)
    decreases |a|
  {
    if a == [] {
      assert a + b == b;
    } else {
      assert (a + b)[1..] == a[1..] + b;
      RunsConcat(Next(s, a[0]), a[1..], b);
    }
  }

  lemma RunsSnoc(s: System, actions: seq<Action>, a: Action)
    requires Runs(s, actions) && Enabled(Final(s, actions), a)
    ensures Runs(s, actions + [a]) && Final(s, actions + [a]) == Next(Final(s, actions), a)
  {
    var t := Final(s, actions);
    assert [a][1..] == [];
    assert Runs(Next(t, a), []) && Final(Next(t, a), []) == Next(t, a);
    assert Runs(t, [a]) && Final(t, [a]) == Next(t, a);
    RunsConcat(s, actions, [a]);
  }
}
