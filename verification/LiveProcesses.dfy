/** Any number of processes, each with a live index of its own, over the same files: the vector tables,
    the graphs, the manifests, the activation pointer and its lock are shared (core/src/live.rs). */
module LiveProcesses {
  import opened VectorRows
  import opened LiveModel
  import opened LiveShape
  import opened LiveFencing

  type Process = nat

  /** What a process has to itself: it may have loaded no live index yet. */
  datatype Own = Own(live: Live, round: Round, persist: Persist, loader: Loader)

  /** The holder of the activation lock; `Activator` is a process that activates a generation. */
  datatype Owner = Nobody | RoundOf(process: Process) | PersistOf(process: Process) | Activator

  datatype World = World(
    disk: Disk, clock: Stamp,
    pointer: Generation, next: Generation, owner: Owner,
    stored: map<Generation, Stored>, tables: map<Generation, Table>,
    own: map<Process, Own>)

  datatype Event =
    | Edited(edit: Edit)
    | Outside(other: OtherStep)
    | By(process: Process, action: Action)

  function SeenBy(owner: Owner, i: Process): Holder {
    match owner
    case Nobody => Free
    case RoundOf(j) => if j == i then ByRound else ByOther
    case PersistOf(j) => if j == i then ByPersist else ByOther
    case Activator => ByOther
  }

  /** The system as process `i` sees it: its own live index among other processes. */
  function View(w: World, i: Process): System
    requires i in w.own
  {
    System(w.disk, w.clock, w.pointer, w.next, SeenBy(w.owner, i), w.stored, w.tables,
           w.own[i].live, w.own[i].round, w.own[i].persist, w.own[i].loader)
  }

  /** The system as seen from outside all live indexes. */
  function Bare(w: World): System {
    System(w.disk, w.clock, w.pointer, w.next,
           if w.owner == Nobody then Free else ByOther, w.stored, w.tables, Down, Idle, NoPersist, NoLoad)
  }

  /** Edits and activations come from outside; only an activating process activates or unlocks. */
  predicate Possible(w: World, e: Event) {
    match e
    case Edited(d) => EditEnabled(Bare(w), d)
    case Outside(o) => OtherEnabled(Bare(w), o) && (!o.Lock? ==> w.owner == Activator)
    case By(i, a) => i in w.own && !a.Edits? && !a.Others? && Enabled(View(w, i), a)
  }

  function OwnerAfter(owner: Owner, i: Process, lock: Holder): Owner {
    match lock
    case Free => Nobody
    case ByRound => RoundOf(i)
    case ByPersist => PersistOf(i)
    case ByOther => owner
  }

  function After(w: World, e: Event): World
    requires Possible(w, e)
  {
    match e
    case Edited(d) =>
      var s := EditNext(Bare(w), d);
      w.(disk := s.disk, clock := s.clock)
    case Outside(o) =>
      var s := OtherNext(Bare(w), o);
      w.(pointer := s.pointer, next := s.next, owner := if o.Unlock? then Nobody else Activator,
         stored := s.stored, tables := s.tables)
    case By(i, a) =>
      var s := Next(View(w, i), a);
      w.(owner := OwnerAfter(w.owner, i, s.lock), stored := s.stored, tables := s.tables,
         own := w.own[i := Own(s.live, s.round, s.persist, s.loader)])
  }

  ghost predicate Happens(w: World, events: seq<Event>)
    decreases |events|
  {
    events == [] || (Possible(w, events[0]) && Happens(After(w, events[0]), events[1..]))
  }

  function End(w: World, events: seq<Event>): World
    requires Happens(w, events)
    decreases |events|
  {
    if events == [] then w else End(After(w, events[0]), events[1..])
  }

  /** Every process sees a consistent system. */
  ghost predicate AllFenced(w: World) {
    forall i :: i in w.own ==> Fenced(View(w, i))
  }

  /** Before any live index is loaded. */
  lemma StartIsFenced(w: World)
    requires forall i :: i in w.own ==> w.own[i] == Own(Down, Idle, NoPersist, NoLoad)
    requires w.owner in {Nobody, Activator} && w.pointer in w.stored && w.tables.Keys == w.stored.Keys
    requires forall g :: g in w.stored ==> g < w.next
    ensures AllFenced(w)
  {
  }

  // ---------------------------------------------------------------- one step of one process

  lemma FencedRead(s: System, r: ReadStep)
    requires Fenced(s) && ReadEnabled(s, r)
    ensures Fenced(ReadNext(s, r))
  {
    if r.ScanDone? { ScanDoneLocking(s); }
  }

  lemma FencedCommit(s: System, c: CommitStep)
    requires Fenced(s) && CommitEnabled(s, c)
    ensures Fenced(CommitNext(s, c))
  {
    hide Generations, Locking, CommitNext, CommitEnabled;
    CommitKeepsGenerations(s, c);
    CommitKeepsLocking(s, c);
  }

  lemma FencedSave(s: System, v: SaveStep)
    requires Fenced(s) && SaveEnabled(s, v)
    ensures Fenced(SaveNext(s, v))
  {
    assert SaveNext(s, v).stored.Keys == s.stored.Keys;
  }

  lemma FencedProcess(s: System, p: ProcessStep)
    requires Fenced(s) && ProcessEnabled(s, p)
    ensures Fenced(ProcessNext(s, p))
  {
  }

  /** What a step of a live index changes of what all share. */
  ghost predicate Shares(s: System, t: System) {
    && t.disk == s.disk && t.clock == s.clock && t.pointer == s.pointer && t.next == s.next
    && t.stored.Keys == s.stored.Keys && t.tables.Keys == s.tables.Keys
    && (s.lock == ByOther ==> t.lock == ByOther) && (t.lock == ByOther ==> s.lock == ByOther)
  }

  lemma SharesRead(s: System, r: ReadStep)
    requires ReadEnabled(s, r)
    ensures Shares(s, ReadNext(s, r))
  {
  }

  lemma SharesCommit(s: System, c: CommitStep)
    requires CommitEnabled(s, c) && Fenced(s)
    ensures Shares(s, CommitNext(s, c))
  {
    assert CommitNext(s, c).tables.Keys == s.tables.Keys;
  }

  lemma SharesSave(s: System, v: SaveStep)
    requires SaveEnabled(s, v) && Fenced(s)
    ensures Shares(s, SaveNext(s, v))
  {
    assert SaveNext(s, v).stored.Keys == s.stored.Keys;
  }

  lemma SharesProcess(s: System, p: ProcessStep)
    requires ProcessEnabled(s, p)
    ensures Shares(s, ProcessNext(s, p))
  {
  }

  lemma OwnStep(s: System, a: Action)
    requires Fenced(s) && Enabled(s, a) && !a.Edits? && !a.Others?
    ensures Fenced(Next(s, a)) && Shares(s, Next(s, a))
  {
    hide Fenced, Shares, ReadEnabled, CommitEnabled, SaveEnabled, ProcessEnabled;
    hide ReadNext, CommitNext, SaveNext, ProcessNext;
    match a
    case Refreshes(r) => FencedRead(s, r); SharesRead(s, r);
    case Commits(c) => FencedCommit(s, c); SharesCommit(s, c);
    case Saves(v) => FencedSave(s, v); SharesSave(s, v);
    case Lives(p) => FencedProcess(s, p); SharesProcess(s, p);
  }

  // ---------------------------------------------------------------- what the other processes see of it

  /** The process has the same for itself, and others took or gave back the lock at most. */
  ghost predicate Beside(s: System, t: System) {
    && t.live == s.live && t.round == s.round && t.persist == s.persist && t.loader == s.loader
    && t.pointer == s.pointer && t.next == s.next
    && t.stored.Keys == s.stored.Keys && t.tables.Keys == s.tables.Keys
    && (t.lock == s.lock || (s.lock in {Free, ByOther} && t.lock in {Free, ByOther}))
  }

  lemma BesideIsFenced(s: System, t: System)
    requires Fenced(s) && Beside(s, t)
    ensures Fenced(t)
  {
  }

  /** A live index's step is, for every other process, something others do. */
  lemma SeenByOthers(w: World, i: Process, a: Action, j: Process)
    requires AllFenced(w) && Possible(w, By(i, a)) && j in w.own && j != i
    ensures Beside(View(w, j), View(After(w, By(i, a)), j))
  {
    hide Enabled, Next, Fenced;
    OwnStep(View(w, i), a);
  }

  lemma SeenByItself(w: World, i: Process, a: Action)
    requires AllFenced(w) && Possible(w, By(i, a))
    ensures View(After(w, By(i, a)), i) == Next(View(w, i), a)
  {
    hide Enabled, Next, Fenced;
    OwnStep(View(w, i), a);
  }

  lemma ActivationIsFenced(s: System, t: System)
    requires Fenced(s) && s.lock == t.lock == ByOther
    requires t.live == s.live && t.round == s.round && t.persist == s.persist && t.loader == s.loader
    requires t.pointer == s.next && t.next == s.next + 1
    requires t.stored.Keys == s.stored.Keys + {s.next} && t.tables.Keys == s.tables.Keys + {s.next}
    ensures Fenced(t)
  {
  }

  /** Whatever happens, every process goes on seeing a consistent system. */
  lemma FencedEvent(w: World, e: Event)
    requires AllFenced(w) && Possible(w, e)
    ensures AllFenced(After(w, e))
  {
    var w' := After(w, e);
    forall j | j in w'.own ensures Fenced(View(w', j)) {
      match e {
        case By(i, a) =>
          if i == j {
            SeenByItself(w, i, a);
            OwnStep(View(w, i), a);
          } else {
            SeenByOthers(w, i, a, j);
            BesideIsFenced(View(w, j), View(w', j));
          }
        case Edited(_) => BesideIsFenced(View(w, j), View(w', j));
        case Outside(o) => OutsideIsFenced(w, o, j);
      }
    }
  }

  lemma OutsideIsFenced(w: World, o: OtherStep, j: Process)
    requires AllFenced(w) && Possible(w, Outside(o)) && j in w.own
    ensures Fenced(View(After(w, Outside(o)), j))
  {
    assert Fenced(View(w, j));
    hide Fenced, AllFit;
    var s, t := View(w, j), View(After(w, Outside(o)), j);
    if o.Activate? {
      assert t.stored.Keys == s.stored.Keys + {s.next};
      assert t.tables.Keys == s.tables.Keys + {s.next};
      ActivationIsFenced(s, t);
    } else {
      BesideIsFenced(s, t);
    }
  }

  // ---------------------------------------------------------------- fencing among many

  ghost predicate SameFiles(w: World, w': World, g: Generation) {
    g in w.stored && g in w.tables && g in w'.stored && g in w'.tables
    && w'.stored[g] == w.stored[g] && w'.tables[g] == w.tables[g]
  }

  /** Whoever changes an existing generation is a live index of that generation, holds the lock for its
      round or its persist while no one else does, finds the generation active and is not superseded. */
  lemma OneWriter(w: World, e: Event, g: Generation)
    requires AllFenced(w) && Possible(w, e) && g in w.stored && g in w.tables && g < w.next
    ensures SameFiles(w, After(w, e), g)
         || (e.By? && w.owner == (if e.action.Commits? then RoundOf(e.process) else PersistOf(e.process))
             && w.own[e.process].live.Up? && !w.own[e.process].live.superseded
             && g == w.own[e.process].live.generation == w.pointer)
    ensures g in After(w, e).stored && g in After(w, e).tables
    ensures g < After(w, e).next && (w.pointer != g ==> After(w, e).pointer != g)
  {
    match e
    case By(i, a) => WritesAreFenced(View(w, i), a, g); OwnStep(View(w, i), a);
    case Outside(_) =>
    case Edited(_) =>
  }

  /** Once another generation is active, no process changes the files or the rows of the old one. */
  lemma {:induction false} RetiredForAll(w: World, events: seq<Event>, g: Generation)
    requires AllFenced(w) && Happens(w, events) && g in w.stored && g in w.tables && w.pointer != g && g < w.next
    ensures SameFiles(w, End(w, events), g) && End(w, events).pointer != g
    decreases |events|
  {
    if events != [] {
      FencedEvent(w, events[0]);
      OneWriter(w, events[0], g);
      RetiredForAll(After(w, events[0]), events[1..], g);
    }
  }

  lemma SupersededEvent(w: World, e: Event, i: Process)
    requires AllFenced(w) && Possible(w, e) && i in w.own && w.own[i].live.Up? && w.own[i].live.superseded
    requires e != By(i, Lives(Crash))
    ensures i in After(w, e).own && StaysSuperseded(View(w, i), View(After(w, e), i))
  {
    match e
    case By(j, a) =>
      if i == j {
        SupersededStep(View(w, i), a);
        SeenByItself(w, i, a);
      }
    case Outside(_) =>
    case Edited(_) =>
  }

  /** A superseded live index stays superseded among any number of running ones, and nothing of the
      generation it worked on changes any more. */
  lemma {:induction false} SupersededForAll(w: World, events: seq<Event>, i: Process)
    requires AllFenced(w) && Happens(w, events) && i in w.own && w.own[i].live.Up? && w.own[i].live.superseded
    requires By(i, Lives(Crash)) !in events
    ensures i in End(w, events).own && StaysSuperseded(View(w, i), View(End(w, events), i))
    ensures SameFiles(w, End(w, events), w.own[i].live.generation)
    decreases |events|
  {
    assert Fenced(View(w, i));
    RetiredForAll(w, events, w.own[i].live.generation);
    if events != [] {
      FencedEvent(w, events[0]);
      SupersededEvent(w, events[0], i);
      SupersededForAll(After(w, events[0]), events[1..], i);
    }
  }
}
