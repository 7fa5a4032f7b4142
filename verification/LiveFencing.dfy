/** Fencing: a live index writes only into the active generation. */
module LiveFencing {
  import opened LiveModel
  import opened LiveShape

  /** The vector rows and the graph and manifest files of a generation are those of `s`. */
  ghost predicate Untouched(s: System, t: System, g: Generation) {
    g in s.stored && g in s.tables && g in t.stored && g in t.tables
    && t.stored[g] == s.stored[g] && t.tables[g] == s.tables[g]
  }

  /** All that fencing needs of the state; it does not depend on what is stored for a generation. */
  ghost predicate Fenced(s: System) {
    Generations(s) && Locking(s)
  }

  lemma CommitIsFenced(s: System, c: CommitStep, g: Generation)
    requires Fenced(s) && CommitEnabled(s, c) && g in s.stored
    ensures Untouched(s, CommitNext(s, c), g)
         || (g == s.live.generation == s.pointer && s.lock == ByRound && !s.live.superseded)
    ensures CommitNext(s, c).stored == s.stored && CommitNext(s, c).pointer == s.pointer
  {
  }

  lemma SaveIsFenced(s: System, v: SaveStep, g: Generation)
    requires Fenced(s) && SaveEnabled(s, v) && g in s.stored
    ensures Untouched(s, SaveNext(s, v), g)
         || (g == s.live.generation == s.pointer && s.lock == ByPersist && !s.live.superseded)
    ensures SaveNext(s, v).stored.Keys == s.stored.Keys && SaveNext(s, v).pointer == s.pointer
  {
  }

  lemma OtherIsFenced(s: System, o: OtherStep, g: Generation)
    requires Fenced(s) && OtherEnabled(s, o) && g in s.stored
    ensures Untouched(s, OtherNext(s, o), g)
    ensures s.pointer != g ==> OtherNext(s, o).pointer != g
  {
  }

  lemma RestIsFenced(s: System, a: Action)
    requires Enabled(s, a) && (a.Edits? || a.Refreshes? || a.Lives?)
    ensures Next(s, a).stored == s.stored && Next(s, a).tables == s.tables && Next(s, a).pointer == s.pointer
  {
    hide EditNext, ReadNext, ProcessNext, EditEnabled, ReadEnabled, ProcessEnabled;
    match a
    case Edits(d) => EditKeeps(s, d);
    case Refreshes(r) => ReadKeeps(s, r);
    case Lives(p) => ProcessKeeps(s, p);
  }

  /** Whatever step changes an existing generation is a step of the live index, taken while it holds
      the lock and that generation is active, and the live index is not superseded. */
  lemma WritesAreFenced(s: System, a: Action, g: Generation)
    requires Fenced(s) && Enabled(s, a) && g in s.stored
    ensures Untouched(s, Next(s, a), g)
         || ((a.Commits? || a.Saves?) && s.live.Up? && g == s.live.generation == s.pointer
             && s.lock == (if a.Commits? then ByRound else ByPersist) && !s.live.superseded)
    ensures g in Next(s, a).stored && (s.pointer != g ==> Next(s, a).pointer != g)
  {
    match a
    case Commits(c) => CommitIsFenced(s, c, g);
    case Saves(v) => SaveIsFenced(s, v, g);
    case Others(o) => OtherIsFenced(s, o, g);
    case _ => RestIsFenced(s, a);
  }

  /** A generation that is no longer active is frozen: no run of any processes changes it again. */
  lemma {:induction false} RetiredGenerationIsFrozen(s: System, actions: seq<Action>, g: Generation)
    requires Shape(s) && Runs(s, actions) && g in s.stored && s.pointer != g
    ensures Untouched(s, Final(s, actions), g) && Final(s, actions).pointer != g
    decreases |actions|
  {
    if actions != [] {
      ShapeStep(s, actions[0]);
      WritesAreFenced(s, actions[0], g);
      RetiredGenerationIsFrozen(Next(s, actions[0]), actions[1..], g);
    }
  }

  ghost predicate NoRestart(actions: seq<Action>) {
    forall i :: 0 <= i < |actions| ==> actions[i] != Lives(Crash)
  }

  /** `t` is a later state of the live index of `s`, which stays superseded and unchanged. */
  ghost predicate StaysSuperseded(s: System, t: System) {
    && s.live.Up? && t.live.Up? && t.live.superseded && t.live.generation == s.live.generation
    && t.live.graph == s.live.graph && t.live.manifest == s.live.manifest
  }

  lemma SavingWhenSuperseded(s: System, v: SaveStep)
    requires SaveEnabled(s, v) && s.live.superseded
    ensures StaysSuperseded(s, SaveNext(s, v))
  {
  }

  lemma NoRoundWhenSuperseded(s: System, a: Action)
    requires Fenced(s) && s.live.Up? && s.live.superseded && Enabled(s, a)
    ensures !a.Refreshes? && !a.Commits?
  {
  }

  /** Only a crash ends a superseded live index. */
  lemma SupersededStep(s: System, a: Action)
    requires Fenced(s) && Enabled(s, a) && s.live.Up? && s.live.superseded && a != Lives(Crash)
    ensures StaysSuperseded(s, Next(s, a))
  {
    NoRoundWhenSuperseded(s, a);
    if a.Saves? {
      SavingWhenSuperseded(s, a.save);
    }
  }

  /** `superseded` is absorbing, and from then on nothing that exists is written any more by the live
      index: its graph, its manifest and every artifact of its generation stay as they are. */
  lemma {:induction false} SupersededWritesNothing(s: System, actions: seq<Action>)
    requires Shape(s) && s.live.Up? && s.live.superseded
    requires Runs(s, actions) && NoRestart(actions)
    ensures var t := Final(s, actions);
      StaysSuperseded(s, t) && Untouched(s, t, s.live.generation)
    decreases |actions|
  {
    RetiredGenerationIsFrozen(s, actions, s.live.generation);
    if actions != [] {
      ShapeStep(s, actions[0]);
      SupersededStep(s, actions[0]);
      assert forall i :: 0 <= i < |actions[1..]| ==> actions[1..][i] == actions[i + 1];
      SupersededWritesNothing(Next(s, actions[0]), actions[1..]);
    }
  }

  /** When the persisted version is the current one, the stored files are the live graph and manifest. */
  lemma {:induction false} PersistedVersionIsStored(s: System, actions: seq<Action>)
    requires Shape(s) && Runs(s, actions)
    requires Final(s, actions).live.Up?
    requires 0 < Final(s, actions).live.persistedVersion == Final(s, actions).live.version
    ensures var t := Final(s, actions);
      t.live.generation in t.stored && t.stored[t.live.generation] == Stored(t.live.graph, t.live.manifest)
    decreases |actions|
  {
    if actions != [] {
      ShapeStep(s, actions[0]);
      PersistedVersionIsStored(Next(s, actions[0]), actions[1..]);
    }
  }
}
