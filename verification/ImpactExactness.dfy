/** What the impact walk finds (core/src/engine.rs, `impact_of_change`): exactly the nodes that reach the file
    in one to four dependencies, each at its shortest distance. */
module ImpactExactness {
  import opened Basics
  import opened CodeModel
  import opened CallChain
  import opened Impact

  /** An edge other than containment leads from `v` to `u`. */
  ghost predicate DependsOn(g: Graph, v: Index, u: Index) {
    v < |g.outgoing| && u < |g.outgoing|
    && exists kind :: Arc(u, kind) in g.outgoing[v] && kind != Contains
  }

  /** A chain of dependencies from `v` to a node of the file. */
  ghost predicate Chain(g: Graph, own: set<Index>, v: Index, hops: nat)
    decreases hops
  {
    if hops == 0 then v in own
    else exists u :: DependsOn(g, v, u) && Chain(g, own, u, hops - 1)
  }

  /** What an entry says of an edge: the three kinds of call are told apart, and so are sure and possible imports. */
  lemma RelationTellsKind(kind: EdgeKind, other: EdgeKind)
    requires ImpactRelation(kind) == ImpactRelation(other)
    ensures kind == other
  {
  }

  /** The entry names an edge that makes its node depend on `via`. */
  ghost predicate Explained(g: Graph, a: Affected) {
    a.node < |g.outgoing| && a.via < |g.outgoing|
    && exists kind :: Arc(a.via, kind) in g.outgoing[a.node] && ImpactRelation(kind) == Some(a.relation)
  }

  ghost predicate Labelled(results: seq<Affected>, v: Index, hops: nat) {
    exists i :: 0 <= i < |results| && results[i].node == v && results[i].distance <= hops
  }

  ghost predicate Has(results: seq<Affected>, v: Index) {
    exists i :: 0 <= i < |results| && results[i].node == v
  }

  ghost predicate InReach(g: Graph, own: set<Index>, v: Index) {
    exists hops :: 1 <= hops <= 4 && Chain(g, own, v, hops)
  }

  // ---------------------------------------------------------------- the state of the walk

  /** The depth and the parent of every visited node, and the nodes whose dependents are all noted. */
  datatype Trace = Trace(depth: map<Index, nat>, parent: map<Index, Index>, expanded: set<Index>)

  ghost predicate Extends(s: Trace, t: Trace) {
    s.expanded == t.expanded && forall v :: v in s.depth ==> v in t.depth && t.depth[v] == s.depth[v]
  }

  /** Every visited node outside the file has a parent it depends on, one step closer to the file. */
  ghost predicate Visits(g: Graph, own: set<Index>, w: Walk, s: Trace) {
    && s.depth.Keys == w.visited && own <= w.visited && s.parent.Keys == w.visited - own
    && (forall v :: v in s.depth ==> v < |g.outgoing| && s.depth[v] <= MAX_IMPACT_DEPTH)
    && (forall v :: v in own && v in s.depth ==> s.depth[v] == 0)
    && (forall v {:trigger s.parent[v]} :: v in s.parent ==>
          v in w.impacted && s.parent[v] in s.depth && DependsOn(g, v, s.parent[v])
          && s.depth[v] == s.depth[s.parent[v]] + 1)
  }

  /** An entry is a node outside the file, one step behind the visited node its edge leads to. */
  ghost predicate Proper(g: Graph, own: set<Index>, s: Trace, a: Affected) {
    a.node !in own && a.via in s.depth && a.distance == s.depth[a.via] + 1 && Explained(g, a)
  }

  ghost predicate Ordered(w: Walk) {
    && (forall i, j :: 0 <= i < j < |w.results| ==>
          w.results[i].node != w.results[j].node && w.results[i].distance <= w.results[j].distance)
    && (forall i :: 0 <= i < |w.results| ==> w.results[i].node in w.impacted)
    && (forall i :: 0 <= i < |w.results| && w.queue != [] ==> w.results[i].distance <= w.queue[0].1 + 1)
    && forall v :: v in w.impacted ==> Has(w.results, v)
  }

  ghost predicate AllProper(g: Graph, own: set<Index>, w: Walk, s: Trace) {
    forall i :: 0 <= i < |w.results| ==> Proper(g, own, s, w.results[i])
  }

  /** A dependent of a node at depth `at` is in the list, and visited if the walk goes on from there. */
  ghost predicate Noted(own: set<Index>, w: Walk, s: Trace, v: Index, at: nat) {
    v !in own ==>
      Labelled(w.results, v, at + 1) && (at < MAX_IMPACT_DEPTH ==> v in s.depth && s.depth[v] <= at + 1)
  }

  ghost predicate AllNoted(g: Graph, own: set<Index>, w: Walk, s: Trace) {
    forall u, v :: u in s.expanded && u in s.depth && DependsOn(g, v, u) ==> Noted(own, w, s, v, s.depth[u])
  }

  ghost predicate Walking(g: Graph, own: set<Index>, w: Walk, s: Trace) {
    Queued(w.queue, s.depth, s.expanded) && Visits(g, own, w, s) && Ordered(w) && AllProper(g, own, w, s)
    && AllNoted(g, own, w, s)
  }

  /** The walk with the node it is working on still at the head of its queue. */
  function WithHead(node: Index, at: nat, w: Walk): Walk {
    w.(queue := [(node, at)] + w.queue)
  }

  lemma DependsOnIncoming(g: Graph, v: Index, u: Index)
    requires Sound(g) && DependsOn(g, v, u)
    ensures exists k :: 0 <= k < |g.incoming[u]| && g.incoming[u][k].target == v
              && ImpactRelation(g.incoming[u][k].kind).Some?
  {
    var kind :| Arc(u, kind) in g.outgoing[v] && kind != Contains;
    assert Arc(v, kind) in g.incoming[u];
  }

  // ---------------------------------------------------------------- one edge

  lemma StaysNoted(own: set<Index>, w: Walk, t: Walk, s: Trace, s': Trace, v: Index, at: nat)
    requires Noted(own, w, s, v, at) && w.results <= t.results && Extends(s, s')
    ensures Noted(own, t, s', v, at)
  {
    if v !in own {
      var i :| 0 <= i < |w.results| && w.results[i].node == v && w.results[i].distance <= at + 1;
      assert t.results[i] == w.results[i];
    }
  }

  /** Noted dependents stay noted while lists grow. */
  lemma StayNoted(g: Graph, own: set<Index>, w: Walk, t: Walk, s: Trace, s': Trace)
    requires AllNoted(g, own, w, s) && w.results <= t.results && s.expanded <= s.depth.Keys && Extends(s, s')
    ensures AllNoted(g, own, t, s')
  {
    forall u, v | u in s'.expanded && u in s'.depth && DependsOn(g, v, u) ensures Noted(own, t, s', v, s'.depth[u]) {
      StaysNoted(own, w, t, s, s', v, s.depth[u]);
    }
  }

  lemma ListOrdered(w: Walk, t: Walk, a: Affected)
    requires Ordered(w) && a.node !in w.impacted && w.queue != [] && a.distance == w.queue[0].1 + 1
    requires t == w.(impacted := w.impacted + {a.node}, results := w.results + [a])
    ensures Ordered(t)
  {
    assert t.results[|w.results|] == a;
    forall u | u in t.impacted ensures Has(t.results, u) {
      if u != a.node {
        var i :| 0 <= i < |w.results| && w.results[i].node == u;
        assert t.results[i].node == u;
      }
    }
  }

  lemma ListVisits(g: Graph, own: set<Index>, w: Walk, t: Walk, s: Trace)
    requires Visits(g, own, w, s) && w.visited == t.visited && w.impacted <= t.impacted
    ensures Visits(g, own, t, s)
  {
  }

  lemma ListKeeps(g: Graph, own: set<Index>, node: Index, at: nat, v: Index, relation: string, w: Walk, s: Trace)
    requires Walking(g, own, WithHead(node, at, w), s)
    requires v !in own && Explained(g, Affected(v, node, relation, at + 1))
    ensures Walking(g, own, WithHead(node, at, List(node, at, v, relation, w)), s)
    ensures v in List(node, at, v, relation, w).impacted
    ensures Labelled(List(node, at, v, relation, w).results, v, at + 1)
  {
    var head, a := WithHead(node, at, w), Affected(v, node, relation, at + 1);
    var t := WithHead(node, at, List(node, at, v, relation, w));
    assert head.queue[0] == (node, at) && s.depth[node] == at;
    if v in w.impacted {
      assert Has(head.results, v);
      var i :| 0 <= i < |head.results| && head.results[i].node == v;
      assert w.results[i].node == v && w.results[i].distance <= at + 1;
    } else {
      ListOrdered(head, t, a);
      ListVisits(g, own, head, t, s);
      StayNoted(g, own, head, t, s, s);
      assert t.results[|w.results|] == a;
    }
  }

  /** From `w` to `t`, the node `v` joins the queue as a dependent of the node at its head. */
  ghost predicate Joins(g: Graph, own: set<Index>, w: Walk, t: Walk, s: Trace, s': Trace, v: Index) {
    && w.queue != [] && w.queue[0].1 < MAX_IMPACT_DEPTH
    && v !in own && v in w.impacted && v !in w.visited && DependsOn(g, v, w.queue[0].0)
    && t == w.(visited := w.visited + {v}, queue := w.queue + [(v, w.queue[0].1 + 1)])
    && s' == s.(depth := s.depth[v := w.queue[0].1 + 1], parent := s.parent[v := w.queue[0].0])
  }

  lemma JoinQueued(g: Graph, own: set<Index>, w: Walk, t: Walk, s: Trace, s': Trace, v: Index)
    requires Queued(w.queue, s.depth, s.expanded) && s.depth.Keys == w.visited && Joins(g, own, w, t, s, s', v)
    ensures Queued(t.queue, s'.depth, s'.expanded)
  {
    DiscoverQueued(w.queue, s.depth, s.expanded, v);
  }

  lemma JoinVisits(g: Graph, own: set<Index>, w: Walk, t: Walk, s: Trace, s': Trace, v: Index)
    requires Visits(g, own, w, s) && Joins(g, own, w, t, s, s', v)
    requires w.queue[0].0 in s.depth && s.depth[w.queue[0].0] == w.queue[0].1
    ensures Visits(g, own, t, s')
  {
  }

  lemma JoinProper(g: Graph, own: set<Index>, w: Walk, t: Walk, s: Trace, s': Trace, v: Index)
    requires AllProper(g, own, w, s) && s.depth.Keys == w.visited && Joins(g, own, w, t, s, s', v)
    ensures AllProper(g, own, t, s') && Extends(s, s')
  {
    forall i | 0 <= i < |t.results| ensures Proper(g, own, s', t.results[i]) {
      assert Proper(g, own, s, w.results[i]);
    }
  }

  lemma JoinNoted(g: Graph, own: set<Index>, w: Walk, t: Walk, s: Trace, s': Trace, v: Index)
    requires AllNoted(g, own, w, s) && s.depth.Keys == w.visited && s.expanded <= s.depth.Keys
    requires Joins(g, own, w, t, s, s', v)
    ensures AllNoted(g, own, t, s')
  {
    StayNoted(g, own, w, t, s, s');
  }

  lemma JoinOrdered(g: Graph, own: set<Index>, w: Walk, t: Walk, s: Trace, s': Trace, v: Index)
    requires Ordered(w) && Joins(g, own, w, t, s, s', v)
    ensures Ordered(t)
  {
    assert t.queue[0] == w.queue[0];
  }

  lemma VisitNew(g: Graph, own: set<Index>, w: Walk, t: Walk, s: Trace, s': Trace, v: Index)
    requires Walking(g, own, w, s) && Joins(g, own, w, t, s, s', v)
    ensures Walking(g, own, t, s') && Extends(s, s')
  {
    JoinQueued(g, own, w, t, s, s', v);
    JoinVisits(g, own, w, t, s, s', v);
    JoinProper(g, own, w, t, s, s', v);
    JoinNoted(g, own, w, t, s, s', v);
    JoinOrdered(g, own, w, t, s, s', v);
  }

  lemma VisitKeeps(g: Graph, own: set<Index>, node: Index, at: nat, v: Index, w: Walk, s: Trace)
    returns (s': Trace)
    requires Walking(g, own, WithHead(node, at, w), s)
    requires v !in own && v in w.impacted && DependsOn(g, v, node)
    ensures Walking(g, own, WithHead(node, at, Enqueue(at, v, w)), s') && Extends(s, s')
    ensures at < MAX_IMPACT_DEPTH ==> v in s'.depth && s'.depth[v] <= at + 1
  {
    var head, t := WithHead(node, at, w), WithHead(node, at, Enqueue(at, v, w));
    assert head.queue[0] == (node, at) && s.depth[node] == at;
    s' := s;
    if at < MAX_IMPACT_DEPTH {
      if v in w.visited {
        NoDeeper(head.queue, s.depth, s.expanded, v);
      } else {
        s' := s.(depth := s.depth[v := at + 1], parent := s.parent[v := node]);
        assert head.queue + [(v, at + 1)] == t.queue;
        VisitNew(g, own, head, t, s, s', v);
      }
    }
  }

  /** Nothing is visited deeper than one step past the head of the queue. */
  lemma NoDeeper(queue: seq<(Index, nat)>, depth: map<Index, nat>, expanded: set<Index>, v: Index)
    requires Queued(queue, depth, expanded) && queue != [] && v in depth
    ensures depth[v] <= queue[0].1 + 1
  {
    if v !in expanded {
      var i :| 0 <= i < |queue| && queue[i].0 == v;
    }
  }

  lemma FollowKeeps(g: Graph, own: set<Index>, node: Index, at: nat, arc: Arc, w: Walk, s: Trace)
    returns (s': Trace)
    requires Sound(g) && Walking(g, own, WithHead(node, at, w), s)
    requires node < |g.incoming| && arc in g.incoming[node]
    ensures Walking(g, own, WithHead(node, at, Follow(own, node, at, arc, w)), s') && Extends(s, s')
    ensures ImpactRelation(arc.kind).Some? ==> Noted(own, Follow(own, node, at, arc, w), s', arc.target, at)
  {
    var relation, v := ImpactRelation(arc.kind), arc.target;
    s' := s;
    if relation.Some? && v !in own {
      EdgeExplains(g, node, arc, at);
      var w1 := List(node, at, v, relation.value, w);
      ListKeeps(g, own, node, at, v, relation.value, w, s);
      s' := VisitKeeps(g, own, node, at, v, w1, s);
    }
  }

  lemma EdgeExplains(g: Graph, node: Index, arc: Arc, at: nat)
    requires Sound(g) && node < |g.incoming| && arc in g.incoming[node] && ImpactRelation(arc.kind).Some?
    ensures Explained(g, Affected(arc.target, node, ImpactRelation(arc.kind).value, at + 1))
    ensures DependsOn(g, arc.target, node)
  {
    var k :| 0 <= k < |g.incoming[node]| && g.incoming[node][k] == arc;
    assert Arc(arc.target, arc.kind) in g.incoming[node];
    assert Arc(node, arc.kind) in g.outgoing[arc.target];
  }

  // ---------------------------------------------------------------- one node

  /** The dependents of `node` from position `k` on are noted. */
  ghost predicate NotedFrom(g: Graph, own: set<Index>, node: Index, at: nat, k: nat, w: Walk, s: Trace)
    requires node < |g.incoming|
  {
    forall j :: k <= j < |g.incoming[node]| && ImpactRelation(g.incoming[node][j].kind).Some? ==>
      Noted(own, w, s, g.incoming[node][j].target, at)
  }

  lemma {:induction false} FollowAllKeeps(g: Graph, own: set<Index>, node: Index, at: nat, k: nat, w: Walk, s: Trace)
    returns (s': Trace)
    requires Sound(g) && Walking(g, own, WithHead(node, at, w), s)
    requires node < |g.incoming| && k <= |g.incoming[node]|
    ensures var t := Rest(own, node, at, g.incoming[node], k, w);
      Walking(g, own, WithHead(node, at, t), s') && Extends(s, s') && NotedFrom(g, own, node, at, k, t, s')
    decreases |g.incoming[node]| - k
  {
    var arcs := g.incoming[node];
    s' := s;
    if k < |arcs| {
      RestStep(own, node, at, arcs, k, w);
      var w1 := Follow(own, node, at, arcs[k], w);
      var s1 := FollowKeeps(g, own, node, at, arcs[k], w, s);
      s' := FollowAllKeeps(g, own, node, at, k + 1, w1, s1);
      if ImpactRelation(arcs[k].kind).Some? {
        StaysNoted(own, w1, Rest(own, node, at, arcs, k, w), s1, s', arcs[k].target, at);
      }
    }
  }

  lemma LeaveQueued(queue: seq<(Index, nat)>, depth: map<Index, nat>, expanded: set<Index>)
    requires Queued(queue, depth, expanded) && queue != []
    ensures Queued(queue[1..], depth, expanded + {queue[0].0})
  {
    forall u | u in depth && u !in expanded + {queue[0].0} ensures Waits(queue[1..], u) {
      var i :| 0 <= i < |queue| && queue[i].0 == u;
      assert queue[1..][i - 1].0 == u;
    }
  }

  lemma LeaveNoted(g: Graph, own: set<Index>, w: Walk, t: Walk, s: Trace, s': Trace, node: Index)
    requires AllNoted(g, own, w, s) && w.results == t.results && s' == s.(expanded := s.expanded + {node})
    requires node in s.depth && forall v :: DependsOn(g, v, node) ==> Noted(own, w, s, v, s.depth[node])
    ensures AllNoted(g, own, t, s')
  {
    forall u, v | u in s'.expanded && u in s'.depth && DependsOn(g, v, u)
      ensures Noted(own, t, s', v, s'.depth[u])
    {
      assert Noted(own, w, s, v, s.depth[u]);
    }
  }

  lemma LeaveOrdered(w: Walk, t: Walk, depth: map<Index, nat>, expanded: set<Index>)
    requires Ordered(w) && Queued(w.queue, depth, expanded) && w.queue != [] && t == w.(queue := w.queue[1..])
    ensures Ordered(t)
  {
    if t.queue != [] { assert t.queue[0] == w.queue[1] && w.queue[0].1 <= w.queue[1].1; }
  }

  /** Once its dependents are noted, the node at the head of the queue is expanded. */
  lemma LeaveHead(g: Graph, own: set<Index>, node: Index, at: nat, t: Walk, s: Trace)
    requires Walking(g, own, WithHead(node, at, t), s)
    requires forall v :: DependsOn(g, v, node) ==> Noted(own, t, s, v, at)
    ensures Walking(g, own, t, s.(expanded := s.expanded + {node}))
  {
    var head, s' := WithHead(node, at, t), s.(expanded := s.expanded + {node});
    assert head.queue[0] == (node, at) && head.queue[1..] == t.queue && s.depth[node] == at;
    LeaveQueued(head.queue, s.depth, s.expanded);
    LeaveOrdered(head, t, s.depth, s.expanded);
    LeaveNoted(g, own, head, t, s, s', node);
    assert Visits(g, own, t, s') && AllProper(g, own, t, s') by {
      forall i | 0 <= i < |t.results| ensures Proper(g, own, s', t.results[i]) {
        assert Proper(g, own, s, head.results[i]);
      }
    }
  }

  lemma PopKeeps(g: Graph, own: set<Index>, w: Walk, s: Trace) returns (s': Trace)
    requires Sound(g) && Within(|g.incoming|, w) && w.queue != [] && Walking(g, own, w, s)
    ensures Walking(g, own, Pop(g, own, w), s')
  {
    var (node, at) := w.queue[0];
    var rest, t := w.(queue := w.queue[1..]), Pop(g, own, w);
    assert w == WithHead(node, at, rest);
    assert g.incoming[node][0..] == g.incoming[node];
    s' := FollowAllKeeps(g, own, node, at, 0, rest, s);
    forall v | DependsOn(g, v, node) ensures Noted(own, t, s', v, at) {
      DependsOnIncoming(g, v, node);
    }
    LeaveHead(g, own, node, at, t, s');
    s' := s'.(expanded := s'.expanded + {node});
  }

  // ---------------------------------------------------------------- the whole walk

  lemma {:induction false} FinishKeeps(g: Graph, own: set<Index>, w: Walk, s: Trace) returns (s': Trace)
    requires Sound(g) && Within(|g.incoming|, w) && |w.visited| <= |g.incoming| && Walking(g, own, w, s)
    ensures Walking(g, own, Finish(g, own, w), s') && Finish(g, own, w).queue == []
    decreases 2 * (|g.incoming| - |w.visited|) + |w.queue|
  {
    if w.queue == [] {
      s' := s;
    } else {
      PopWithin(g, own, w);
      var s1 := PopKeeps(g, own, w, s);
      s' := FinishKeeps(g, own, Pop(g, own, w), s1);
    }
  }

  lemma StartWalks(g: Graph, own: set<Index>) returns (s: Trace)
    requires Sound(g) && forall v :: v in own ==> v < |g.incoming|
    ensures Walking(g, own, Start(own, |g.incoming|), s)
  {
    s := Trace(map v | v in own :: 0, map[], {});
    StartWithin(own, |g.incoming|);
    AscendingElements(own, |g.incoming|);
    var order, queue := Ascending(own, |g.incoming|), Start(own, |g.incoming|).queue;
    forall i | 0 <= i < |queue| ensures queue[i].0 in own && queue[i].1 == 0 {
      assert order[i] in order;
    }
  }

  /** The walk is over: all visited nodes are expanded. */
  ghost predicate Over(g: Graph, own: set<Index>, w: Walk, s: Trace) {
    s.expanded == s.depth.Keys && Visits(g, own, w, s) && AllProper(g, own, w, s) && AllNoted(g, own, w, s)
  }

  lemma WalkIsOver(g: Graph, own: set<Index>, w: Walk, s: Trace)
    requires Walking(g, own, w, s) && w.queue == []
    ensures Over(g, own, w, s)
  {
  }

  /** The parents of a visited node form a chain as long as its depth. */
  lemma {:induction false} VisitedChain(g: Graph, own: set<Index>, w: Walk, s: Trace, v: Index)
    requires Visits(g, own, w, s) && v in s.depth
    ensures Chain(g, own, v, s.depth[v])
    decreases s.depth[v]
  {
    if v !in own {
      assert v in s.parent && DependsOn(g, v, s.parent[v]);
      VisitedChain(g, own, w, s, s.parent[v]);
    }
  }

  /** Every chain of at most three hops starts in a node visited no deeper than that. */
  lemma {:induction false} ChainVisited(g: Graph, own: set<Index>, w: Walk, s: Trace, v: Index, hops: nat)
    requires Over(g, own, w, s) && Chain(g, own, v, hops) && hops <= MAX_IMPACT_DEPTH
    ensures v in s.depth && s.depth[v] <= hops
    decreases hops
  {
    if hops > 0 {
      var u :| DependsOn(g, v, u) && Chain(g, own, u, hops - 1);
      ChainVisited(g, own, w, s, u, hops - 1);
      assert Noted(own, w, s, v, s.depth[u]);
    }
  }

  lemma ChainLabelled(g: Graph, own: set<Index>, w: Walk, s: Trace, v: Index, hops: nat)
    requires Over(g, own, w, s) && v !in own && Chain(g, own, v, hops) && 1 <= hops <= MAX_IMPACT_DEPTH + 1
    ensures Labelled(w.results, v, hops)
  {
    var u :| DependsOn(g, v, u) && Chain(g, own, u, hops - 1);
    ChainVisited(g, own, w, s, u, hops - 1);
    assert Noted(own, w, s, v, s.depth[u]);
    var i :| 0 <= i < |w.results| && w.results[i].node == v && w.results[i].distance <= s.depth[u] + 1;
  }

  /** What an entry of the finished list says. */
  ghost predicate Right(g: Graph, own: set<Index>, a: Affected) {
    && a.node !in own && 1 <= a.distance <= 4 && Explained(g, a)
    && Chain(g, own, a.node, a.distance) && Chain(g, own, a.via, a.distance - 1)
  }

  lemma EntryIsRight(g: Graph, own: set<Index>, w: Walk, s: Trace, i: nat)
    requires Visits(g, own, w, s) && AllProper(g, own, w, s) && i < |w.results|
    ensures Right(g, own, w.results[i])
  {
    var a := w.results[i];
    assert Proper(g, own, s, a);
    VisitedChain(g, own, w, s, a.via);
    assert DependsOn(g, a.node, a.via);
  }

  lemma Found(g: Graph, own: set<Index>, w: Walk, s: Trace, v: Index)
    requires Over(g, own, w, s) && v !in own
    ensures Has(w.results, v) <==> InReach(g, own, v)
  {
    if InReach(g, own, v) {
      var hops :| 1 <= hops <= MAX_IMPACT_DEPTH + 1 && Chain(g, own, v, hops);
      ChainLabelled(g, own, w, s, v, hops);
    }
    if Has(w.results, v) {
      var i :| 0 <= i < |w.results| && w.results[i].node == v;
      EntryIsRight(g, own, w, s, i);
    }
  }

  lemma NearestFound(g: Graph, own: set<Index>, w: Walk, s: Trace, i: nat, hops: nat)
    requires Over(g, own, w, s) && Ordered(w) && i < |w.results| && Chain(g, own, w.results[i].node, hops)
    ensures w.results[i].distance <= hops
  {
    var a := w.results[i];
    EntryIsRight(g, own, w, s, i);
    if hops <= MAX_IMPACT_DEPTH {
      ChainLabelled(g, own, w, s, a.node, hops);
      var j :| 0 <= j < |w.results| && w.results[j].node == a.node && w.results[j].distance <= hops;
    }
  }

  /** The impact list holds exactly the nodes outside the file that reach it in one to four dependencies;
      each once, by distance, with the length of its shortest chain and the edge that chain starts with. */
  lemma ImpactIsExact(g: Graph, own: set<Index>)
    requires Sound(g) && forall v :: v in own ==> v < |g.incoming|
    ensures var r := ImpactOf(g, own);
      && (forall v :: v !in own ==> (Has(r, v) <==> InReach(g, own, v)))
      && (forall i :: 0 <= i < |r| ==> Right(g, own, r[i]))
      && (forall i, hops :: 0 <= i < |r| && Chain(g, own, r[i].node, hops) ==> r[i].distance <= hops)
      && forall i, j :: 0 <= i < j < |r| ==> r[i].node != r[j].node && r[i].distance <= r[j].distance
  {
    StartWithin(own, |g.incoming|);
    var w := Finish(g, own, Start(own, |g.incoming|));
    var s0 := StartWalks(g, own);
    var s := FinishKeeps(g, own, Start(own, |g.incoming|), s0);
    WalkIsOver(g, own, w, s);
    forall v | v !in own ensures Has(w.results, v) <==> InReach(g, own, v) {
      Found(g, own, w, s, v);
    }
    forall i | 0 <= i < |w.results| ensures Right(g, own, w.results[i]) {
      EntryIsRight(g, own, w, s, i);
    }
    forall i, hops | 0 <= i < |w.results| && Chain(g, own, w.results[i].node, hops)
      ensures w.results[i].distance <= hops
    {
      NearestFound(g, own, w, s, i, hops);
    }
  }
}
