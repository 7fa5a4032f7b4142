/** What a change of a file can affect (core/src/engine.rs, `impact_of_change`). */
module Impact {
  import opened Basics
  import opened CodeModel
  import opened CallChain

  /** The same graph seen from both ends of its edges; an incoming arc names the source of the edge. */
  datatype Graph = Graph(outgoing: Arcs, incoming: Arcs)

  ghost predicate Sound(g: Graph) {
    && |g.incoming| == |g.outgoing| && Closed(g.outgoing) && Closed(g.incoming)
    && forall u, v, kind :: 0 <= u < |g.outgoing| && 0 <= v < |g.outgoing| ==>
         (Arc(v, kind) in g.outgoing[u] <==> Arc(u, kind) in g.incoming[v])
  }

  const MAX_IMPACT_DEPTH := 3

  function ImpactRelation(kind: EdgeKind): Option<string> {
    match kind
    case Calls => Some("calls")
    case CallInferred => Some("calls, inferred")
    case CallAmbiguous => Some("may call")
    case References => Some("references")
    case Imports => Some("imports")
    case ImportAmbiguous => Some("may import")
    case Inherits => Some("inherits")
    case Defines => Some("defines")
    case Reads => Some("reads")
    case Writes => Some("writes")
    case Contains => None
  }

  datatype Affected = Affected(node: Index, via: Index, relation: string, distance: nat)

  datatype Walk = Walk(queue: seq<(Index, nat)>, visited: set<Index>, impacted: set<Index>, results: seq<Affected>)

  // ---------------------------------------------------------------- the walk without a limit

  /** A node not found before joins the list. */
  function List(node: Index, at: nat, v: Index, relation: string, w: Walk): Walk {
    if v in w.impacted then w
    else w.(impacted := w.impacted + {v}, results := w.results + [Affected(v, node, relation, at + 1)])
  }

  /** A node not visited before joins the queue, unless it is too far away. */
  function Enqueue(at: nat, v: Index, w: Walk): Walk {
    if at < MAX_IMPACT_DEPTH && v !in w.visited
    then w.(visited := w.visited + {v}, queue := w.queue + [(v, at + 1)])
    else w
  }

  /** One incoming edge of a node at depth `at`. */
  function Follow(own: set<Index>, node: Index, at: nat, arc: Arc, w: Walk): Walk {
    var relation := ImpactRelation(arc.kind);
    if relation.None? || arc.target in own then w
    else Enqueue(at, arc.target, List(node, at, arc.target, relation.value, w))
  }

  function FollowAll(own: set<Index>, node: Index, at: nat, arcs: seq<Arc>, w: Walk): Walk {
    if arcs == [] then w else FollowAll(own, node, at, arcs[1..], Follow(own, node, at, arcs[0], w))
  }

  /** Every index in the walk is one of the graph's `n` nodes. */
  predicate Within(n: nat, w: Walk) {
    (forall v :: v in w.visited ==> v < n) && forall i :: 0 <= i < |w.queue| ==> w.queue[i].0 < n
  }

  lemma FollowWithin(n: nat, own: set<Index>, node: Index, at: nat, arc: Arc, w: Walk)
    requires Within(n, w) && arc.target < n
    ensures var t := Follow(own, node, at, arc, w);
      Within(n, t) && |t.visited| + |w.queue| == |w.visited| + |t.queue| && |w.visited| <= |t.visited| <= n
      && w.results <= t.results && |t.results| <= |w.results| + 1
  {
    AtMost(Follow(own, node, at, arc, w).visited, n);
  }

  lemma {:induction false} FollowAllWithin(n: nat, own: set<Index>, node: Index, at: nat, arcs: seq<Arc>, w: Walk)
    requires Within(n, w) && forall i :: 0 <= i < |arcs| ==> arcs[i].target < n
    ensures var t := FollowAll(own, node, at, arcs, w);
      Within(n, t) && |t.visited| + |w.queue| == |w.visited| + |t.queue| && |w.visited| <= |t.visited|
    decreases |arcs|
  {
    if arcs != [] {
      FollowWithin(n, own, node, at, arcs[0], w);
      FollowAllWithin(n, own, node, at, arcs[1..], Follow(own, node, at, arcs[0], w));
    }
  }

  lemma {:induction false} FollowAllExtends(own: set<Index>, node: Index, at: nat, arcs: seq<Arc>, w: Walk)
    ensures w.results <= FollowAll(own, node, at, arcs, w).results
    decreases |arcs|
  {
    if arcs != [] {
      FollowAllExtends(own, node, at, arcs[1..], Follow(own, node, at, arcs[0], w));
    }
  }

  function Pop(g: Graph, own: set<Index>, w: Walk): Walk
    requires Sound(g) && Within(|g.incoming|, w) && w.queue != []
  {
    var (node, at) := w.queue[0];
    FollowAll(own, node, at, g.incoming[node], w.(queue := w.queue[1..]))
  }

  lemma PopWithin(g: Graph, own: set<Index>, w: Walk)
    requires Sound(g) && Within(|g.incoming|, w) && w.queue != []
    ensures var t := Pop(g, own, w);
      Within(|g.incoming|, t) && |t.visited| <= |g.incoming|
      && 2 * (|g.incoming| - |t.visited|) + |t.queue| < 2 * (|g.incoming| - |w.visited|) + |w.queue|
  {
    FollowAllWithin(|g.incoming|, own, w.queue[0].0, w.queue[0].1, g.incoming[w.queue[0].0],
                    w.(queue := w.queue[1..]));
    AtMost(Pop(g, own, w).visited, |g.incoming|);
  }

  function Finish(g: Graph, own: set<Index>, w: Walk): Walk
    requires Sound(g) && Within(|g.incoming|, w) && |w.visited| <= |g.incoming|
    decreases 2 * (|g.incoming| - |w.visited|) + |w.queue|
  {
    if w.queue == [] then w
    else
      PopWithin(g, own, w);
      Finish(g, own, Pop(g, own, w))
  }

  lemma {:induction false} FinishExtends(g: Graph, own: set<Index>, w: Walk)
    requires Sound(g) && Within(|g.incoming|, w) && |w.visited| <= |g.incoming|
    ensures w.results <= Finish(g, own, w).results
    decreases 2 * (|g.incoming| - |w.visited|) + |w.queue|
  {
    if w.queue != [] {
      PopWithin(g, own, w);
      FollowAllExtends(own, w.queue[0].0, w.queue[0].1, g.incoming[w.queue[0].0], w.(queue := w.queue[1..]));
      FinishExtends(g, own, Pop(g, own, w));
    }
  }

  /** The elements of a set below `n`, in ascending order. */
  function Ascending(own: set<Index>, n: nat): seq<Index> {
    if n == 0 then [] else Ascending(own, n - 1) + (if n - 1 in own then [n - 1] else [])
  }

  function Start(own: set<Index>, n: nat): Walk {
    var order := Ascending(own, n);
    Walk(seq(|order|, i requires 0 <= i < |order| => (order[i], 0)), own, {}, [])
  }

  lemma {:induction false} AscendingElements(own: set<Index>, n: nat)
    ensures forall v :: v in Ascending(own, n) <==> v in own && v < n
  {
    if n > 0 {
      AscendingElements(own, n - 1);
    }
  }

  lemma StartWithin(own: set<Index>, n: nat)
    requires forall v :: v in own ==> v < n
    ensures Within(n, Start(own, n)) && |Start(own, n).visited| <= n
    ensures forall v :: v in own ==> Waits(Start(own, n).queue, v)
  {
    AscendingElements(own, n);
    AtMost(own, n);
    var order, queue := Ascending(own, n), Start(own, n).queue;
    forall i | 0 <= i < |queue| ensures queue[i].0 < n {
      assert order[i] in order;
    }
    forall v | v in own ensures Waits(queue, v) {
      var i :| 0 <= i < |order| && order[i] == v;
      assert queue[i].0 == v;
    }
  }

  /** The impact list of a file whose nodes are `own`, without a limit. */
  function ImpactOf(g: Graph, own: set<Index>): seq<Affected>
    requires Sound(g) && forall v :: v in own ==> v < |g.incoming|
  {
    StartWithin(own, |g.incoming|);
    Finish(g, own, Start(own, |g.incoming|)).results
  }

  // ---------------------------------------------------------------- the program

  /** `v` lies in the file: a chain of Contains edges leads to it from the file node. */
  ghost predicate Held(g: Graph, file: Index, v: Index, steps: nat)
    decreases steps
  {
    if steps == 0 then v == file
    else exists u: Index :: u < |g.outgoing| && Arc(v, Contains) in g.outgoing[u] && Held(g, file, u, steps - 1)
  }

  ghost predicate InFile(g: Graph, file: Index, v: Index) {
    exists steps: nat :: Held(g, file, v, steps)
  }

  ghost predicate IsOwn(g: Graph, file: Index, own: set<Index>) {
    forall v :: v in own <==> InFile(g, file, v)
  }

  lemma {:induction false} ClosedHolds(g: Graph, file: Index, own: set<Index>, v: Index, steps: nat)
    requires file in own && Held(g, file, v, steps)
    requires forall u, x :: u in own && u < |g.outgoing| && Arc(x, Contains) in g.outgoing[u] ==> x in own
    ensures v in own
    decreases steps
  {
    if steps > 0 {
      var u: Index :| u < |g.outgoing| && Arc(v, Contains) in g.outgoing[u] && Held(g, file, u, steps - 1);
      ClosedHolds(g, file, own, u, steps - 1);
    }
  }

  /** Depth-first search over Contains edges: the nodes of the file. */
  method FileNodes(g: Graph, file: Index) returns (own: set<Index>)
    requires Sound(g) && file < |g.outgoing|
    ensures IsOwn(g, file, own) && forall v :: v in own ==> v < |g.incoming|
  {
    own := {file};
    var stack := [file];
    assert Held(g, file, file, 0);
    AtMost(own, |g.outgoing|);
    while stack != []
      invariant file in own && forall v :: v in own ==> v < |g.outgoing| && InFile(g, file, v)
      invariant forall i :: 0 <= i < |stack| ==> stack[i] in own
      invariant forall u, x :: u in own && u !in stack && Arc(x, Contains) in g.outgoing[u] ==> x in own
      invariant |own| <= |g.outgoing|
      decreases 2 * (|g.outgoing| - |own|) + |stack|
    {
      var u := stack[|stack| - 1];
      assert stack == stack[..|stack| - 1] + [u];
      own, stack := Open(g, file, own, stack[..|stack| - 1], u);
      AtMost(own, |g.outgoing|);
    }
    forall v ensures v in own <==> InFile(g, file, v) {
      if InFile(g, file, v) {
        var steps: nat :| Held(g, file, v, steps);
        ClosedHolds(g, file, own, v, steps);
      }
    }
  }

  lemma ChildInFile(g: Graph, file: Index, u: Index, arc: Arc)
    requires Sound(g) && u < |g.outgoing| && InFile(g, file, u) && arc in g.outgoing[u] && arc.kind == Contains
    ensures arc.target < |g.outgoing| && InFile(g, file, arc.target)
  {
    var steps: nat :| Held(g, file, u, steps);
    assert Held(g, file, arc.target, steps + 1);
  }

  /** The children of one node that were not found before go on the stack. */
  method Open(g: Graph, file: Index, own0: set<Index>, stack0: seq<Index>, u: Index)
    returns (own: set<Index>, stack: seq<Index>)
    requires Sound(g) && u in own0
    requires forall v :: v in own0 ==> v < |g.outgoing| && InFile(g, file, v)
    requires forall i :: 0 <= i < |stack0| ==> stack0[i] in own0
    requires forall v, x :: v in own0 && v !in stack0 && v != u && Arc(x, Contains) in g.outgoing[v] ==> x in own0
    ensures own0 <= own && |own0| <= |own| && |own| + |stack0| == |own0| + |stack|
    ensures forall v :: v in own ==> v < |g.outgoing| && InFile(g, file, v)
    ensures forall i :: 0 <= i < |stack| ==> stack[i] in own
    ensures forall v, x :: v in own && v !in stack && Arc(x, Contains) in g.outgoing[v] ==> x in own
  {
    hide InFile;
    own, stack := own0, stack0;
    for k := 0 to |g.outgoing[u]|
      invariant own0 <= own && |own0| <= |own| && stack0 <= stack && |own| + |stack0| == |own0| + |stack|
      invariant forall v :: v in own ==> v < |g.outgoing| && InFile(g, file, v)
      invariant forall i :: 0 <= i < |stack| ==> stack[i] in own
      invariant forall v :: v in own ==> v in own0 || v in stack
      invariant forall j :: 0 <= j < k && g.outgoing[u][j].kind == Contains ==> g.outgoing[u][j].target in own
    {
      var arc := g.outgoing[u][k];
      if arc.kind == Contains && arc.target !in own {
        ChildInFile(g, file, u, arc);
        own, stack := own + {arc.target}, stack + [arc.target];
      }
    }
  }

  function First(results: seq<Affected>, limit: nat): seq<Affected> {
    if limit < |results| then results[..limit] else results
  }

  /** The walk after the edges from position `k` on. */
  function Rest(own: set<Index>, node: Index, at: nat, arcs: seq<Arc>, k: nat, w: Walk): Walk
    requires k <= |arcs|
  {
    FollowAll(own, node, at, arcs[k..], w)
  }

  lemma RestStep(own: set<Index>, node: Index, at: nat, arcs: seq<Arc>, k: nat, w: Walk)
    requires k < |arcs|
    ensures Rest(own, node, at, arcs, k + 1, Follow(own, node, at, arcs[k], w)) == Rest(own, node, at, arcs, k, w)
    ensures Follow(own, node, at, arcs[k], w).results <= Rest(own, node, at, arcs, k, w).results
  {
    assert arcs[k..][1..] == arcs[k + 1..];
    FollowAllExtends(own, node, at, arcs[k + 1..], Follow(own, node, at, arcs[k], w));
  }

  /** Reading the incoming edges of one node, until the list is full. */
  method FollowEdges(g: Graph, own: set<Index>, node: Index, at: nat, w0: Walk, limit: nat) returns (w: Walk)
    requires Sound(g) && Within(|g.incoming|, w0) && node < |g.incoming| && |w0.results| < limit
    ensures |w.results| < limit ==> w == FollowAll(own, node, at, g.incoming[node], w0)
    ensures |w.results| <= limit && w.results <= FollowAll(own, node, at, g.incoming[node], w0).results
    ensures Within(|g.incoming|, w) && |w.visited| + |w0.queue| == |w0.visited| + |w.queue|
    ensures |w0.visited| <= |w.visited| <= |g.incoming|
  {
    w := w0;
    ghost var all := FollowAll(own, node, at, g.incoming[node], w0);
    assert g.incoming[node][0..] == g.incoming[node];
    AtMost(w.visited, |g.incoming|);
    for k := 0 to |g.incoming[node]|
      invariant |w.results| < limit && Rest(own, node, at, g.incoming[node], k, w) == all
      invariant Within(|g.incoming|, w) && |w.visited| + |w0.queue| == |w0.visited| + |w.queue|
      invariant |w0.visited| <= |w.visited| <= |g.incoming|
    {
      FollowWithin(|g.incoming|, own, node, at, g.incoming[node][k], w);
      RestStep(own, node, at, g.incoming[node], k, w);
      w := Follow(own, node, at, g.incoming[node][k], w);
      if |w.results| >= limit {
        return;
      }
    }
  }

  /** The first `limit` entries of the impact list of the file. */
  method ImpactOfChange(g: Graph, fileNode: Option<Index>, limit: nat)
    returns (results: seq<Affected>, ghost own: set<Index>)
    requires Sound(g) && (fileNode.Some? ==> fileNode.value < |g.outgoing|)
    ensures fileNode.None? ==> results == []
    ensures fileNode.Some? ==>
      IsOwn(g, fileNode.value, own) && (forall v :: v in own ==> v < |g.incoming|)
      && results == First(ImpactOf(g, own), limit)
  {
    if fileNode.None? {
      return [], {};
    }
    var files := FileNodes(g, fileNode.value);
    own := files;
    var w := Start(files, |g.incoming|);
    StartWithin(own, |g.incoming|);
    ghost var all := ImpactOf(g, own);
    while w.queue != []
      invariant Within(|g.incoming|, w) && |w.visited| <= |g.incoming| && |w.results| <= limit
      invariant w.results <= all && (|w.results| < limit ==> Finish(g, own, w).results == all)
      decreases 2 * (|g.incoming| - |w.visited|) + |w.queue|
    {
      if |w.results| >= limit {
        break;
      }
      var (node, at) := w.queue[0];
      PopWithin(g, own, w);
      FinishExtends(g, own, Pop(g, own, w));
      w := FollowEdges(g, files, node, at, w.(queue := w.queue[1..]), limit);
    }
    results := w.results;
    assert results == First(all, limit);
  }
}
