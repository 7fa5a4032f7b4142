/** Shortest call chains (core/src/engine.rs, `trace_call_chain`). */
module CallChain {
  import opened Basics
  import opened CodeModel

  type Index = nat

  datatype Arc = Arc(target: Index, kind: EdgeKind)

  /** The outgoing edges of every node, in the order the graph lists them. */
  type Arcs = seq<seq<Arc>>

  predicate IsCallKind(kind: EdgeKind) {
    kind in {Calls, CallAmbiguous, CallInferred, Defines}
  }

  ghost predicate Closed(g: Arcs) {
    forall u, k :: 0 <= u < |g| && 0 <= k < |g[u]| ==> g[u][k].target < |g|
  }

  /** A call, certain or not. */
  ghost predicate IsCall(kind: EdgeKind) {
    kind == Calls || kind == CallInferred || kind == CallAmbiguous
  }

  /** One hop of a call chain. */
  ghost predicate Hop(g: Arcs, u: Index, v: Index) {
    && u < |g|
    && exists k :: 0 <= k < |g[u]| && g[u][k].target == v && (IsCall(g[u][k].kind) || g[u][k].kind == Defines)
  }

  ghost predicate IsPath(g: Arcs, from: Index, to: Index, p: seq<Index>) {
    && p != [] && p[0] == from && p[|p| - 1] == to
    && forall i :: 0 <= i < |p| - 1 ==> Hop(g, p[i], p[i + 1])
  }

  /** The queue holds visited nodes in order of depth; the other visited nodes are expanded. */
  ghost predicate Queued(queue: seq<(Index, nat)>, depth: map<Index, nat>, expanded: set<Index>) {
    && (forall i :: 0 <= i < |queue| ==> queue[i].0 in depth && depth[queue[i].0] == queue[i].1)
    && (forall i, j :: 0 <= i < j < |queue| ==> queue[i].1 <= queue[j].1)
    && (forall i :: 0 <= i < |queue| ==> queue[i].1 <= queue[0].1 + 1)
    && expanded <= depth.Keys
    && (forall u :: u in expanded && queue != [] ==> depth[u] <= queue[0].1)
    && (forall v :: v in depth ==> v in expanded || Waits(queue, v))
  }

  ghost predicate Waits(queue: seq<(Index, nat)>, v: Index) {
    exists i :: 0 <= i < |queue| && queue[i].0 == v
  }

  /** Every visited node but the start has a parent one hop closer to the start. */
  ghost predicate Rooted(g: Arcs, from: Index, limit: nat, depth: map<Index, nat>, parent: map<Index, Index>) {
    && from in depth && depth[from] == 0
    && (forall v :: v in depth ==> v < |g| && depth[v] <= limit)
    && parent.Keys == depth.Keys - {from}
    && forall v {:trigger parent[v]} :: v in parent ==>
         parent[v] in depth && Hop(g, parent[v], v) && depth[v] == depth[parent[v]] + 1
  }

  /** Every successor of an expanded node is visited, at most one hop deeper. */
  ghost predicate Expanded(g: Arcs, limit: nat, depth: map<Index, nat>, expanded: set<Index>) {
    forall u, v :: u in expanded && u in depth && depth[u] < limit && Hop(g, u, v) ==>
      v in depth && depth[v] <= depth[u] + 1
  }

  /** The state of the search: `depth` of every visited node, its parent, and the nodes already expanded. */
  ghost predicate Searching(g: Arcs, from: Index, limit: nat, queue: seq<(Index, nat)>, depth: map<Index, nat>,
                            parent: map<Index, Index>, expanded: set<Index>) {
    Queued(queue, depth, expanded) && Rooted(g, from, limit, depth, parent) && Expanded(g, limit, depth, expanded)
  }

  /** A node within reach has been found by the time the search works at its depth. */
  lemma {:induction false} Reached(g: Arcs, from: Index, to: Index, limit: nat, queue: seq<(Index, nat)>,
                 depth: map<Index, nat>, parent: map<Index, Index>, expanded: set<Index>, p: seq<Index>)
    requires Searching(g, from, limit, queue, depth, parent, expanded) && IsPath(g, from, to, p)
    requires |p| - 1 <= limit && (queue != [] ==> |p| - 1 <= queue[0].1)
    ensures to in depth && depth[to] <= |p| - 1
    decreases |p|
  {
    if |p| > 1 {
      var q, u := p[..|p| - 1], p[|p| - 2];
      assert forall i :: 0 <= i < |q| - 1 ==> Hop(g, p[i], p[i + 1]);
      Reached(g, from, u, limit, queue, depth, parent, expanded, q);
      assert Hop(g, p[|p| - 2], p[|p| - 2 + 1]);
      forall i | 0 <= i < |queue| ensures queue[i].0 != u {
        assert queue[0].1 <= queue[i].1;
      }
    }
  }

  /** Reading the parents back from a node gives a path as long as its depth; it ends because every
      parent is one hop closer to the start. */
  method WalkBack(g: Arcs, from: Index, to: Index, ghost limit: nat, ghost queue: seq<(Index, nat)>,
                  ghost depth: map<Index, nat>, parent: map<Index, Index>, ghost expanded: set<Index>)
    returns (path: seq<Index>)
    requires Searching(g, from, limit, queue, depth, parent, expanded) && to in depth
    ensures IsPath(g, from, to, path) && |path| == depth[to] + 1
  {
    path := [to];
    var cursor := to;
    while cursor in parent
      invariant cursor in depth && IsPath(g, cursor, to, path) && |path| + depth[cursor] == depth[to] + 1
      decreases depth[cursor]
    {
      ghost var rest := path;
      path := [parent[cursor]] + path;
      forall i | 0 <= i < |path| - 1 ensures Hop(g, path[i], path[i + 1]) {
        if i > 0 { assert Hop(g, rest[i - 1], rest[i - 1 + 1]); }
      }
      cursor := parent[cursor];
    }
  }

  lemma DiscoverQueued(queue: seq<(Index, nat)>, depth: map<Index, nat>, expanded: set<Index>, v: Index)
    requires Queued(queue, depth, expanded) && queue != [] && v !in depth
    ensures Queued(queue + [(v, queue[0].1 + 1)], depth[v := queue[0].1 + 1], expanded)
  {
    var queue', depth' := queue + [(v, queue[0].1 + 1)], depth[v := queue[0].1 + 1];
    forall u | u in depth' ensures u in expanded || Waits(queue', u) {
      if u == v {
        assert queue'[|queue|].0 == v;
      } else if u !in expanded {
        var i :| 0 <= i < |queue| && queue[i].0 == u;
        assert queue'[i].0 == u;
      }
    }
  }

  lemma DiscoverRooted(g: Arcs, from: Index, limit: nat, depth: map<Index, nat>, parent: map<Index, Index>,
                       u: Index, v: Index)
    requires Rooted(g, from, limit, depth, parent)
    requires u in depth && depth[u] < limit && v !in depth && v < |g| && Hop(g, u, v)
    ensures Rooted(g, from, limit, depth[v := depth[u] + 1], parent[v := u])
  {
  }

  /** An unvisited successor of the node at the head of the queue joins the search. */
  lemma Discover(g: Arcs, from: Index, limit: nat, queue: seq<(Index, nat)>, depth: map<Index, nat>,
                 parent: map<Index, Index>, expanded: set<Index>, v: Index)
    requires Searching(g, from, limit, queue, depth, parent, expanded)
    requires queue != [] && queue[0].1 < limit && v !in depth && v < |g| && Hop(g, queue[0].0, v)
    ensures Searching(g, from, limit, queue + [(v, queue[0].1 + 1)], depth[v := queue[0].1 + 1],
                      parent[v := queue[0].0], expanded)
  {
    DiscoverQueued(queue, depth, expanded, v);
    DiscoverRooted(g, from, limit, depth, parent, queue[0].0, v);
  }

  /** Once all its successors are visited, the node at the head of the queue is expanded. */
  lemma Leave(g: Arcs, from: Index, limit: nat, queue: seq<(Index, nat)>, depth: map<Index, nat>,
              parent: map<Index, Index>, expanded: set<Index>)
    requires Searching(g, from, limit, queue, depth, parent, expanded) && queue != []
    requires queue[0].1 < limit ==>
      forall v :: Hop(g, queue[0].0, v) ==> v in depth && depth[v] <= queue[0].1 + 1
    ensures Searching(g, from, limit, queue[1..], depth, parent, expanded + {queue[0].0})
  {
    forall u | u in depth && u !in expanded + {queue[0].0} ensures Waits(queue[1..], u) {
      WaitsBehind(queue, u);
    }
  }

  lemma WaitsBehind(queue: seq<(Index, nat)>, u: Index)
    requires Waits(queue, u) && u != queue[0].0
    ensures Waits(queue[1..], u)
  {
    var i :| 0 <= i < |queue| && queue[i].0 == u;
    assert queue[1..][i - 1].0 == u;
  }

  lemma DiscoverBehind(g: Arcs, from: Index, limit: nat, head: (Index, nat), rest: seq<(Index, nat)>,
                       depth: map<Index, nat>, visited: set<Index>, parent: map<Index, Index>,
                       expanded: set<Index>, v: Index)
    requires Searching(g, from, limit, [head] + rest, depth, parent, expanded)
    requires head.1 < limit && visited == depth.Keys && v !in visited && v < |g| && Hop(g, head.0, v)
    ensures visited + {v} == depth[v := head.1 + 1].Keys && |visited + {v}| == |visited| + 1
    ensures forall u :: u in depth ==> depth[v := head.1 + 1][u] == depth[u]
    ensures Searching(g, from, limit, [head] + (rest + [(v, head.1 + 1)]), depth[v := head.1 + 1],
                      parent[v := head.0], expanded)
  {
    hide Searching, Hop;
    Associate([head], rest, [(v, head.1 + 1)]);
    Discover(g, from, limit, [head] + rest, depth, parent, expanded, v);
  }

  /** Following one edge from the node at the head of the queue: an unvisited target gets it as parent and
      joins the queue. */
  method Visit(g: Arcs, ghost from: Index, ghost limit: nat, head: (Index, nat), target: Index,
               rest: seq<(Index, nat)>, ghost depth: map<Index, nat>, visited: set<Index>,
               parent: map<Index, Index>, ghost expanded: set<Index>)
    returns (rest': seq<(Index, nat)>, ghost depth': map<Index, nat>, visited': set<Index>,
             parent': map<Index, Index>)
    requires head.1 < limit && target < |g| && Hop(g, head.0, target)
    requires Searching(g, from, limit, [head] + rest, depth, parent, expanded) && visited == depth.Keys
    ensures Searching(g, from, limit, [head] + rest', depth', parent', expanded) && visited' == depth'.Keys
    ensures target in visited'
    ensures forall v :: v in depth ==> v in depth' && depth'[v] == depth[v]
    ensures |visited| <= |visited'| && |visited'| + |rest| == |visited| + |rest'|
  {
    if target in visited {
      return rest, depth, visited, parent;
    }
    DiscoverBehind(g, from, limit, head, rest, depth, visited, parent, expanded, target);
    rest' := rest + [(target, head.1 + 1)];
    depth' := depth[target := head.1 + 1];
    visited' := visited + {target};
    parent' := parent[target := head.0];
  }

  /** Expanding the node at the head of the queue. */
  method Expand(g: Arcs, ghost from: Index, ghost limit: nat, current: Index, at: nat, rest: seq<(Index, nat)>,
                ghost depth: map<Index, nat>, visited: set<Index>, parent: map<Index, Index>,
                ghost expanded: set<Index>)
    returns (rest': seq<(Index, nat)>, ghost depth': map<Index, nat>, visited': set<Index>,
             parent': map<Index, Index>)
    requires Closed(g) && Searching(g, from, limit, [(current, at)] + rest, depth, parent, expanded)
    requires visited == depth.Keys && at < limit && current < |g|
    ensures Searching(g, from, limit, rest', depth', parent', expanded + {current})
    ensures visited' == depth'.Keys
    ensures forall v :: v in depth ==> v in depth' && depth'[v] == depth[v]
    ensures |visited| <= |visited'| && |visited'| + |rest| == |visited| + |rest'|
  {
    hide Searching, Queued, Rooted, Expanded, SeenUpTo;
    NoneSeen(g[current], depth);
    rest', depth', visited', parent' := rest, depth, visited, parent;
    var k := 0;
    while k < |g[current]|
      invariant 0 <= k <= |g[current]|
      invariant Searching(g, from, limit, [(current, at)] + rest', depth', parent', expanded)
      invariant visited' == depth'.Keys
      invariant forall v :: v in depth ==> v in depth' && depth'[v] == depth[v]
      invariant |visited| <= |visited'| && |visited'| + |rest| == |visited| + |rest'|
      invariant SeenUpTo(g[current], k, depth')
    {
      var arc := g[current][k];
      ghost var depth0 := depth';
      if IsCallKind(arc.kind) {
        rest', depth', visited', parent' :=
          Visit(g, from, limit, (current, at), arc.target, rest', depth', visited', parent', expanded);
      }
      SeenOneMore(g[current], k, depth0, depth');
      k := k + 1;
    }
    AllSeen(g, from, limit, current, at, rest', depth', parent', expanded);
  }

  /** The targets of these call edges are visited. */
  ghost predicate SeenUpTo(arcs: seq<Arc>, k: nat, depth: map<Index, nat>)
    requires k <= |arcs|
  {
    forall j :: 0 <= j < k && IsCallKind(arcs[j].kind) ==> arcs[j].target in depth
  }

  lemma NoneSeen(arcs: seq<Arc>, depth: map<Index, nat>)
    ensures SeenUpTo(arcs, 0, depth)
  {
  }

  lemma SeenOneMore(arcs: seq<Arc>, k: nat, depth: map<Index, nat>, depth': map<Index, nat>)
    requires k < |arcs| && SeenUpTo(arcs, k, depth)
    requires forall v :: v in depth ==> v in depth' && depth'[v] == depth[v]
    requires IsCallKind(arcs[k].kind) ==> arcs[k].target in depth'
    ensures SeenUpTo(arcs, k + 1, depth')
  {
  }

  lemma AllSeen(g: Arcs, from: Index, limit: nat, u: Index, at: nat, rest: seq<(Index, nat)>,
                depth: map<Index, nat>, parent: map<Index, Index>, expanded: set<Index>)
    requires Searching(g, from, limit, [(u, at)] + rest, depth, parent, expanded)
    requires u < |g| && SeenUpTo(g[u], |g[u]|, depth)
    ensures Searching(g, from, limit, rest, depth, parent, expanded + {u})
  {
    hide Searching;
    var queue := [(u, at)] + rest;
    forall v | Hop(g, u, v) ensures v in depth && depth[v] <= at + 1 {
      NotDeeper(g, from, limit, queue, depth, parent, expanded, v);
    }
    Leave(g, from, limit, queue, depth, parent, expanded);
    assert queue[1..] == rest;
  }

  /** Nothing is visited deeper than one hop past the head of the queue. */
  lemma NotDeeper(g: Arcs, from: Index, limit: nat, queue: seq<(Index, nat)>, depth: map<Index, nat>,
                  parent: map<Index, Index>, expanded: set<Index>, v: Index)
    requires Searching(g, from, limit, queue, depth, parent, expanded) && queue != [] && v in depth
    ensures depth[v] <= queue[0].1 + 1
  {
    if v !in expanded {
      var i :| 0 <= i < |queue| && queue[i].0 == v;
    }
  }

  /** The search is over: nothing is left to expand, and the target was not among the expanded. */
  lemma NotReachable(g: Arcs, from: Index, to: Index, limit: nat, depth: map<Index, nat>,
                     parent: map<Index, Index>, expanded: set<Index>, p: seq<Index>)
    requires Searching(g, from, limit, [], depth, parent, expanded) && to !in expanded
    requires IsPath(g, from, to, p)
    ensures |p| - 1 > limit
  {
    if |p| - 1 <= limit {
      Reached(g, from, to, limit, [], depth, parent, expanded, p);
    }
  }

  /** The target is at the head of the queue: no path is shorter than its depth. */
  lemma NoShorter(g: Arcs, from: Index, to: Index, limit: nat, queue: seq<(Index, nat)>, depth: map<Index, nat>,
                  parent: map<Index, Index>, expanded: set<Index>, p: seq<Index>)
    requires Searching(g, from, limit, queue, depth, parent, expanded) && queue != [] && queue[0].0 == to
    requires IsPath(g, from, to, p)
    ensures depth[to] <= |p| - 1
  {
    if |p| - 1 < depth[to] {
      Reached(g, from, to, limit, queue, depth, parent, expanded, p);
    }
  }

  ghost predicate WithinHops(g: Arcs, from: Index, to: Index, limit: nat) {
    exists p :: IsPath(g, from, to, p) && |p| - 1 <= limit
  }

  /** The chain from one resolved node to another is not empty exactly when a path of at most `maxDepth`
      call hops exists, and then it is a shortest one. */
  method TraceCallChain(g: Arcs, fromNode: Option<Index>, toNode: Option<Index>, maxDepth: nat)
    returns (path: seq<Index>)
    requires Closed(g) && (fromNode.Some? ==> fromNode.value < |g|) && (toNode.Some? ==> toNode.value < |g|)
    ensures path != [] <==>
      fromNode.Some? && toNode.Some? && WithinHops(g, fromNode.value, toNode.value, maxDepth)
    ensures path != [] ==> IsPath(g, fromNode.value, toNode.value, path) && |path| - 1 <= maxDepth
    ensures path != [] ==> forall p :: IsPath(g, fromNode.value, toNode.value, p) ==> |path| <= |p|
  {
    if fromNode.None? || toNode.None? {
      return [];
    }
    var from, to := fromNode.value, toNode.value;
    var queue, visited, parent := [(from, 0)], {from}, map[];
    ghost var depth, expanded: set<Index> := map[from := 0], {};
    assert Waits(queue, from) by { assert queue[0].0 == from; }
    AtMost(visited, |g|);
    while queue != []
      invariant Searching(g, from, maxDepth, queue, depth, parent, expanded)
      invariant visited == depth.Keys && to !in expanded
      invariant |visited| <= |g|
      decreases 2 * (|g| - |visited|) + |queue|
    {
      var (current, at) := queue[0];
      if current == to {
        path := WalkBack(g, from, to, maxDepth, queue, depth, parent, expanded);
        forall p | IsPath(g, from, to, p) ensures |path| <= |p| {
          NoShorter(g, from, to, maxDepth, queue, depth, parent, expanded, p);
        }
        assert WithinHops(g, from, to, maxDepth);
        return;
      }
      assert queue == [(current, at)] + queue[1..];
      if at >= maxDepth {
        Leave(g, from, maxDepth, queue, depth, parent, expanded);
        queue := queue[1..];
      } else {
        queue, depth, visited, parent :=
          Expand(g, from, maxDepth, current, at, queue[1..], depth, visited, parent, expanded);
      }
      expanded := expanded + {current};
      AtMost(visited, |g|);
    }
    forall p | IsPath(g, from, to, p) ensures |p| - 1 > maxDepth {
      NotReachable(g, from, to, maxDepth, depth, parent, expanded, p);
    }
    path := [];
  }

  lemma {:induction false} AtMost(s: set<Index>, n: nat)
    requires forall v :: v in s ==> v < n
    ensures |s| <= n
  {
    if n == 0 {
      assert s == {};
    } else {
      AtMost(s - {n - 1}, n - 1);
      assert s <= s - {n - 1} + {n - 1};
    }
  }
}
