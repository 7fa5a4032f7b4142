/** The graph as an object: files are replaced in place and the reference edges are refreshed for the
    affected sources (core/src/graph/mod.rs; core/src/engine.rs, `swap_file_graphs`). */
module CodeGraphObject {
  import opened Basics
  import opened CodeModel
  import opened ReferenceEdges

  /** A file whose nodes are replaced by a new part, or removed. */
  datatype Change = Change(file: FileId, part: Option<Part>)

  // ---------------------------------------------------------------- a graph built from scratch

  function NodesOf(files: map<FileId, Part>): set<CodeNode> {
    set f, n | f in files && n in files[f].nodes :: n
  }

  function StructureOf(files: map<FileId, Part>): set<Edge> {
    set f, e | f in files && e in files[f].structure :: e
  }

  /** The edges of a graph built from these files in one go. */
  function EdgesOf(files: map<FileId, Part>): set<Edge> {
    StructureOf(files) + AllLinks(NodesOf(files))
  }

  /** A chain of Contains edges from `from` to `to`. */
  ghost predicate Contained(structure: set<Edge>, from: NodeId, to: NodeId, steps: nat)
    decreases steps
  {
    if steps == 0 then from == to
    else exists mid :: Edge(mid, to, Contains) in structure && Contained(structure, from, mid, steps - 1)
  }

  predicate IsFileNode(n: CodeNode) {
    n.kind in {File, DataFile}
  }

  function IdsOf(part: Part): set<NodeId> {
    set n | n in part.nodes :: n.id
  }

  function ContainsOf(part: Part): set<Edge> {
    set e | e in part.structure && e.kind == Contains
  }

  /** The Contains edges form trees whose roots are file nodes. */
  ghost predicate Forest(part: Part) {
    && (forall d, e :: d in ContainsOf(part) && e in ContainsOf(part) && d.target == e.target ==>
          d.source == e.source)
    && (forall e, n :: e in ContainsOf(part) && n in part.nodes && IsFileNode(n) ==> e.target != n.id)
  }

  /** What an extractor returns for a file: nodes of that file with distinct ids, edges among them that
      are not reference edges, and, unless it is empty, a file node that contains all the others. */
  ghost predicate WellFormed(f: FileId, part: Part) {
    && (forall n :: n in part.nodes ==> n.id.file == f)
    && (forall m, n :: m in part.nodes && n in part.nodes && m.id == n.id ==> m == n)
    && (forall e :: e in part.structure ==>
          e.kind in {Contains, Defines, Reads, Writes} && e.source in IdsOf(part) && e.target in IdsOf(part))
    && (part.nodes != [] ==> exists n :: n in part.nodes && IsFileNode(n))
    && Forest(part)
    && (forall root, n :: root in part.nodes && IsFileNode(root) && n in part.nodes ==>
          exists steps :: Contained(part.structure, root.id, n.id, steps))
  }

  ghost predicate AllWellFormed(files: map<FileId, Part>) {
    forall f :: f in files ==> WellFormed(f, files[f])
  }

  function Updated(files: map<FileId, Part>, changes: seq<Change>): map<FileId, Part> {
    if changes == [] then files
    else
      var last := changes[|changes| - 1];
      Updated(files, changes[..|changes| - 1])[last.file := if last.part.Some? then last.part.value else EMPTY_PART]
  }

  lemma DistinctNodes(files: map<FileId, Part>)
    requires AllWellFormed(files)
    ensures DistinctIds(NodesOf(files))
  {
    forall m, n | m in NodesOf(files) && n in NodesOf(files) && m.id == n.id ensures m == n {
      var f :| f in files && m in files[f].nodes;
      var g :| g in files && n in files[g].nodes;
      assert f == g;
    }
  }

  function Structural(edges: set<Edge>): set<Edge> {
    set e | e in edges && e.kind in {Contains, Defines, Reads, Writes}
  }

  function Referential(edges: set<Edge>): set<Edge> {
    set e | e in edges && IsReferenceKind(e.kind)
  }

  function TargetNames(nodes: set<CodeNode>, f: FileId): set<string> {
    set n | n in nodes && n.id.file == f && IsTarget(n) :: n.name
  }

  /** A set of ids that Contains edges do not leave holds everything contained in one of its ids. */
  lemma {:induction false} ClosedHolds(structure: set<Edge>, ids: set<NodeId>, from: NodeId, to: NodeId, steps: nat)
    requires from in ids && Contained(structure, from, to, steps)
    requires forall e :: e in structure && e.kind == Contains && e.source in ids ==> e.target in ids
    ensures to in ids
    decreases steps
  {
    if steps > 0 {
      var mid :| Edge(mid, to, Contains) in structure && Contained(structure, from, mid, steps - 1);
      ClosedHolds(structure, ids, from, mid, steps - 1);
    }
  }

  function ChildrenOf(contains: set<Edge>, id: NodeId): set<NodeId> {
    set e | e in contains && e.source == id :: e.target
  }

  /** What a depth-first search over Contains edges has found, and what it still has to open. */
  ghost predicate Exploring(contains: set<Edge>, root: NodeId, found: set<NodeId>, stack: seq<NodeId>) {
    && root in found && Distinct(stack) && (forall i :: 0 <= i < |stack| ==> stack[i] in found)
    && forall e :: e in contains ==> (e.source in found && e.source !in stack <==> e.target in found - {root})
  }

  /** Edges that give every node at most one parent and the root none. */
  ghost predicate Tree(contains: set<Edge>, root: NodeId) {
    && (forall d, e :: d in contains && e in contains && d.target == e.target ==> d.source == e.source)
    && forall e :: e in contains ==> e.target != root
  }

  lemma NewChildren(contains: set<Edge>, root: NodeId, found: set<NodeId>, stack: seq<NodeId>, id: NodeId)
    requires Exploring(contains, root, found, stack) && Tree(contains, root) && id in stack
    ensures ChildrenOf(contains, id) !! found
  {
    forall t | t in ChildrenOf(contains, id) ensures t !in found {
      var e :| e in contains && e.source == id && e.target == t;
    }
  }

  lemma DistinctConcat(a: seq<NodeId>, b: seq<NodeId>)
    requires Distinct(a) && Distinct(b) && forall id :: id in a ==> id !in b
    ensures Distinct(a + b)
  {
    var c := a + b;
    forall i, j | 0 <= i < j < |c| ensures c[i] != c[j] {
      if i < |a| <= j { assert c[i] in a && c[j] in b; }
    }
  }

  lemma ExploreOne(contains: set<Edge>, root: NodeId, found: set<NodeId>, rest: seq<NodeId>, id: NodeId,
                   order: seq<NodeId>)
    requires Exploring(contains, root, found, rest + [id]) && Tree(contains, root)
    requires Distinct(order) && forall t :: t in order <==> t in ChildrenOf(contains, id)
    ensures Exploring(contains, root, found + ChildrenOf(contains, id), rest + order)
  {
    var stack, targets := rest + [id], ChildrenOf(contains, id);
    assert stack[|rest|] == id;
    NewChildren(contains, root, found, stack, id);
    assert forall i :: 0 <= i < |rest| ==> stack[i] == rest[i];
    forall r | r in rest ensures r in found && r != id {
      var i :| 0 <= i < |rest| && rest[i] == r;
      assert stack[i] in found;
    }
    DistinctConcat(rest, order);
    forall i | 0 <= i < |rest + order| ensures (rest + order)[i] in found + targets {
      assert (rest + order)[i] in rest || (rest + order)[i] in order;
    }
    forall e | e in contains
      ensures e.source in found + targets && e.source !in rest + order <==> e.target in found + targets - {root}
    {
      if e.source == id { assert e.target in targets; }
      if e.target in targets {
        var d :| d in contains && d.source == id && d.target == e.target;
      }
    }
  }

  lemma Explored(part: Part, root: CodeNode, found: set<NodeId>)
    requires WellFormed(root.id.file, part) && root in part.nodes && IsFileNode(root)
    requires Exploring(ContainsOf(part), root.id, found, []) && found <= IdsOf(part)
    ensures found == IdsOf(part)
  {
    forall id | id in IdsOf(part) ensures id in found {
      var n :| n in part.nodes && n.id == id;
      var steps :| Contained(part.structure, root.id, n.id, steps);
      forall e | e in part.structure && e.kind == Contains && e.source in found ensures e.target in found {
        assert e in ContainsOf(part);
      }
      ClosedHolds(part.structure, found, root.id, n.id, steps);
    }
  }

  function OwnIds(nodes: set<CodeNode>, f: FileId): set<NodeId> {
    set n | n in nodes && n.id.file == f :: n.id
  }

  /** The nodes of one file, as they stand in the whole graph. */
  lemma OneFileNodes(files: map<FileId, Part>, f: FileId)
    requires AllWellFormed(files) && f in files
    ensures forall n :: n in NodesOf(files) && n.id.file == f <==> n in files[f].nodes
    ensures OwnIds(NodesOf(files), f) == IdsOf(files[f])
  {
    assert WellFormed(f, files[f]);
    forall n | n in NodesOf(files) && n.id.file == f ensures n in files[f].nodes {
      var g :| g in files && n in files[g].nodes;
      assert WellFormed(g, files[g]);
    }
  }

  /** Both ends of an edge of a part are nodes of the part. */
  lemma EndsOf(f: FileId, part: Part, e: Edge) returns (source: CodeNode, target: CodeNode)
    requires WellFormed(f, part) && e in part.structure
    ensures source in part.nodes && target in part.nodes && source.id == e.source && target.id == e.target
    ensures e.source.file == f && e.target.file == f && !IsReferenceKind(e.kind)
  {
    hide Forest, Contained;
    source :| source in part.nodes && source.id == e.source;
    target :| target in part.nodes && target.id == e.target;
  }

  /** And its edges. */
  lemma OneFileStructure(files: map<FileId, Part>, f: FileId, e: Edge)
    requires AllWellFormed(files) && f in files && e.source.file == f
    ensures e in StructureOf(files) <==> e in files[f].structure
  {
    if e in StructureOf(files) {
      var g :| g in files && e in files[g].structure;
      assert WellFormed(g, files[g]);
      hide WellFormed;
      var source, target := EndsOf(g, files[g], e);
    }
  }

  lemma ForestIsTree(f: FileId, part: Part, root: CodeNode)
    requires WellFormed(f, part) && root in part.nodes && IsFileNode(root)
    ensures Tree(ContainsOf(part), root.id) && root.id in IdsOf(part)
  {
  }

  class CodeGraph {
    var nodes: set<CodeNode>
    var edges: set<Edge>

    /** The parts the nodes came from. */
    ghost var files: map<FileId, Part>

    /** Nodes and non-reference edges are those of the files, and no edge dangles. */
    ghost predicate Grounded()
      reads this
    {
      IsGrounded(files, nodes, edges)
    }

    /** The graph is the one built from its files from scratch. */
    ghost predicate Valid()
      reads this
    {
      AllWellFormed(files) && nodes == NodesOf(files) && edges == EdgesOf(files)
    }

    constructor ()
      ensures Valid() && files == map[]
    {
      nodes, edges, files := {}, {}, map[];
    }

    /** The names under which a file's nodes can be referred to. */
    method ReferenceTargetNames(f: FileId) returns (names: set<string>)
      ensures names == TargetNames(nodes, f)
    {
      names := {};
      var todo := set n | n in nodes && n.id.file == f;
      while todo != {}
        invariant todo <= nodes && forall n :: n in todo ==> n.id.file == f
        invariant names == set n | n in nodes && n.id.file == f && n !in todo && IsTarget(n) :: n.name
        decreases todo
      {
        var n :| n in todo;
        todo := todo - {n};
        if IsTarget(n) {
          names := names + {n.name};
        }
      }
    }

    /** The ids that a file node contains, directly or not, are those of its file. */
    method Descendants(root: CodeNode) returns (found: set<NodeId>)
      requires Grounded() && root in nodes && IsFileNode(root)
      ensures found == OwnIds(nodes, root.id.file)
    {
      RootedPart(root);
      ghost var part := files[root.id.file];
      ChildrenInParts(root.id.file);
      found := Search(edges, ContainsOf(part), IdsOf(part), root.id);
      Explored(part, root, found);
    }

    lemma RootedPart(root: CodeNode)
      requires Grounded() && root in nodes && IsFileNode(root)
      ensures root.id.file in files
      ensures var part := files[root.id.file];
        && WellFormed(root.id.file, part) && root in part.nodes && root.id in IdsOf(part)
        && Tree(ContainsOf(part), root.id) && OwnIds(nodes, root.id.file) == IdsOf(part)
    {
      InFiles(root);
      OneFileNodes(files, root.id.file);
      ForestIsTree(root.id.file, files[root.id.file], root);
    }

    lemma ChildrenInParts(f: FileId)
      requires Grounded() && f in files
      ensures forall id :: id in IdsOf(files[f]) ==>
        Children(edges, id) == ChildrenOf(ContainsOf(files[f]), id) <= IdsOf(files[f])
    {
      forall id | id in IdsOf(files[f])
        ensures Children(edges, id) == ChildrenOf(ContainsOf(files[f]), id) <= IdsOf(files[f])
      {
        ChildrenInPart(id);
      }
    }

    lemma ContainsInPart(id: NodeId, e: Edge)
      requires Grounded() && id.file in files && e.kind == Contains && e.source == id
      ensures e in edges <==> e in ContainsOf(files[id.file])
    {
      hide WellFormed, AllWellFormed, NodesOf, Ids;
      OneFileStructure(files, id.file, e);
      assert e in edges <==> e in Structural(edges);
    }

    lemma ChildrenInPart(id: NodeId)
      requires Grounded() && id.file in files
      ensures Children(edges, id) == ChildrenOf(ContainsOf(files[id.file]), id) <= IdsOf(files[id.file])
    {
      assert WellFormed(id.file, files[id.file]);
      forall t ensures t in Children(edges, id) <==> t in ChildrenOf(ContainsOf(files[id.file]), id) {
        ContainsInPart(id, Edge(id, t, Contains));
      }
    }

    lemma InFiles(n: CodeNode)
      requires Grounded() && n in nodes
      ensures n.id.file in files && n in files[n.id.file].nodes
    {
    }

    /** Removes the nodes of a file and every edge at one of them. */
    method RemoveFileNodes(f: FileId)
      requires Grounded()
      modifies this
      ensures Grounded() && files == old(files)[f := EMPTY_PART]
      ensures nodes == Outside(old(nodes), {f}) && edges == Surviving(old(edges), {f})
    {
      RemovedIsGrounded(files, nodes, edges, f);
      nodes, edges := WithoutFile(f);
      files := files[f := EMPTY_PART];
    }

    method WithoutFile(f: FileId) returns (nodes': set<CodeNode>, edges': set<Edge>)
      requires Grounded()
      ensures nodes' == Outside(nodes, {f}) && edges' == Surviving(edges, {f})
    {
      var roots := set n | n in nodes && n.id.file == f && IsFileNode(n);
      if roots == {} {
        assert forall n :: n in nodes && n.id.file == f && IsFileNode(n) ==> n in roots;
        NothingToRemove(f);
        return nodes, edges;
      }
      var root :| root in roots;
      var gone := Descendants(root);
      GoneIsTheFile(nodes, edges, f, gone);
      nodes' := set n | n in nodes && n.id !in gone;
      edges' := set e | e in edges && e.source !in gone && e.target !in gone;
    }

    /** Adds the nodes and edges of a staged graph. */
    method AppendGraph(f: FileId, part: Part)
      requires Grounded() && WellFormed(f, part) && (f in files ==> files[f] == EMPTY_PART)
      modifies this
      ensures Grounded() && files == old(files)[f := part]
      ensures nodes == old(nodes) + NodeSet(part) && edges == old(edges) + part.structure
    {
      nodes := nodes + NodeSet(part);
      edges := edges + part.structure;
      files := files[f := part];
      AppendedIsGrounded(old(files), old(nodes), old(edges), f, part);
    }

    lemma RootsExist()
      requires Grounded()
      ensures forall n :: n in nodes ==> exists r :: r in nodes && r.id.file == n.id.file && IsFileNode(r)
    {
      forall n | n in nodes ensures exists r :: r in nodes && r.id.file == n.id.file && IsFileNode(r) {
        InFiles(n);
        var part := files[n.id.file];
        assert WellFormed(n.id.file, part);
        var r :| r in part.nodes && IsFileNode(r);
        assert r in nodes;
      }
    }

    lemma NothingToRemove(f: FileId)
      requires Grounded() && forall n :: n in nodes && n.id.file == f ==> !IsFileNode(n)
      ensures nodes == Outside(nodes, {f}) && edges == Surviving(edges, {f})
    {
      RootsExist();
      IdsOutside(nodes, edges, f);
    }

    /** The edges of one source, identifier by identifier. */
    method ResolveSource(source: CodeNode, references: set<Edge>) returns (more: set<Edge>)
      ensures more == references + LinksOf(nodes, source)
    {
      hide Link;
      more := references;
      if IsCovered(source) {
        return;
      }
      var k := 0;
      while k < |source.tokens|
        invariant 0 <= k <= |source.tokens|
        invariant more == references + LinksOfTokens(nodes, source, source.tokens[..k])
      {
        var token := source.tokens[k];
        more := more + set t | t in nodes && Link(nodes, source, token, t).Some?
                         :: Edge(source.id, t.id, Link(nodes, source, token, t).value);
        OneMoreToken(nodes, source, source.tokens[..k], token);
        assert source.tokens[..k + 1] == source.tokens[..k] + [token];
        k := k + 1;
      }
      assert source.tokens[..k] == source.tokens;
    }

    method ResolveReferences(sources: set<CodeNode>) returns (references: set<Edge>)
      ensures references == LinksOfAll(nodes, sources)
    {
      references := {};
      var todo := sources;
      while todo != {}
        invariant todo <= sources && references == LinksOfAll(nodes, sources - todo)
        decreases todo
      {
        var source :| source in todo;
        references := ResolveSource(source, references);
        OneMoreSource(nodes, sources - todo, source);
        assert sources - (todo - {source}) == sources - todo + {source};
        todo := todo - {source};
      }
      assert sources - todo == sources;
    }

    /** Puts `references` in the place of the reference edges of the stale sources. */
    method ReplaceReferenceEdges(stale: set<CodeNode>, references: set<Edge>)
      modifies this`edges
      ensures edges == (set e | e in old(edges) && !(IsReferenceKind(e.kind) && e.source in Ids(stale))) + references
    {
      var staleIds := Ids(stale);
      edges := (set e | e in edges && !(IsReferenceKind(e.kind) && e.source in staleIds)) + references;
    }

    /** Recomputes the edges of the sources that the changed files can affect. */
    method RefreshReferenceEdges(changed: set<FileId>, names: set<string>)
      modifies this`edges
      ensures edges == Structural(old(edges))
                       + Kept(Referential(old(edges)), Affected(nodes, changed, names))
                       + LinksOfAll(nodes, Affected(nodes, changed, names))
    {
      var sources := Affected(nodes, changed, names);
      var references := ResolveReferences(sources);
      StructuralEdges(edges);
      ReplaceReferenceEdges(sources, references);
    }

    /** Recomputes the edges of every source. */
    method RebuildReferenceEdges()
      requires Grounded()
      modifies this`edges
      ensures Valid()
    {
      var sources := set n | n in nodes && IsSource(n);
      var references := ResolveReferences(sources);
      assert references == AllLinks(nodes);
      ghost var all := edges;
      StructuralEdges(all);
      edges := (set e | e in edges && !IsReferenceKind(e.kind)) + references;
    }

    /** Replaces one file; `names` gathers what it defined before and defines after. */
    method ReplaceFile(change: Change, names: set<string>) returns (more: set<string>)
      requires Grounded() && (change.part.Some? ==> WellFormed(change.file, change.part.value))
      modifies this
      ensures Grounded() && files == Updated(old(files), [change])
      ensures Outside(nodes, {change.file}) == Outside(old(nodes), {change.file})
      ensures Referential(edges) == Surviving(Referential(old(edges)), {change.file})
      ensures more == names + TargetNames(old(nodes), change.file) + TargetNames(nodes, change.file)
    {
      hide WellFormed, AllWellFormed, IsGrounded, Ids;
      var f := change.file;
      assert [change][..0] == [];
      var own := ReferenceTargetNames(f);
      more := names + own;
      RemoveFileNodes(f);
      RemovedReferences(old(edges), f);
      assert TargetNames(nodes, f) == {};
      if change.part.Some? {
        var staged := change.part.value;
        more := more + TargetNames(NodeSet(staged), f);
        AppendedReferences(edges, f, staged);
        AppendedNames(nodes, f, staged);
        AppendGraph(f, staged);
      }
    }

    /** Replaces the files of the changes, one after the other, and refreshes the reference edges once.
        The result is the graph built from the new files from scratch. */
    method SwapFileGraphs(changes: seq<Change>)
      requires Valid()
      requires forall i :: 0 <= i < |changes| && changes[i].part.Some? ==>
        WellFormed(changes[i].file, changes[i].part.value)
      modifies this
      ensures Valid() && files == Updated(old(files), changes)
    {
      hide AllWellFormed, NodesOf, StructureOf, AllLinks, Outside, CoversNames, Referential, Surviving, Structural;
      NothingChanged(nodes, edges);
      ValidIsGrounded(files, nodes, edges);
      var changed: set<FileId>, names: set<string> := {}, {};
      ghost var before := nodes;
      var k := 0;
      while k < |changes|
        invariant 0 <= k <= |changes|
        invariant Grounded() && files == Updated(old(files), changes[..k])
        invariant Outside(before, changed) == Outside(nodes, changed)
        invariant CoversNames(before, changed, names) && CoversNames(nodes, changed, names)
        invariant Referential(edges) == Surviving(AllLinks(before), changed)
      {
        ghost var n0, e0, f0 := nodes, edges, files;
        var more := ReplaceFile(changes[k], names);
        Replaced(before, n0, nodes, changed, changes[k].file, names, more);
        SurvivingReferences(e0, edges, AllLinks(before), changed, changes[k].file);
        UpdatedSnoc(old(files), changes, k);
        names := more;
        changed := changed + {changes[k].file};
        k := k + 1;
      }
      assert changes[..k] == changes;
      RefreshReferenceEdges(changed, names);
      RefreshedIsFull(old(files), files, changed, names);
    }
  }

  lemma NothingChanged(nodes: set<CodeNode>, edges: set<Edge>)
    ensures CoversNames(nodes, {}, {}) && Surviving(edges, {}) == edges
    ensures Surviving(AllLinks(nodes), {}) == AllLinks(nodes)
  {
    hide AllLinks;
  }

  lemma UpdatedSnoc(files: map<FileId, Part>, changes: seq<Change>, k: nat)
    requires k < |changes|
    ensures Updated(files, changes[..k + 1]) == Updated(Updated(files, changes[..k]), [changes[k]])
  {
    assert changes[..k + 1][..k] == changes[..k];
    assert [changes[k]][..0] == [];
  }

  lemma RemovedReferences(edges: set<Edge>, f: FileId)
    ensures Referential(Surviving(edges, {f})) == Surviving(Referential(edges), {f})
  {
  }

  lemma AppendedReferences(edges: set<Edge>, f: FileId, part: Part)
    requires WellFormed(f, part)
    ensures Referential(edges + part.structure) == Referential(edges)
  {
  }

  lemma AppendedNames(nodes: set<CodeNode>, f: FileId, part: Part)
    requires WellFormed(f, part) && TargetNames(nodes, f) == {}
    ensures TargetNames(nodes + NodeSet(part), f) == TargetNames(NodeSet(part), f)
    ensures Outside(nodes + NodeSet(part), {f}) == Outside(nodes, {f})
  {
    assert forall n :: n in nodes && n.id.file == f && IsTarget(n) ==> n.name in TargetNames(nodes, f);
  }

  lemma RefreshedIsFull(files: map<FileId, Part>, files': map<FileId, Part>, changed: set<FileId>,
                        names: set<string>)
    requires AllWellFormed(files) && AllWellFormed(files')
    requires Outside(NodesOf(files), changed) == Outside(NodesOf(files'), changed)
    requires CoversNames(NodesOf(files), changed, names) && CoversNames(NodesOf(files'), changed, names)
    ensures var sources := Affected(NodesOf(files'), changed, names);
      Kept(Surviving(AllLinks(NodesOf(files)), changed), sources) + LinksOfAll(NodesOf(files'), sources)
      == AllLinks(NodesOf(files'))
  {
    DistinctNodes(files);
    DistinctNodes(files');
    ScopedRefreshIsFull(NodesOf(files), NodesOf(files'), changed, names);
  }

  function LinksOfTokens(nodes: set<CodeNode>, source: CodeNode, tokens: seq<Token>): set<Edge> {
    set token, target | token in tokens && target in nodes && Link(nodes, source, token, target).Some?
      :: Edge(source.id, target.id, Link(nodes, source, token, target).value)
  }

  lemma OneMoreToken(nodes: set<CodeNode>, source: CodeNode, tokens: seq<Token>, token: Token)
    ensures LinksOfTokens(nodes, source, tokens + [token]) ==
      LinksOfTokens(nodes, source, tokens)
      + set t | t in nodes && Link(nodes, source, token, t).Some?
          :: Edge(source.id, t.id, Link(nodes, source, token, t).value)
  {
  }

  lemma OneMoreSource(nodes: set<CodeNode>, sources: set<CodeNode>, source: CodeNode)
    ensures LinksOfAll(nodes, sources + {source}) == LinksOfAll(nodes, sources) + LinksOf(nodes, source)
  {
    var all, parts := LinksOfAll(nodes, sources + {source}), LinksOfAll(nodes, sources) + LinksOf(nodes, source);
    forall e ensures e in all <==> e in parts {
      if e in all {
        var s :| s in sources + {source} && e in LinksOf(nodes, s);
      }
      if e in LinksOf(nodes, source) {
        assert source in sources + {source};
      }
      if e in LinksOfAll(nodes, sources) {
        var s :| s in sources && e in LinksOf(nodes, s);
        assert s in sources + {source};
      }
    }
  }

  /** The kinds of edges: reference edges, and those that an extractor returns. */
  lemma KindOfEdge(kind: EdgeKind)
    ensures IsReferenceKind(kind) <==> kind !in {Contains, Defines, Reads, Writes}
  {
  }

  lemma StructuralEdges(edges: set<Edge>)
    ensures (set e | e in edges && !IsReferenceKind(e.kind)) == Structural(edges)
    ensures Structural(edges) + Referential(edges) == edges
  {
    forall e | e in edges ensures IsReferenceKind(e.kind) <==> e !in Structural(edges) {
      KindOfEdge(e.kind);
    }
  }

  lemma StructureIsGrounded(files: map<FileId, Part>, e: Edge)
    requires AllWellFormed(files) && e in StructureOf(files)
    ensures !IsReferenceKind(e.kind) && e.source in Ids(NodesOf(files)) && e.target in Ids(NodesOf(files))
  {
    var f :| f in files && e in files[f].structure;
    assert WellFormed(f, files[f]);
    hide WellFormed;
    var m, n := EndsOf(f, files[f], e);
    assert m in NodesOf(files) && n in NodesOf(files);
  }

  lemma LinksAreGrounded(nodes: set<CodeNode>, e: Edge)
    requires e in AllLinks(nodes)
    ensures IsReferenceKind(e.kind) && e.source in Ids(nodes) && e.target in Ids(nodes)
  {
    var s :| s in nodes && IsSource(s) && e in LinksOf(nodes, s);
    LinkShape(nodes, s, e);
  }

  lemma ValidIsGrounded(files: map<FileId, Part>, nodes: set<CodeNode>, edges: set<Edge>)
    requires AllWellFormed(files) && nodes == NodesOf(files) && edges == EdgesOf(files)
    ensures IsGrounded(files, nodes, edges) && Referential(edges) == AllLinks(nodes)
  {
    hide WellFormed, AllWellFormed, NodesOf;
    forall e | e in edges
      ensures e.source in Ids(nodes) && e.target in Ids(nodes)
      ensures IsReferenceKind(e.kind) <==> e in AllLinks(nodes)
      ensures e in Structural(edges) <==> e in StructureOf(files)
    {
      KindOfEdge(e.kind);
      if e in AllLinks(nodes) { LinksAreGrounded(nodes, e); }
      if e in StructureOf(files) { StructureIsGrounded(files, e); }
    }
  }

  /** Replacing one file keeps what the refresh needs to know about nodes and names. */
  lemma Replaced(before: set<CodeNode>, nodes: set<CodeNode>, nodes': set<CodeNode>, changed: set<FileId>,
                 f: FileId, names: set<string>, more: set<string>)
    requires Outside(before, changed) == Outside(nodes, changed)
    requires CoversNames(before, changed, names) && CoversNames(nodes, changed, names)
    requires Outside(nodes, {f}) == Outside(nodes', {f})
    requires more == names + TargetNames(nodes, f) + TargetNames(nodes', f)
    ensures Outside(before, changed + {f}) == Outside(nodes', changed + {f})
    ensures CoversNames(before, changed + {f}, more) && CoversNames(nodes', changed + {f}, more)
  {
    forall n ensures n in Outside(before, changed + {f}) <==> n in Outside(nodes', changed + {f}) {
      assert n in Outside(before, changed) <==> n in Outside(nodes, changed);
      assert n in Outside(nodes, {f}) <==> n in Outside(nodes', {f});
    }
    forall n | n in before && n.id.file in changed + {f} && IsTarget(n) ensures n.name in more {
      if n.id.file !in changed {
        assert n in Outside(before, changed);
        assert n in nodes && n.name in TargetNames(nodes, f);
      }
    }
    forall n | n in nodes' && n.id.file in changed + {f} && IsTarget(n) ensures n.name in more {
      if n.id.file == f {
        assert n.name in TargetNames(nodes', f);
      } else {
        assert n in Outside(nodes', {f});
      }
    }
  }

  lemma SurvivingReferences(edges: set<Edge>, edges': set<Edge>, all: set<Edge>, changed: set<FileId>, f: FileId)
    requires Referential(edges) == Surviving(all, changed)
    requires Referential(edges') == Surviving(Referential(edges), {f})
    ensures Referential(edges') == Surviving(all, changed + {f})
  {
  }

  lemma GoneIsTheFile(nodes: set<CodeNode>, edges: set<Edge>, f: FileId, gone: set<NodeId>)
    requires forall e :: e in edges ==> e.source in Ids(nodes) && e.target in Ids(nodes)
    requires gone == OwnIds(nodes, f)
    ensures (set n | n in nodes && n.id !in gone) == Outside(nodes, {f})
    ensures (set e | e in edges && e.source !in gone && e.target !in gone) == Surviving(edges, {f})
  {
    assert forall id :: id in Ids(nodes) ==> (id in gone <==> id.file == f);
    assert forall n :: n in nodes ==> n.id in Ids(nodes);
  }

  lemma IdsOutside(nodes: set<CodeNode>, edges: set<Edge>, f: FileId)
    requires forall n :: n in nodes ==> n.id.file != f
    requires forall e :: e in edges ==> e.source in Ids(nodes) && e.target in Ids(nodes)
    ensures nodes == Outside(nodes, {f}) && edges == Surviving(edges, {f})
  {
    assert forall id :: id in Ids(nodes) ==> id.file != f;
  }

  ghost predicate IsGrounded(files: map<FileId, Part>, nodes: set<CodeNode>, edges: set<Edge>) {
    && AllWellFormed(files) && nodes == NodesOf(files) && Structural(edges) == StructureOf(files)
    && forall e :: e in edges ==> e.source in Ids(nodes) && e.target in Ids(nodes)
  }

  function NodeSet(part: Part): set<CodeNode> {
    set n | n in part.nodes
  }

  lemma StructureInFile(files: map<FileId, Part>, f: FileId, e: Edge)
    requires AllWellFormed(files) && f in files && e in files[f].structure
    ensures e.source.file == f && e.target.file == f && !IsReferenceKind(e.kind)
  {
    assert WellFormed(f, files[f]);
    hide WellFormed;
    var source, target := EndsOf(f, files[f], e);
  }

  lemma RemovedNodes(files: map<FileId, Part>, f: FileId)
    requires AllWellFormed(files)
    ensures NodesOf(files[f := EMPTY_PART]) == Outside(NodesOf(files), {f})
  {
    var files' := files[f := EMPTY_PART];
    forall n ensures n in Outside(NodesOf(files), {f}) <==> n in NodesOf(files') {
      if n in Outside(NodesOf(files), {f}) {
        var g :| g in files && n in files[g].nodes;
        assert WellFormed(g, files[g]) && n in files'[g].nodes;
      }
      if n in NodesOf(files') {
        var g :| g in files' && n in files'[g].nodes;
        assert g != f && WellFormed(g, files[g]) && n in files[g].nodes;
      }
    }
  }

  lemma RemovedStructure(files: map<FileId, Part>, f: FileId)
    requires AllWellFormed(files)
    ensures StructureOf(files[f := EMPTY_PART]) == Surviving(StructureOf(files), {f})
  {
    var files' := files[f := EMPTY_PART];
    forall e ensures e in Surviving(StructureOf(files), {f}) <==> e in StructureOf(files') {
      if e in Surviving(StructureOf(files), {f}) {
        var g :| g in files && e in files[g].structure;
        StructureInFile(files, g, e);
        assert e in files'[g].structure;
      }
      if e in StructureOf(files') {
        var g :| g in files' && e in files'[g].structure;
        assert g != f && e in files[g].structure;
        StructureInFile(files, g, e);
      }
    }
  }

  lemma RemovedWellFormed(files: map<FileId, Part>, f: FileId)
    requires AllWellFormed(files)
    ensures AllWellFormed(files[f := EMPTY_PART])
  {
    var files' := files[f := EMPTY_PART];
    forall g | g in files' ensures WellFormed(g, files'[g]) {
      if g != f { assert WellFormed(g, files[g]); }
    }
  }

  lemma RemovedIds(nodes: set<CodeNode>, edges: set<Edge>, f: FileId, e: Edge)
    requires e.source in Ids(nodes) && e.target in Ids(nodes) && e.source.file != f && e.target.file != f
    ensures e.source in Ids(Outside(nodes, {f})) && e.target in Ids(Outside(nodes, {f}))
  {
    var m :| m in nodes && m.id == e.source;
    var n :| n in nodes && n.id == e.target;
    assert m in Outside(nodes, {f}) && n in Outside(nodes, {f});
  }

  lemma RemovedIsGrounded(files: map<FileId, Part>, nodes: set<CodeNode>, edges: set<Edge>, f: FileId)
    requires IsGrounded(files, nodes, edges)
    ensures IsGrounded(files[f := EMPTY_PART], Outside(nodes, {f}), Surviving(edges, {f}))
  {
    RemovedNodes(files, f);
    RemovedStructure(files, f);
    RemovedWellFormed(files, f);
    assert Structural(Surviving(edges, {f})) == Surviving(Structural(edges), {f});
    forall e | e in Surviving(edges, {f})
      ensures e.source in Ids(Outside(nodes, {f})) && e.target in Ids(Outside(nodes, {f}))
    {
      RemovedIds(nodes, edges, f, e);
    }
  }

  lemma AppendedNodes(files: map<FileId, Part>, f: FileId, part: Part)
    requires f in files ==> files[f] == EMPTY_PART
    ensures NodesOf(files[f := part]) == NodesOf(files) + NodeSet(part)
  {
    var files' := files[f := part];
    forall n ensures n in NodesOf(files) + NodeSet(part) <==> n in NodesOf(files') {
      if n in NodesOf(files) {
        var g :| g in files && n in files[g].nodes;
        assert g != f && n in files'[g].nodes;
      }
      if n in NodeSet(part) { assert n in files'[f].nodes; }
      if n in NodesOf(files') {
        var g :| g in files' && n in files'[g].nodes;
        assert g != f ==> n in files[g].nodes;
      }
    }
  }

  lemma AppendedStructure(files: map<FileId, Part>, f: FileId, part: Part)
    requires f in files ==> files[f] == EMPTY_PART
    ensures StructureOf(files[f := part]) == StructureOf(files) + part.structure
  {
    var files' := files[f := part];
    forall e ensures e in StructureOf(files) + part.structure <==> e in StructureOf(files') {
      if e in StructureOf(files) {
        var g :| g in files && e in files[g].structure;
        assert g != f && e in files'[g].structure;
      }
      if e in part.structure { assert e in files'[f].structure; }
      if e in StructureOf(files') {
        var g :| g in files' && e in files'[g].structure;
        assert g != f ==> e in files[g].structure;
      }
    }
  }

  lemma AppendedIsGrounded(files: map<FileId, Part>, nodes: set<CodeNode>, edges: set<Edge>, f: FileId, part: Part)
    requires IsGrounded(files, nodes, edges) && WellFormed(f, part) && (f in files ==> files[f] == EMPTY_PART)
    ensures IsGrounded(files[f := part], nodes + NodeSet(part), edges + part.structure)
  {
    AppendedNodes(files, f, part);
    AppendedStructure(files, f, part);
    assert Structural(edges + part.structure) == Structural(edges) + part.structure;
    forall id | id in IdsOf(part) || id in Ids(nodes) ensures id in Ids(nodes + NodeSet(part)) {
      if id in IdsOf(part) {
        var n :| n in part.nodes && n.id == id;
        assert n in NodeSet(part);
      } else {
        var n :| n in nodes && n.id == id;
        assert n in nodes + NodeSet(part);
      }
    }
  }

  function Children(edges: set<Edge>, id: NodeId): set<NodeId> {
    set e | e in edges && e.kind == Contains && e.source == id :: e.target
  }

  /** Depth-first search over Contains edges. Every child is pushed without asking whether it was seen:
      in a tree none is seen twice. */
  method Search(edges: set<Edge>, ghost contains: set<Edge>, ghost ids: set<NodeId>, root: NodeId)
    returns (found: set<NodeId>)
    requires root in ids && Tree(contains, root)
    requires forall id :: id in ids ==> Children(edges, id) == ChildrenOf(contains, id) <= ids
    ensures Exploring(contains, root, found, []) && found <= ids
  {
    found := {root};
    var stack := [root];
    while stack != []
      invariant Exploring(contains, root, found, stack) && found <= ids
      decreases |ids - found|, |stack|
    {
      var id := stack[|stack| - 1];
      var targets := Children(edges, id);
      var order := Sequence(targets);
      assert stack == stack[..|stack| - 1] + [id];
      NewChildren(contains, root, found, stack, id);
      ExploreOne(contains, root, found, stack[..|stack| - 1], id, order);
      Shrinks(ids, found, targets);
      stack := stack[..|stack| - 1] + order;
      found := found + targets;
    }
  }

  lemma Shrinks(all: set<NodeId>, found: set<NodeId>, more: set<NodeId>)
    requires more !! found && more <= all
    ensures |all - (found + more)| == |all - found| - |more|
    ensures more == {} ==> all - (found + more) == all - found
  {
    assert all - found == (all - (found + more)) + more;
  }

  ghost predicate Distinct(ids: seq<NodeId>) {
    forall i, j :: 0 <= i < j < |ids| ==> ids[i] != ids[j]
  }

  /** The elements of a set in some order. */
  method Sequence(ids: set<NodeId>) returns (s: seq<NodeId>)
    ensures Distinct(s) && |s| == |ids| && forall id :: id in s <==> id in ids
  {
    s := [];
    var rest := ids;
    while rest != {}
      invariant rest <= ids && Distinct(s) && |s| + |rest| == |ids|
      invariant forall id :: id in s <==> id in ids && id !in rest
      decreases rest
    {
      var id :| id in rest;
      rest := rest - {id};
      s := s + [id];
    }
  }
}
