/** Reference edges by name (core/src/graph/mod.rs): which definitions a node's identifiers are bound
    to, and why recomputing them for the affected sources only is enough. */
module ReferenceEdges {
  import opened Basics
  import opened CodeModel

  // ---------------------------------------------------------------- the resolver

  predicate IsReferenceKind(kind: EdgeKind) {
    kind in {Calls, CallAmbiguous, CallInferred, Imports, ImportAmbiguous, Inherits, References}
  }

  predicate IsTargetKind(kind: NodeKind) {
    kind in {Function, Method, Class, Struct, Enum, Trait, Module}
  }

  predicate IsTypeKind(kind: NodeKind) {
    kind in {Class, Struct, Enum, Trait, Module}
  }

  predicate IsSource(node: CodeNode) {
    node.kind in {Function, Method, Variable, Import}
  }

  predicate IsIdentifierStart(c: char) {
    c == '_' || c == '$' || 'a' <= c <= 'z' || 'A' <= c <= 'Z'
  }

  predicate IsIdentifier(name: string) {
    name != [] && IsIdentifierStart(name[0])
    && forall i :: 1 <= i < |name| ==> IsIdentifierStart(name[i]) || '0' <= name[i] <= '9'
  }

  /** In a Rust file the class nodes are `impl` blocks; they carry the name of their type. */
  predicate IsRustImpl(node: CodeNode) {
    node.kind == Class && 3 <= |node.id.file| && node.id.file[|node.id.file| - 3..] == ".rs"
  }

  /** A node that a name can be bound to. */
  predicate IsTarget(node: CodeNode) {
    IsTargetKind(node.kind) && IsIdentifier(node.name)
  }

  function Named(nodes: set<CodeNode>, name: string): set<CodeNode> {
    set n | n in nodes && n.name == name && IsTarget(n)
  }

  /** The targets of a name; `impl` blocks give way to a struct of that name. */
  function Targets(nodes: set<CodeNode>, name: string): set<CodeNode> {
    var named := Named(nodes, name);
    var hasStruct := exists n :: n in named && n.kind == Struct;
    set n | n in named && !(hasStruct && IsRustImpl(n))
  }

  function SameFile(nodes: set<CodeNode>, source: CodeNode, name: string): set<CodeNode> {
    set n | n in Targets(nodes, name) && n.id.file == source.id.file && n != source
  }

  /** Same file first; otherwise the only definition elsewhere. */
  function Resolved(nodes: set<CodeNode>, source: CodeNode, name: string): set<CodeNode> {
    var same := SameFile(nodes, source, name);
    var elsewhere := Targets(nodes, name) - {source};
    if same != {} then same else if |elsewhere| == 1 then elsewhere else {}
  }

  function Occurrences(tokens: seq<Token>, name: string): nat {
    if tokens == [] then 0
    else (if tokens[0].name == name then 1 else 0) + Occurrences(tokens[1..], name)
  }

  /** A node's own name, where it is not a call of something else of that name. */
  predicate IsOwnName(source: CodeNode, token: Token) {
    token.name == source.name
    && ((Token(token.name, false) in source.tokens && !token.call) || Occurrences(source.tokens, token.name) == 1)
  }

  /** The edge that one identifier of a source gives to a node, if any. */
  function Link(nodes: set<CodeNode>, source: CodeNode, token: Token, target: CodeNode): Option<EdgeKind> {
    if IsOwnName(source, token) || target !in Resolved(nodes, source, token.name) then None
    else
      var ambiguous := |SameFile(nodes, source, token.name)| > 1;
      if token.call then Some(if ambiguous then CallAmbiguous else CallInferred)
      else if !ambiguous && IsTypeKind(target.kind) then Some(References)
      else None
  }

  /** A variable or import inside a callable gives no edges: the callable's text has its identifiers. */
  predicate IsCovered(source: CodeNode) {
    source.covered && source.kind in {Variable, Import}
  }

  function LinksOf(nodes: set<CodeNode>, source: CodeNode): set<Edge> {
    if IsCovered(source) then {}
    else set token, target | token in source.tokens && target in nodes
           && Link(nodes, source, token, target).Some?
         :: Edge(source.id, target.id, Link(nodes, source, token, target).value)
  }

  /** All reference edges of a graph with these nodes. */
  function AllLinks(nodes: set<CodeNode>): set<Edge> {
    set source, edge | source in nodes && IsSource(source) && edge in LinksOf(nodes, source) :: edge
  }

  // ---------------------------------------------------------------- what decides a source's edges

  predicate Mentions(source: CodeNode, names: set<string>) {
    exists i :: 0 <= i < |source.tokens| && source.tokens[i].name in names
  }

  /** The definitions of a name outside `names` are the same in both node sets. */
  ghost predicate SameDefinitions(before: set<CodeNode>, after: set<CodeNode>, names: set<string>) {
    forall n :: IsTarget(n) && n.name !in names ==> (n in before <==> n in after)
  }

  lemma SameTargets(before: set<CodeNode>, after: set<CodeNode>, names: set<string>, name: string)
    requires SameDefinitions(before, after, names) && name !in names
    ensures Named(before, name) == Named(after, name) && Targets(before, name) == Targets(after, name)
  {
    assert Named(before, name) == Named(after, name);
  }

  lemma SameLink(before: set<CodeNode>, after: set<CodeNode>, names: set<string>, source: CodeNode,
                 token: Token, target: CodeNode)
    requires SameDefinitions(before, after, names) && token.name !in names
    ensures Link(before, source, token, target) == Link(after, source, token, target)
    ensures Link(before, source, token, target).Some? ==>
      target in before && target in after && IsTarget(target) && target.name == token.name
  {
    SameTargets(before, after, names, token.name);
    assert SameFile(before, source, token.name) == SameFile(after, source, token.name);
  }

  /** A source that mentions none of the affected names keeps its edges. */
  lemma SameLinks(before: set<CodeNode>, after: set<CodeNode>, names: set<string>, source: CodeNode)
    requires SameDefinitions(before, after, names) && !Mentions(source, names)
    ensures LinksOf(before, source) == LinksOf(after, source)
  {
    forall token, target | token in source.tokens
      ensures Link(before, source, token, target) == Link(after, source, token, target)
      ensures Link(before, source, token, target).Some? ==> target in before && target in after
    {
      SameLink(before, after, names, source, token, target);
    }
  }

  /** Every edge of a source goes from it to a definition of a name it mentions. */
  lemma LinkShape(nodes: set<CodeNode>, source: CodeNode, edge: Edge)
    requires edge in LinksOf(nodes, source)
    ensures edge.source == source.id && IsReferenceKind(edge.kind)
    ensures exists target :: target in nodes && target.id == edge.target && IsTarget(target)
              && Mentions(source, {target.name})
  {
    var token, target :| token in source.tokens && target in nodes
      && Link(nodes, source, token, target).Some?
      && edge == Edge(source.id, target.id, Link(nodes, source, token, target).value);
    var i :| 0 <= i < |source.tokens| && source.tokens[i] == token;
    assert target.name == token.name;
    assert Mentions(source, {target.name});
  }

  // ---------------------------------------------------------------- the scoped refresh

  ghost predicate DistinctIds(nodes: set<CodeNode>) {
    forall m, n :: m in nodes && n in nodes && m.id == n.id ==> m == n
  }

  function Outside(nodes: set<CodeNode>, changed: set<FileId>): set<CodeNode> {
    set n | n in nodes && n.id.file !in changed
  }

  /** The names that the changed files define, before or after. */
  ghost predicate CoversNames(nodes: set<CodeNode>, changed: set<FileId>, names: set<string>) {
    forall n :: n in nodes && n.id.file in changed && IsTarget(n) ==> n.name in names
  }

  /** The sources a refresh recomputes. */
  function Affected(nodes: set<CodeNode>, changed: set<FileId>, names: set<string>): set<CodeNode> {
    set n | n in nodes && IsSource(n) && (n.id.file in changed || Mentions(n, names))
  }

  function LinksOfAll(nodes: set<CodeNode>, sources: set<CodeNode>): set<Edge> {
    set source, edge | source in sources && edge in LinksOf(nodes, source) :: edge
  }

  /** What is left of `edges` when the nodes of the changed files go. */
  function Surviving(edges: set<Edge>, changed: set<FileId>): set<Edge> {
    set e | e in edges && e.source.file !in changed && e.target.file !in changed
  }

  function Ids(nodes: set<CodeNode>): set<NodeId> {
    set n | n in nodes :: n.id
  }

  /** The edges of the sources that are not recomputed. */
  function Kept(edges: set<Edge>, recomputed: set<CodeNode>): set<Edge> {
    set e | e in edges && e.source !in Ids(recomputed)
  }

  lemma OutsideDefinitions(before: set<CodeNode>, after: set<CodeNode>, changed: set<FileId>, names: set<string>)
    requires Outside(before, changed) == Outside(after, changed)
    requires CoversNames(before, changed, names) && CoversNames(after, changed, names)
    ensures SameDefinitions(before, after, names)
  {
    forall n | IsTarget(n) && n.name !in names ensures n in before <==> n in after {
      if n in before { assert n in Outside(before, changed); }
      if n in after { assert n in Outside(after, changed); }
    }
  }

  /** An edge kept from before is an edge of the new graph. */
  lemma KeptIsCurrent(before: set<CodeNode>, after: set<CodeNode>, changed: set<FileId>, names: set<string>, e: Edge)
    requires DistinctIds(before) && DistinctIds(after)
    requires Outside(before, changed) == Outside(after, changed)
    requires CoversNames(before, changed, names) && CoversNames(after, changed, names)
    requires e in Kept(Surviving(AllLinks(before), changed), Affected(after, changed, names))
    ensures e in AllLinks(after)
  {
    var s :| s in before && IsSource(s) && e in LinksOf(before, s);
    LinkShape(before, s, e);
    assert s in Outside(before, changed);
    assert s in after && s !in Affected(after, changed, names);
    OutsideDefinitions(before, after, changed, names);
    SameLinks(before, after, names, s);
  }

  /** An edge of the new graph whose source is not recomputed was there before and survived. */
  lemma CurrentIsKept(before: set<CodeNode>, after: set<CodeNode>, changed: set<FileId>, names: set<string>,
                      s: CodeNode, e: Edge)
    requires DistinctIds(after)
    requires Outside(before, changed) == Outside(after, changed)
    requires CoversNames(before, changed, names) && CoversNames(after, changed, names)
    requires s in after && IsSource(s) && s !in Affected(after, changed, names) && e in LinksOf(after, s)
    ensures e in Kept(Surviving(AllLinks(before), changed), Affected(after, changed, names))
  {
    hide SameDefinitions, Link, LinksOf, Targets;
    OutsideDefinitions(before, after, changed, names);
    SameLinks(before, after, names, s);
    assert s in Outside(after, changed);
    assert e in AllLinks(before);
    LinkShape(after, s, e);
    var t :| t in after && t.id == e.target && IsTarget(t) && Mentions(s, {t.name});
    var i :| 0 <= i < |s.tokens| && s.tokens[i].name in {t.name};
    assert t.name !in names;
    forall n | n in Affected(after, changed, names) ensures n.id != e.source {
    }
  }

  /** Recomputing the edges of the affected sources only gives the edges of a full rebuild. */
  lemma ScopedRefreshIsFull(before: set<CodeNode>, after: set<CodeNode>, changed: set<FileId>, names: set<string>)
    requires DistinctIds(before) && DistinctIds(after)
    requires Outside(before, changed) == Outside(after, changed)
    requires CoversNames(before, changed, names) && CoversNames(after, changed, names)
    ensures var sources := Affected(after, changed, names);
      Kept(Surviving(AllLinks(before), changed), sources) + LinksOfAll(after, sources) == AllLinks(after)
  {
    var sources := Affected(after, changed, names);
    var scoped := Kept(Surviving(AllLinks(before), changed), sources) + LinksOfAll(after, sources);
    forall e | e in scoped ensures e in AllLinks(after) {
      if e in LinksOfAll(after, sources) {
        var s :| s in sources && e in LinksOf(after, s);
      } else {
        KeptIsCurrent(before, after, changed, names, e);
      }
    }
    forall e | e in AllLinks(after) ensures e in scoped {
      var s :| s in after && IsSource(s) && e in LinksOf(after, s);
      if s in sources {
        assert e in LinksOfAll(after, sources);
      } else {
        CurrentIsKept(before, after, changed, names, s, e);
      }
    }
  }
}
