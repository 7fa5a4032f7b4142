/** What a name is bound to (README.md, "same file first"; core/src/graph/mod.rs, `resolve_source_references`):
    the reference edges of a graph, said of its nodes alone. */
module ReferenceBinding {
  import opened Basics
  import opened CodeModel
  import opened ReferenceEdges

  /** The name of a definition is a word. */
  predicate IsWord(name: string) {
    |name| > 0 && !('0' <= name[0] <= '9')
    && forall i :: 0 <= i < |name| ==>
         name[i] in {'_', '$'} || 'a' <= name[i] <= 'z' || 'A' <= name[i] <= 'Z' || '0' <= name[i] <= '9'
  }

  predicate IsDefinition(n: CodeNode) {
    IsWord(n.name) && (n.kind in {Function, Method} || IsType(n))
  }

  predicate IsType(n: CodeNode) {
    n.kind in {Class, Struct, Enum, Trait, Module}
  }

  /** An `impl` block of Rust that carries the name of a struct of the graph. */
  ghost predicate IsImplOf(nodes: set<CodeNode>, n: CodeNode) {
    n.kind == Class && EndsWith(n.id.file, ".rs")
    && exists m :: m in nodes && m.kind == Struct && m.name == n.name
  }

  /** A definition of `name` other than the source. */
  ghost predicate Defines(nodes: set<CodeNode>, source: CodeNode, name: string, n: CodeNode) {
    n in nodes && n != source && n.name == name && IsDefinition(n) && !IsImplOf(nodes, n)
  }

  ghost predicate DefinesHere(nodes: set<CodeNode>, source: CodeNode, name: string, n: CodeNode) {
    Defines(nodes, source, name, n) && n.id.file == source.id.file
  }

  /** `n` is what `name` means in the source: the one definition in its file, or, if there is none in its file,
      the one in the whole graph. */
  ghost predicate Means(nodes: set<CodeNode>, source: CodeNode, name: string, n: CodeNode) {
    Defines(nodes, source, name, n)
    && forall m :: m != n ==>
         if n.id.file == source.id.file then !DefinesHere(nodes, source, name, m)
         else !Defines(nodes, source, name, m)
  }

  /** `n` is one of several definitions of `name` in the source's file. */
  ghost predicate MayMean(nodes: set<CodeNode>, source: CodeNode, name: string, n: CodeNode) {
    DefinesHere(nodes, source, name, n) && exists m :: m != n && DefinesHere(nodes, source, name, m)
  }

  /** Functions and methods refer to things; variables and imports do unless a callable around them does. */
  predicate Refers(source: CodeNode) {
    source.kind in {Function, Method} || (source.kind in {Variable, Import} && !source.covered)
  }

  /** The source calls `name`; a call of its own name must not be the only place where the name stands. */
  predicate CallsName(source: CodeNode, name: string) {
    Token(name, true) in source.tokens
    && (name == source.name ==>
          exists i, j :: 0 <= i < j < |source.tokens| && source.tokens[i].name == name && source.tokens[j].name == name)
  }

  /** The source mentions a name other than its own without calling it. */
  predicate MentionsName(source: CodeNode, name: string) {
    name != source.name && Token(name, false) in source.tokens
  }

  // ---------------------------------------------------------------- the definitions of a name

  lemma TargetsAre(nodes: set<CodeNode>, source: CodeNode, name: string, n: CodeNode)
    ensures n in Targets(nodes, name) && n != source <==> Defines(nodes, source, name, n)
  {
    assert IsTarget(n) <==> IsDefinition(n) by { WordIsIdentifier(n.name); }
    if n in nodes && n.name == name && IsTarget(n) && IsImplOf(nodes, n) {
      var m :| m in nodes && m.kind == Struct && m.name == n.name;
      assert m in Named(nodes, name);
    }
  }

  lemma WordIsIdentifier(name: string)
    ensures IsWord(name) <==> IsIdentifier(name)
  {
  }

  lemma SoleElement<T>(s: set<T>, x: T)
    requires x in s
    ensures |s| == 1 <==> forall y :: y in s ==> y == x
    ensures |s| > 1 <==> exists y :: y in s && y != x
  {
    var rest := s - {x};
    assert |s| == 1 + |rest|;
    if y :| y in rest {
      assert y in s && y != x;
    } else {
      assert rest == {};
    }
  }

  lemma ResolvedIs(nodes: set<CodeNode>, source: CodeNode, name: string, n: CodeNode)
    ensures var ambiguous := |SameFile(nodes, source, name)| > 1;
      && (n in Resolved(nodes, source, name) && !ambiguous <==> Means(nodes, source, name, n))
      && (n in Resolved(nodes, source, name) && ambiguous <==> MayMean(nodes, source, name, n))
  {
    forall m ensures m in Targets(nodes, name) - {source} <==> Defines(nodes, source, name, m) {
      TargetsAre(nodes, source, name, m);
    }
    hide Defines, Targets;
    var same, elsewhere := SameFile(nodes, source, name), Targets(nodes, name) - {source};
    assert forall m :: m in same <==> DefinesHere(nodes, source, name, m);
    if n in same { SoleElement(same, n); }
    if n in elsewhere { SoleElement(elsewhere, n); }
    assert same <= elsewhere;
  }

  // ---------------------------------------------------------------- the edges of a name

  lemma CountsAsCall(source: CodeNode, name: string)
    ensures CallsName(source, name) <==>
      Token(name, true) in source.tokens && !IsOwnName(source, Token(name, true))
    ensures MentionsName(source, name) <==>
      Token(name, false) in source.tokens && !IsOwnName(source, Token(name, false))
  {
    if Token(name, true) in source.tokens {
      var i :| 0 <= i < |source.tokens| && source.tokens[i] == Token(name, true);
      StandsAt(source.tokens, name, i);
      SeveralTimes(source.tokens, name);
    }
  }

  lemma {:induction false} StandsAt(tokens: seq<Token>, name: string, i: nat)
    requires i < |tokens| && tokens[i].name == name
    ensures Occurrences(tokens, name) > 0
  {
    if i > 0 { StandsAt(tokens[1..], name, i - 1); }
  }

  lemma {:induction false} Stands(tokens: seq<Token>, name: string)
    requires Occurrences(tokens, name) > 0
    ensures exists i :: 0 <= i < |tokens| && tokens[i].name == name
  {
    if tokens[0].name != name {
      Stands(tokens[1..], name);
      var i :| 0 <= i < |tokens[1..]| && tokens[1..][i].name == name;
      assert tokens[i + 1].name == name;
    }
  }

  lemma {:induction false} SeveralTimes(tokens: seq<Token>, name: string)
    ensures Occurrences(tokens, name) > 1 <==>
      exists i, j :: 0 <= i < j < |tokens| && tokens[i].name == name && tokens[j].name == name
  {
    if tokens != [] {
      var rest := tokens[1..];
      SeveralTimes(rest, name);
      if Occurrences(rest, name) > 0 {
        Stands(rest, name);
        var j :| 0 <= j < |rest| && rest[j].name == name;
        assert tokens[j + 1].name == name;
      }
      if i, j :| 0 <= i < j < |rest| && rest[i].name == name && rest[j].name == name {
        assert tokens[i + 1].name == name && tokens[j + 1].name == name;
      }
      if i, j :| 0 <= i < j < |tokens| && tokens[i].name == name && tokens[j].name == name {
        StandsAt(rest, name, j - 1);
        if i > 0 { assert rest[i - 1].name == name && rest[j - 1].name == name; }
      }
    }
  }

  /** The kind of the edge that a name with or without a call gives between two nodes. */
  ghost predicate Binds(nodes: set<CodeNode>, source: CodeNode, target: CodeNode, kind: EdgeKind) {
    match kind
    case CallInferred => CallsName(source, target.name) && Means(nodes, source, target.name, target)
    case CallAmbiguous => CallsName(source, target.name) && MayMean(nodes, source, target.name, target)
    case References =>
      MentionsName(source, target.name) && Means(nodes, source, target.name, target) && IsType(target)
    case _ => false
  }

  lemma LinkBinds(nodes: set<CodeNode>, source: CodeNode, target: CodeNode, kind: EdgeKind)
    requires target in nodes
    ensures Binds(nodes, source, target, kind) <==>
      exists call :: Token(target.name, call) in source.tokens
        && Link(nodes, source, Token(target.name, call), target) == Some(kind)
  {
    var name := target.name;
    ResolvedIs(nodes, source, name, target);
    CountsAsCall(source, name);
    hide Resolved, SameFile, Means, MayMean, CallsName, MentionsName, IsOwnName;
    forall call | Token(name, call) in source.tokens && Link(nodes, source, Token(name, call), target) == Some(kind)
      ensures Binds(nodes, source, target, kind)
    {
    }
    if Binds(nodes, source, target, kind) {
      assert Link(nodes, source, Token(name, kind != References), target) == Some(kind);
    }
  }

  lemma LinkName(nodes: set<CodeNode>, source: CodeNode, token: Token, target: CodeNode)
    requires Link(nodes, source, token, target).Some?
    ensures token.name == target.name
  {
  }

  lemma EdgeBinds(nodes: set<CodeNode>, source: CodeNode, target: CodeNode, kind: EdgeKind)
    requires DistinctIds(nodes) && source in nodes && target in nodes
    requires Edge(source.id, target.id, kind) in AllLinks(nodes)
    ensures Refers(source) && Binds(nodes, source, target, kind)
  {
    hide Binds, Link;
    var edge := Edge(source.id, target.id, kind);
    var s :| s in nodes && IsSource(s) && edge in LinksOf(nodes, s);
    var token, t :| token in s.tokens && t in nodes && Link(nodes, s, token, t).Some?
      && edge == Edge(s.id, t.id, Link(nodes, s, token, t).value);
    assert s == source && t == target;
    LinkName(nodes, s, token, t);
    assert token == Token(target.name, token.call);
    LinkBinds(nodes, source, target, kind);
  }

  lemma BindingIsEdge(nodes: set<CodeNode>, source: CodeNode, target: CodeNode, kind: EdgeKind)
    requires source in nodes && target in nodes && Refers(source) && Binds(nodes, source, target, kind)
    ensures Edge(source.id, target.id, kind) in AllLinks(nodes)
  {
    LinkBinds(nodes, source, target, kind);
    hide Binds, Link;
    var call :| Token(target.name, call) in source.tokens
      && Link(nodes, source, Token(target.name, call), target) == Some(kind);
    assert Edge(source.id, target.id, kind) in LinksOf(nodes, source);
  }

  /** The reference edges of a graph are exactly these. */
  lemma EdgesAreBindings(nodes: set<CodeNode>, source: CodeNode, target: CodeNode, kind: EdgeKind)
    requires DistinctIds(nodes) && source in nodes && target in nodes
    ensures Edge(source.id, target.id, kind) in AllLinks(nodes) <==>
      Refers(source) && Binds(nodes, source, target, kind)
  {
    hide Binds, AllLinks, Refers;
    if Edge(source.id, target.id, kind) in AllLinks(nodes) { EdgeBinds(nodes, source, target, kind); }
    if Refers(source) && Binds(nodes, source, target, kind) { BindingIsEdge(nodes, source, target, kind); }
  }

  // ---------------------------------------------------------------- case by case

  ghost function Definitions(nodes: set<CodeNode>, source: CodeNode, name: string): set<CodeNode> {
    set n | n in nodes && Defines(nodes, source, name, n)
  }

  ghost function DefinitionsHere(nodes: set<CodeNode>, source: CodeNode, name: string): set<CodeNode> {
    set n | n in nodes && DefinesHere(nodes, source, name, n)
  }

  /** The nodes called `name` to which the source has an edge of this kind. */
  ghost function Reached(nodes: set<CodeNode>, source: CodeNode, name: string, kind: EdgeKind): set<CodeNode> {
    set n | n in nodes && n.name == name && Edge(source.id, n.id, kind) in AllLinks(nodes)
  }

  lemma CallAt(nodes: set<CodeNode>, source: CodeNode, name: string, n: CodeNode)
    requires DistinctIds(nodes) && source in nodes && Refers(source) && CallsName(source, name) && n in nodes
    ensures var here, all := DefinitionsHere(nodes, source, name), Definitions(nodes, source, name);
      && (n in Reached(nodes, source, name, CallInferred) <==>
            (|here| == 1 && n in here) || (here == {} && |all| == 1 && n in all))
      && (n in Reached(nodes, source, name, CallAmbiguous) <==> |here| > 1 && n in here)
  {
    hide AllLinks, DefinitionsHere, Definitions;
    EdgesAreBindings(nodes, source, n, CallInferred);
    EdgesAreBindings(nodes, source, n, CallAmbiguous);
    MeaningBySize(nodes, source, name, n);
  }

  /** A call is bound to the one definition in the file; it may be any of several in the file; without one in the
      file, it is bound to the only one elsewhere, and to nothing if there are several. */
  lemma CallBinding(nodes: set<CodeNode>, source: CodeNode, name: string)
    requires DistinctIds(nodes) && source in nodes && Refers(source) && CallsName(source, name)
    ensures var here, all := DefinitionsHere(nodes, source, name), Definitions(nodes, source, name);
      var bound, ambiguous :=
        Reached(nodes, source, name, CallInferred), Reached(nodes, source, name, CallAmbiguous);
      && (|here| == 1 ==> bound == here && ambiguous == {})
      && (|here| > 1 ==> bound == {} && ambiguous == here)
      && (|here| == 0 && |all| == 1 ==> bound == all && ambiguous == {})
      && (|here| == 0 && |all| != 1 ==> bound == {} && ambiguous == {})
  {
    hide AllLinks, DefinesHere, Defines;
    var here, all := DefinitionsHere(nodes, source, name), Definitions(nodes, source, name);
    var bound, ambiguous := Reached(nodes, source, name, CallInferred), Reached(nodes, source, name, CallAmbiguous);
    forall n | n in nodes
      ensures n in bound <==> (|here| == 1 && n in here) || (here == {} && |all| == 1 && n in all)
      ensures n in ambiguous <==> |here| > 1 && n in here
    {
      CallAt(nodes, source, name, n);
    }
  }

  lemma MeaningBySize(nodes: set<CodeNode>, source: CodeNode, name: string, n: CodeNode)
    ensures var here, all := DefinitionsHere(nodes, source, name), Definitions(nodes, source, name);
      && (Means(nodes, source, name, n) <==> (|here| == 1 && n in here) || (here == {} && |all| == 1 && n in all))
      && (MayMean(nodes, source, name, n) <==> |here| > 1 && n in here)
  {
    var here, all := DefinitionsHere(nodes, source, name), Definitions(nodes, source, name);
    assert forall m :: m in all <==> Defines(nodes, source, name, m);
    assert forall m :: m in here <==> m in all && m.id.file == source.id.file;
    hide Defines, DefinitionsHere, Definitions;
    if n in here { SoleElement(here, n); }
    if n in all { SoleElement(all, n); }
    assert here <= all;
  }

  lemma MentionAt(nodes: set<CodeNode>, source: CodeNode, name: string, n: CodeNode)
    requires DistinctIds(nodes) && source in nodes && Refers(source) && MentionsName(source, name) && n in nodes
    ensures var here, all := DefinitionsHere(nodes, source, name), Definitions(nodes, source, name);
      n in Reached(nodes, source, name, References) <==>
        IsType(n) && ((|here| == 1 && n in here) || (here == {} && |all| == 1 && n in all))
  {
    hide AllLinks, DefinitionsHere, Definitions;
    EdgesAreBindings(nodes, source, n, References);
    MeaningBySize(nodes, source, name, n);
  }

  /** A mention without a call refers to a type that the name means beyond doubt, and to nothing else. */
  lemma MentionBinding(nodes: set<CodeNode>, source: CodeNode, name: string)
    requires DistinctIds(nodes) && source in nodes && Refers(source) && MentionsName(source, name)
    ensures var here, all := DefinitionsHere(nodes, source, name), Definitions(nodes, source, name);
      var meant := if |here| == 1 then here else if here == {} && |all| == 1 then all else {};
      Reached(nodes, source, name, References) == set n | n in meant && IsType(n)
  {
    hide AllLinks, DefinesHere, Defines, IsType;
    forall n | n in nodes { MentionAt(nodes, source, name, n); }
  }
}
