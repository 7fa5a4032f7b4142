/** From parts to the whole graph: an up-to-date live index serves the graph, nodes and edges, that an
    index built from the disk from scratch would serve. */
module IndexedGraph {
  import opened CodeModel
  import opened LiveModel
  import opened LiveFreshness
  import opened CodeGraphObject

  /** The files of an index built from scratch. */
  function FreshFiles(disk: Disk): Graph {
    map f | f in disk :: Fresh(disk[f])
  }

  lemma SameParts(g: Graph, h: Graph)
    requires forall f: FileId :: PartOf(g, f) == PartOf(h, f)
    ensures NodesOf(g) == NodesOf(h) && StructureOf(g) == StructureOf(h)
  {
    forall n ensures n in NodesOf(g) <==> n in NodesOf(h) {
      if n in NodesOf(g) {
        var f :| f in g && n in g[f].nodes;
        assert n in PartOf(h, f).nodes;
      }
      if n in NodesOf(h) {
        var f :| f in h && n in h[f].nodes;
        assert n in PartOf(g, f).nodes;
      }
    }
    forall e ensures e in StructureOf(g) <==> e in StructureOf(h) {
      if e in StructureOf(g) {
        var f :| f in g && e in g[f].structure;
        assert e in PartOf(h, f).structure;
      }
      if e in StructureOf(h) {
        var f :| f in h && e in h[f].structure;
        assert e in PartOf(g, f).structure;
      }
    }
  }

  lemma UpToDateGraph(s: System)
    requires s.live.Up? && UpToDate(s)
    ensures NodesOf(s.live.graph) == NodesOf(FreshFiles(s.disk))
    ensures EdgesOf(s.live.graph) == EdgesOf(FreshFiles(s.disk))
  {
    forall f: FileId ensures PartOf(s.live.graph, f) == PartOf(FreshFiles(s.disk), f) {
      assert PartOf(s.live.graph, f) == Fresh(At(s.disk, f));
    }
    SameParts(s.live.graph, FreshFiles(s.disk));
  }

  function PartAfter(change: Change): Part {
    if change.part.Some? then change.part.value else EMPTY_PART
  }

  ghost predicate Touches(changes: seq<Change>, f: FileId) {
    exists i :: 0 <= i < |changes| && changes[i].file == f
  }

  /** The changes a round hands to the graph, in any order. */
  ghost predicate ChangesOf(changes: seq<Change>, prepared: Graph) {
    && (forall i :: 0 <= i < |changes| ==>
          changes[i].file in prepared && prepared[changes[i].file] == PartAfter(changes[i]))
    && forall f :: f in prepared ==> Touches(changes, f)
  }

  lemma {:induction false} UpdatedAt(files: Graph, changes: seq<Change>, f: FileId, part: Part)
    requires forall i :: 0 <= i < |changes| && changes[i].file == f ==> PartAfter(changes[i]) == part
    ensures PartOf(Updated(files, changes), f) == if Touches(changes, f) then part else PartOf(files, f)
  {
    if changes != [] {
      var init := changes[..|changes| - 1];
      UpdatedAt(files, init, f, part);
      if changes[|changes| - 1].file != f && Touches(changes, f) {
        var i :| 0 <= i < |changes| && changes[i].file == f;
        assert init[i].file == f;
      }
    }
  }

  /** Swapping a round's prepared files in the graph object and in the live index is the same. */
  lemma SwapIsUnion(files: Graph, changes: seq<Change>, prepared: Graph)
    requires ChangesOf(changes, prepared)
    ensures NodesOf(Updated(files, changes)) == NodesOf(files + prepared)
    ensures EdgesOf(Updated(files, changes)) == EdgesOf(files + prepared)
  {
    forall f: FileId ensures PartOf(Updated(files, changes), f) == PartOf(files + prepared, f) {
      UpdatedAt(files, changes, f, PartOf(prepared, f));
      if f in prepared { assert Touches(changes, f); }
    }
    SameParts(Updated(files, changes), files + prepared);
  }
}
