/** The vector table: rows owned by files, replaced file by file (core/src/vector/store.rs). */
module VectorRows {
  import opened Basics
  import opened CodeModel

  /** The vector of a text. The embedder is a pure function of the text; the model keeps the
      application itself, so nothing else about vectors can be used. */
  datatype Vector = Vector(text: string)

  /** `file` is the file the row was written for. The table itself holds only the id, the text and the
      vector: which rows a deletion takes is decided by the id. */
  datatype Row = Row(file: FileId, id: string, text: string, vector: Vector)

  /** A node waiting to be embedded, with the file it was parsed from. */
  datatype Queued = Queued(file: FileId, node: CodeNode)

  type Table = seq<Row>
  type Known = map<string, Vector>

  function Embed(text: string): Vector {
    Vector(text)
  }

  /** The vector of a text, reusing one read from the table when there is one. */
  function VectorOf(text: string, known: Known): Vector {
    if text in known then known[text] else Embed(text)
  }

  predicate IsEmbeddable(node: CodeNode) {
    node.kind in {Function, Method, Class, Struct}
  }

  function Embeddable(f: FileId, nodes: seq<CodeNode>): seq<Queued> {
    if nodes == [] then []
    else (if IsEmbeddable(nodes[0]) then [Queued(f, nodes[0])] else []) + Embeddable(f, nodes[1..])
  }

  function EmbedAll(nodes: seq<Queued>, known: Known): seq<Row> {
    seq(|nodes|, i requires 0 <= i < |nodes| =>
      Row(nodes[i].file, SymbolId(nodes[i].file, nodes[i].node.id.key), nodes[i].node.text,
          VectorOf(nodes[i].node.text, known)))
  }

  /** The rows a full rebuild writes for a file with this part. */
  function RowsFor(f: FileId, part: Part): seq<Row> {
    EmbedAll(Embeddable(f, part.nodes), map[])
  }

  /** The rows of the table that were written for a file. */
  function Owned(table: Table, f: FileId): seq<Row> {
    if table == [] then []
    else (if table[0].file == f then [table[0]] else []) + Owned(table[1..], f)
  }

  /** What the deletion of a file's rows, and the query for them, take to be its ids. */
  predicate Covers(f: FileId, id: string) {
    id == f || f + ":" <= id || f + "#" <= id
  }

  function Covered(table: Table, f: FileId): seq<Row> {
    if table == [] then []
    else (if Covers(f, table[0].id) then [table[0]] else []) + Covered(table[1..], f)
  }

  /** The table after deleting a file's rows. */
  function Without(table: Table, f: FileId): Table {
    if table == [] then []
    else (if Covers(f, table[0].id) then [] else [table[0]]) + Without(table[1..], f)
  }

  function KnownVectors(rows: seq<Row>): Known {
    if rows == [] then map[]
    else KnownVectors(rows[..|rows| - 1])[rows[|rows| - 1].text := rows[|rows| - 1].vector]
  }

  function Flatten(batches: seq<seq<Row>>): seq<Row> {
    if batches == [] then [] else batches[0] + Flatten(batches[1..])
  }

  /** Every row has the id of a symbol of its file. */
  predicate RowsNamed(rows: seq<Row>) {
    forall i :: 0 <= i < |rows| ==> rows[i].file + ":" <= rows[i].id
  }

  predicate RowsExact(rows: seq<Row>) {
    forall i :: 0 <= i < |rows| ==> rows[i].vector == Embed(rows[i].text)
  }

  ghost predicate KnownExact(known: Known) {
    forall t :: t in known ==> known[t] == Embed(t)
  }

  lemma {:induction false} OwnedConcat(a: Table, b: Table, f: FileId)
    ensures Owned(a + b, f) == Owned(a, f) + Owned(b, f)
  {
    if a == [] {
      assert a + b == b;
    } else {
      TailOfConcat(a, b);
      OwnedConcat(a[1..], b, f);
      Associate(if a[0].file == f then [a[0]] else [], Owned(a[1..], f), Owned(b, f));
    }
  }

  lemma {:induction false} OwnedBy(table: Table, f: FileId)
    ensures forall i :: 0 <= i < |Owned(table, f)| ==> Owned(table, f)[i].file == f
  {
    if table != [] { OwnedBy(table[1..], f); }
  }

  lemma {:induction false} WithoutConcat(a: Table, b: Table, f: FileId)
    ensures Without(a + b, f) == Without(a, f) + Without(b, f)
  {
    if a == [] {
      assert a + b == b;
    } else {
      TailOfConcat(a, b);
      WithoutConcat(a[1..], b, f);
      Associate(if Covers(f, a[0].id) then [] else [a[0]], Without(a[1..], f), Without(b, f));
    }
  }

  /** Of every file's rows, a deletion takes those with an id of the deleted file, and keeps the order. */
  lemma {:induction false} WithoutOwned(table: Table, f: FileId, g: FileId)
    ensures Owned(Without(table, f), g) == Without(Owned(table, g), f)
  {
    if table != [] {
      var head, rest := [table[0]], table[1..];
      WithoutOwned(rest, f, g);
      OwnedConcat(if Covers(f, table[0].id) then [] else head, Without(rest, f), g);
      WithoutConcat(if table[0].file == g then head else [], Owned(rest, g), f);
      assert head[1..] == [];
    }
  }

  /** One of the paths goes on where the other one ends, as an id would. */
  predicate Clash(f: FileId, g: FileId) {
    f + ":" <= g || f + "#" <= g || g + ":" <= f
  }

  lemma CoversOther(f: FileId, g: FileId, id: string)
    requires f != g && g + ":" <= id && Covers(f, id)
    ensures Clash(f, g)
  {
    assert f == id[..|f|] && g == id[..|g|];
    if |g| < |f| {
      assert g + ":" == f[..|g| + 1];
    } else if |f| < |g| {
      assert g[|f|] == id[|f|];
      assert id[|f|] == (if f + "#" <= id then '#' else ':');
    }
  }

  lemma {:induction false} AllCovered(rows: seq<Row>, f: FileId)
    requires RowsNamed(rows) && forall i :: 0 <= i < |rows| ==> rows[i].file == f
    ensures Without(rows, f) == []
  {
    if rows != [] {
      assert forall i :: 0 <= i < |rows[1..]| ==> rows[1..][i] == rows[i + 1];
      AllCovered(rows[1..], f);
    }
  }

  lemma {:induction false} NoneCovered(rows: seq<Row>, f: FileId)
    requires forall i :: 0 <= i < |rows| ==> !Covers(f, rows[i].id)
    ensures Without(rows, f) == rows
  {
    if rows != [] {
      assert forall i :: 0 <= i < |rows[1..]| ==> rows[1..][i] == rows[i + 1];
      NoneCovered(rows[1..], f);
    }
  }

  /** Deleting a file's rows leaves none of them, and leaves another file's rows alone unless the paths
      clash. */
  lemma WithoutFile(table: Table, f: FileId, g: FileId)
    requires RowsNamed(table)
    ensures g == f ==> Owned(Without(table, f), g) == []
    ensures g != f && !Clash(f, g) ==> Owned(Without(table, f), g) == Owned(table, g)
  {
    WithoutOwned(table, f, g);
    OwnedNamed(table, g);
    OwnedBy(table, g);
    var rows := Owned(table, g);
    if g == f {
      AllCovered(rows, f);
    } else if !Clash(f, g) {
      forall i | 0 <= i < |rows| ensures !Covers(f, rows[i].id) {
        if Covers(f, rows[i].id) { CoversOther(f, g, rows[i].id); }
      }
      NoneCovered(rows, f);
    }
  }

  ghost predicate LeavesAlone(f: FileId, g: FileId) {
    forall table: Table :: RowsNamed(table) ==> Owned(Without(table, f), g) == Owned(table, g)
  }

  /** The deletion of one file's rows leaves the rows of another alone, whatever the table holds, exactly
      if the two paths do not clash. */
  lemma LeavesAloneExactly(f: FileId, g: FileId)
    requires f != g
    ensures LeavesAlone(f, g) <==> !Clash(f, g)
  {
    if Clash(f, g) {
      var key := if g + ":" <= f then f[|g| + 1..] + ":" else "";
      var row := Row(g, SymbolId(g, key), "", Embed(""));
      assert Covers(f, row.id) by {
        if g + ":" <= f {
          assert g + ":" == f[..|g| + 1];
          assert f + ":" == SymbolId(g, key);
        } else if f + ":" <= g {
          assert f + ":" <= SymbolId(g, key);
        } else {
          assert f + "#" <= SymbolId(g, key);
        }
      }
      var table := [row];
      assert table[1..] == [];
      assert RowsNamed(table) && Without(table, f) == [] && Owned(table, g) == table;
    } else {
      forall table: Table | RowsNamed(table) ensures Owned(Without(table, f), g) == Owned(table, g) {
        WithoutFile(table, f, g);
      }
    }
  }

  lemma {:induction false} OwnedNamed(table: Table, f: FileId)
    requires RowsNamed(table)
    ensures RowsNamed(Owned(table, f))
  {
    if table != [] {
      assert forall i :: 0 <= i < |table[1..]| ==> table[1..][i] == table[i + 1];
      OwnedNamed(table[1..], f);
    }
  }

  lemma {:induction false} WithoutNamed(table: Table, f: FileId)
    requires RowsNamed(table)
    ensures RowsNamed(Without(table, f))
  {
    if table != [] {
      assert forall i :: 0 <= i < |table[1..]| ==> table[1..][i] == table[i + 1];
      WithoutNamed(table[1..], f);
    }
  }

  lemma {:induction false} WithoutExact(table: Table, f: FileId)
    requires RowsExact(table)
    ensures RowsExact(Without(table, f))
  {
    if table != [] {
      assert forall i :: 0 <= i < |table[1..]| ==> table[1..][i] == table[i + 1];
      WithoutExact(table[1..], f);
    }
  }

  lemma {:induction false} CoveredExact(table: Table, f: FileId)
    requires RowsExact(table)
    ensures RowsExact(Covered(table, f))
  {
    if table != [] {
      assert forall i :: 0 <= i < |table[1..]| ==> table[1..][i] == table[i + 1];
      CoveredExact(table[1..], f);
    }
  }

  lemma {:induction false} KnownVectorsExact(rows: seq<Row>)
    requires RowsExact(rows)
    ensures KnownExact(KnownVectors(rows))
  {
    if rows != [] {
      KnownVectorsExact(rows[..|rows| - 1]);
    }
  }

  /** The vectors of all rows with an id of the file are known. */
  lemma {:induction false} CoveredIsKnown(table: Table, f: FileId)
    ensures forall r :: r in table && Covers(f, r.id) ==> r in Covered(table, f)
    ensures forall r :: r in Covered(table, f) ==> r.text in KnownVectors(Covered(table, f))
  {
    AllKnown(Covered(table, f));
    if table != [] { CoveredIsKnown(table[1..], f); }
  }

  lemma {:induction false} AllKnown(rows: seq<Row>)
    ensures forall r :: r in rows ==> r.text in KnownVectors(rows)
  {
    if rows != [] {
      var init := rows[..|rows| - 1];
      AllKnown(init);
      assert rows == init + [rows[|rows| - 1]];
    }
  }

  /** Reused vectors equal freshly computed ones. */
  lemma ReuseIsFresh(nodes: seq<Queued>, known: Known)
    requires KnownExact(known)
    ensures EmbedAll(nodes, known) == EmbedAll(nodes, map[])
    ensures RowsExact(EmbedAll(nodes, known)) && RowsNamed(EmbedAll(nodes, known))
  {
  }

  lemma EmbedAllConcat(a: seq<Queued>, b: seq<Queued>, known: Known)
    ensures EmbedAll(a + b, known) == EmbedAll(a, known) + EmbedAll(b, known)
  {
    var whole, parts := EmbedAll(a + b, known), EmbedAll(a, known) + EmbedAll(b, known);
    assert |whole| == |parts|;
    assert forall i :: 0 <= i < |whole| ==> whole[i] == parts[i];
  }

  /** A file's part only yields rows owned by that file. */
  lemma {:induction false} RowsForOwned(f: FileId, nodes: seq<CodeNode>, g: FileId)
    ensures Owned(EmbedAll(Embeddable(f, nodes), map[]), g)
         == if g == f then EmbedAll(Embeddable(f, nodes), map[]) else []
  {
    if nodes != [] {
      var head := if IsEmbeddable(nodes[0]) then [Queued(f, nodes[0])] else [];
      var rest := Embeddable(f, nodes[1..]);
      EmbedAllConcat(head, rest, map[]);
      RowsForOwned(f, nodes[1..], g);
      OwnedConcat(EmbedAll(head, map[]), EmbedAll(rest, map[]), g);
    }
  }

  // ---------------------------------------------------------------- what the rows hold

  /** The row of a node: its id, its text and the vector of its text. */
  predicate IsRowOf(r: Row, f: FileId, n: CodeNode) {
    r.file == f && r.id == f + ":" + n.id.key && r.text == n.text && r.vector == Vector(n.text)
  }

  /** One row for each of the nodes, in order. */
  ghost predicate AreRowsOf(rows: seq<Row>, queue: seq<Queued>) {
    |rows| == |queue| && forall i :: 0 <= i < |rows| ==> IsRowOf(rows[i], queue[i].file, queue[i].node)
  }

  lemma EmbeddedRows(queue: seq<Queued>, known: Known)
    requires KnownExact(known)
    ensures AreRowsOf(EmbedAll(queue, known), queue)
  {
  }

  predicate IsCallableOrType(n: CodeNode) {
    n.kind == Function || n.kind == Method || n.kind == Class || n.kind == Struct
  }

  /** The positions of the functions, methods, classes and structs among the nodes, in order. */
  ghost predicate Positions(at: seq<nat>, nodes: seq<CodeNode>) {
    && (forall i, j :: 0 <= i < j < |at| ==> at[i] < at[j])
    && forall k: nat :: k in at <==> k < |nodes| && IsCallableOrType(nodes[k])
  }

  /** A file has one row for each of its functions, methods, classes and structs, in the order of the nodes, with
      the node's text and the vector of that text, and no other row. */
  lemma RowsForNodes(f: FileId, part: Part)
    ensures var rows := RowsFor(f, part);
      exists at :: Positions(at, part.nodes) && |rows| == |at|
        && forall i :: 0 <= i < |rows| ==> at[i] in at && IsRowOf(rows[i], f, part.nodes[at[i]])
  {
    var at := QueuedNodes(f, part.nodes);
    EmbeddedRows(Embeddable(f, part.nodes), map[]);
    var rows := RowsFor(f, part);
    forall i | 0 <= i < |rows| ensures at[i] in at && IsRowOf(rows[i], f, part.nodes[at[i]]) {
      assert Embeddable(f, part.nodes)[i] == Queued(f, part.nodes[at[i]]);
    }
  }

  function Shifted(at: seq<nat>): seq<nat> {
    seq(|at|, i requires 0 <= i < |at| => at[i] + 1)
  }

  lemma ShiftedPositions(at: seq<nat>, nodes: seq<CodeNode>)
    requires nodes != [] && Positions(at, nodes[1..])
    ensures forall k: nat :: k in Shifted(at) <==> 0 < k < |nodes| && IsCallableOrType(nodes[k])
  {
    hide IsCallableOrType;
    forall k: nat ensures k in Shifted(at) <==> k > 0 && k - 1 in at {
      if k in Shifted(at) {
        var i :| 0 <= i < |at| && Shifted(at)[i] == k;
        assert at[i] in at;
      }
      if k > 0 && k - 1 in at {
        var i :| 0 <= i < |at| && at[i] == k - 1;
        assert Shifted(at)[i] == k;
      }
    }
  }

  lemma FirstPosition(at: seq<nat>, nodes: seq<CodeNode>)
    requires nodes != [] && Positions(at, nodes[1..])
    ensures Positions(if IsCallableOrType(nodes[0]) then [0] + Shifted(at) else Shifted(at), nodes)
  {
    ShiftedPositions(at, nodes);
    hide IsCallableOrType;
  }

  lemma EmbeddableHead(f: FileId, nodes: seq<CodeNode>)
    requires nodes != []
    ensures Embeddable(f, nodes)
      == (if IsCallableOrType(nodes[0]) then [Queued(f, nodes[0])] else []) + Embeddable(f, nodes[1..])
  {
  }

  /** The queue holds the nodes at these positions. */
  ghost predicate Picks(queue: seq<Queued>, f: FileId, nodes: seq<CodeNode>, at: seq<nat>) {
    |queue| == |at| && forall i :: 0 <= i < |at| ==> at[i] < |nodes| && queue[i] == Queued(f, nodes[at[i]])
  }

  lemma PicksShifted(queue: seq<Queued>, f: FileId, nodes: seq<CodeNode>, at: seq<nat>)
    requires nodes != [] && Picks(queue, f, nodes[1..], at)
    ensures Picks(queue, f, nodes, Shifted(at))
    ensures Picks([Queued(f, nodes[0])] + queue, f, nodes, [0] + Shifted(at))
  {
  }

  lemma {:induction false} QueuedNodes(f: FileId, nodes: seq<CodeNode>) returns (at: seq<nat>)
    ensures Positions(at, nodes) && Picks(Embeddable(f, nodes), f, nodes, at)
  {
    at := [];
    if nodes != [] {
      hide Positions, Embeddable, Picks, IsCallableOrType, Shifted;
      at := QueuedNodes(f, nodes[1..]);
      EmbeddableHead(f, nodes);
      FirstPosition(at, nodes);
      PicksShifted(Embeddable(f, nodes[1..]), f, nodes, at);
      if IsCallableOrType(nodes[0]) {
        at := [0] + Shifted(at);
      } else {
        assert [] + Embeddable(f, nodes[1..]) == Embeddable(f, nodes[1..]);
        at := Shifted(at);
      }
    }
  }

  lemma EmbeddableAre(f: FileId, nodes: seq<CodeNode>)
    ensures forall n :: n in nodes && IsCallableOrType(n) ==> Queued(f, n) in Embeddable(f, nodes)
    ensures forall q :: q in Embeddable(f, nodes) ==> q.file == f && q.node in nodes && IsCallableOrType(q.node)
  {
    var at := QueuedNodes(f, nodes);
    forall n | n in nodes && IsCallableOrType(n) ensures Queued(f, n) in Embeddable(f, nodes) {
      var k :| 0 <= k < |nodes| && nodes[k] == n;
      assert k in at;
      var i :| 0 <= i < |at| && at[i] == k;
      assert Embeddable(f, nodes)[i] == Queued(f, n);
    }
    forall q | q in Embeddable(f, nodes) ensures q.file == f && q.node in nodes && IsCallableOrType(q.node) {
      var i :| 0 <= i < |Embeddable(f, nodes)| && Embeddable(f, nodes)[i] == q;
      assert at[i] in at;
    }
  }
}
