/** Splitting nodes into embedding requests (core/src/engine.rs, `node_batches`). */
module NodeBatches {
  import opened Basics
  import opened CodeModel

  const USIZE_MAX := 0xFFFF_FFFF_FFFF_FFFF

  type Usize = n: nat | n <= USIZE_MAX

  function SaturatingAdd(a: Usize, b: Usize): Usize {
    if a + b <= USIZE_MAX then a + b else USIZE_MAX
  }

  function Clamp(configured: Option<Usize>, fallback: Usize, low: Usize, high: Usize): Usize {
    var value := if configured.Some? then configured.value else fallback;
    if value < low then low else if high < value then high else value
  }

  function BatchSize(configured: Option<Usize>): (size: Usize)
    ensures 1 <= size <= 4096 && (configured.None? ==> size == 128)
    ensures configured.Some? && 1 <= configured.value <= 4096 ==> size == configured.value
    ensures configured.Some? && configured.value < 1 ==> size == 1
    ensures configured.Some? && configured.value > 4096 ==> size == 4096
  {
    Clamp(configured, 128, 1, 4096)
  }

  function BatchBytes(configured: Option<Usize>): (bytes: Usize)
    ensures 0x1_0000 <= bytes <= 0x400_0000 && (configured.None? ==> bytes == 0x40_0000)
    ensures configured.Some? && 0x1_0000 <= configured.value <= 0x400_0000 ==> bytes == configured.value
    ensures configured.Some? && configured.value < 0x1_0000 ==> bytes == 0x1_0000
    ensures configured.Some? && configured.value > 0x400_0000 ==> bytes == 0x400_0000
  {
    Clamp(configured, 4 * 1024 * 1024, 64 * 1024, 64 * 1024 * 1024)
  }

  /** Lengths are machine words. */
  function Length(s: string): Usize {
    if |s| <= USIZE_MAX then |s| else USIZE_MAX
  }

  function Weight(node: CodeNode): (weight: Usize)
    ensures var length := |node.text| + |node.id.file| + |":"| + |node.id.key|;
      weight == if length <= USIZE_MAX then length else USIZE_MAX
  {
    SaturatingAdd(Length(node.text), Length(SymbolId(node.id.file, node.id.key)))
  }

  function Total(nodes: seq<CodeNode>): nat {
    if nodes == [] then 0 else Total(nodes[..|nodes| - 1]) + Weight(nodes[|nodes| - 1])
  }

  function Joined<T>(batches: seq<seq<T>>): seq<T> {
    if batches == [] then [] else batches[0] + Joined(batches[1..])
  }

  /** A request: not empty, within the node bound, and within the byte bound unless it is one node. */
  predicate Admissible(batch: seq<CodeNode>, size: nat, bytes: nat) {
    0 < |batch| <= size && (|batch| == 1 || Total(batch) <= bytes)
  }

  ghost predicate Partition(batches: seq<seq<CodeNode>>, nodes: seq<CodeNode>, size: nat, bytes: nat) {
    Joined(batches) == nodes && forall i :: 0 <= i < |batches| ==> Admissible(batches[i], size, bytes)
  }

  lemma {:induction false} JoinedAppend<T>(batches: seq<seq<T>>, last: seq<T>)
    ensures Joined(batches + [last]) == Joined(batches) + last
  {
    if batches == [] {
      assert [last][1..] == [];
    } else {
      assert (batches + [last])[1..] == batches[1..] + [last];
      JoinedAppend(batches[1..], last);
      assert batches[0] + (Joined(batches[1..]) + last) == (batches[0] + Joined(batches[1..])) + last;
    }
  }

  lemma {:induction false} TotalConcat(a: seq<CodeNode>, b: seq<CodeNode>)
    ensures Total(a + b) == Total(a) + Total(b)
  {
    if b == [] {
      assert a + b == a;
    } else {
      assert (a + b)[..|a + b| - 1] == a + b[..|b| - 1];
      TotalConcat(a, b[..|b| - 1]);
    }
  }

  /** Part of an admissible stretch is admissible. */
  lemma SubAdmissible(nodes: seq<CodeNode>, b: nat, a: nat, e: nat, size: nat, bytes: nat)
    requires b <= a < e <= |nodes| && Admissible(nodes[b..e], size, bytes)
    ensures Admissible(nodes[a..e], size, bytes)
  {
    assert nodes[b..e] == nodes[b..a] + nodes[a..e];
    TotalConcat(nodes[b..a], nodes[a..e]);
  }

  lemma PrefixAdmissible(nodes: seq<CodeNode>, a: nat, m: nat, e: nat, size: nat, bytes: nat)
    requires a < m <= e <= |nodes| && Admissible(nodes[a..e], size, bytes)
    ensures Admissible(nodes[a..m], size, bytes)
  {
    assert nodes[a..e] == nodes[a..m] + nodes[m..e];
    TotalConcat(nodes[a..m], nodes[m..e]);
  }

  /** `end` is as far as an admissible batch starting at `start` can reach. */
  ghost predicate Furthest(nodes: seq<CodeNode>, start: nat, end: nat, size: nat, bytes: nat)
    requires start < end <= |nodes|
  {
    && Admissible(nodes[start..end], size, bytes)
    && forall e :: end < e <= |nodes| ==> !Admissible(nodes[start..e], size, bytes)
  }

  /** Batches cut at `cuts`, each reaching as far as it can. */
  ghost predicate Greedy(batches: seq<seq<CodeNode>>, cuts: seq<nat>, nodes: seq<CodeNode>, size: nat, bytes: nat) {
    && |cuts| == |batches| + 1 && cuts[0] == 0
    && (forall i :: 0 <= i < |cuts| ==> cuts[i] <= |nodes|)
    && forall i {:trigger batches[i]} :: 0 <= i < |batches| ==>
         cuts[i] < cuts[i + 1] && batches[i] == nodes[cuts[i]..cuts[i + 1]]
         && Furthest(nodes, cuts[i], cuts[i + 1], size, bytes)
  }

  lemma JoinedTake<T>(batches: seq<seq<T>>, k: nat)
    requires k < |batches|
    ensures Joined(batches[..k + 1]) == Joined(batches[..k]) + batches[k]
  {
    assert batches[..k + 1] == batches[..k] + [batches[k]];
    JoinedAppend(batches[..k], batches[k]);
  }

  lemma {:induction false} JoinedPrefix<T>(batches: seq<seq<T>>, k: nat)
    requires k <= |batches|
    ensures Joined(batches[..k]) <= Joined(batches)
    decreases |batches| - k
  {
    if k == |batches| {
      assert batches[..k] == batches;
    } else {
      JoinedTake(batches, k);
      JoinedPrefix(batches, k + 1);
    }
  }

  /** After equally many batches, no partition has got further than the greedy one. */
  lemma {:induction false} StaysAhead(greedy: seq<seq<CodeNode>>, cuts: seq<nat>, other: seq<seq<CodeNode>>,
                   nodes: seq<CodeNode>, size: nat, bytes: nat, k: nat)
    requires Greedy(greedy, cuts, nodes, size, bytes) && Partition(other, nodes, size, bytes)
    requires k <= |greedy| && k <= |other|
    ensures |Joined(other[..k])| <= cuts[k]
  {
    if k > 0 {
      StaysAhead(greedy, cuts, other, nodes, size, bytes, k - 1);
      JoinedTake(other, k - 1);
      JoinedPrefix(other, k);
      var b, e := |Joined(other[..k - 1])|, |Joined(other[..k])|;
      assert other[k - 1] == nodes[b..e] && greedy[k - 1] != [];
      if cuts[k - 1] < e {
        SubAdmissible(nodes, b, cuts[k - 1], e, size, bytes);
      }
    }
  }

  /** No contiguous partition within the bounds uses fewer batches than the greedy one. */
  lemma GreedyIsShortest(greedy: seq<seq<CodeNode>>, cuts: seq<nat>, other: seq<seq<CodeNode>>,
                         nodes: seq<CodeNode>, size: nat, bytes: nat)
    requires Greedy(greedy, cuts, nodes, size, bytes) && cuts[|greedy|] == |nodes|
    requires Partition(other, nodes, size, bytes)
    ensures |greedy| <= |other|
  {
    var k := if |other| < |greedy| then |other| else |greedy|;
    assert other[..|other|] == other;
    assert k < |greedy| ==> greedy[k] != [];
    StaysAhead(greedy, cuts, other, nodes, size, bytes, k);
  }

  /** The furthest reach of an inner loop that stops at the first node that does not fit. */
  lemma StopsFurthest(nodes: seq<CodeNode>, start: nat, end: nat, size: nat, bytes: nat)
    requires start < end <= |nodes| && Admissible(nodes[start..end], size, bytes)
    requires end == |nodes| || !Admissible(nodes[start..end + 1], size, bytes)
    ensures Furthest(nodes, start, end, size, bytes)
  {
    forall e | end < e <= |nodes| ensures !Admissible(nodes[start..e], size, bytes) {
      if Admissible(nodes[start..e], size, bytes) {
        PrefixAdmissible(nodes, start, end + 1, e, size, bytes);
      }
    }
  }

  lemma NothingTotal(nodes: seq<CodeNode>, start: nat)
    requires start <= |nodes|
    ensures Total(nodes[start..start]) == 0
  {
  }

  lemma TotalNext(nodes: seq<CodeNode>, start: nat, end: nat)
    requires start <= end < |nodes|
    ensures Total(nodes[start..end + 1]) == Total(nodes[start..end]) + Weight(nodes[end])
  {
    var longer := nodes[start..end + 1];
    assert longer[..|longer| - 1] == nodes[start..end];
  }

  /** The end of the batch that starts at `start`. Saturating addition changes nothing, since the byte
      bound is below the largest `usize`. */
  method NextEnd(nodes: seq<CodeNode>, start: nat, batchSize: Usize, batchBytes: Usize) returns (end: nat)
    requires start < |nodes| && 0 < batchSize && batchBytes < USIZE_MAX
    ensures start < end <= |nodes| && Furthest(nodes, start, end, batchSize, batchBytes)
  {
    hide Total, Weight;
    end := start;
    var bytes: Usize := 0;
    NothingTotal(nodes, start);
    while end < |nodes| && end - start < batchSize
      invariant start <= end <= |nodes| && end - start <= batchSize
      invariant bytes == if Total(nodes[start..end]) <= USIZE_MAX then Total(nodes[start..end]) else USIZE_MAX
      invariant start < end ==> Admissible(nodes[start..end], batchSize, batchBytes)
    {
      TotalNext(nodes, start, end);
      var nodeBytes: Usize := Weight(nodes[end]);
      if end > start && SaturatingAdd(bytes, nodeBytes) > batchBytes {
        break;
      }
      bytes := SaturatingAdd(bytes, nodeBytes);
      end := end + 1;
    }
    StopsFurthest(nodes, start, end, batchSize, batchBytes);
  }

  lemma GreedyExtends(batches: seq<seq<CodeNode>>, cuts: seq<nat>, nodes: seq<CodeNode>, end: nat,
                      size: nat, bytes: nat)
    requires Greedy(batches, cuts, nodes, size, bytes)
    requires cuts[|batches|] < end <= |nodes| && Furthest(nodes, cuts[|batches|], end, size, bytes)
    requires Joined(batches) == nodes[..cuts[|batches|]]
    ensures Greedy(batches + [nodes[cuts[|batches|]..end]], cuts + [end], nodes, size, bytes)
    ensures Joined(batches + [nodes[cuts[|batches|]..end]]) == nodes[..end]
  {
    hide Furthest, Joined;
    var batches', cuts' := batches + [nodes[cuts[|batches|]..end]], cuts + [end];
    forall i | 0 <= i < |batches'|
      ensures cuts'[i] < cuts'[i + 1] && batches'[i] == nodes[cuts'[i]..cuts'[i + 1]]
      ensures Furthest(nodes, cuts'[i], cuts'[i + 1], size, bytes)
    {
      assert i < |batches| ==> batches'[i] == batches[i];
    }
    JoinedAppend(batches, nodes[cuts[|batches|]..end]);
  }

  /** The batches concatenate to the nodes, each is an admissible request, and no admissible partition
      uses fewer. */
  method Batches(nodes: seq<CodeNode>, configuredSize: Option<Usize>, configuredBytes: Option<Usize>)
    returns (batches: seq<seq<CodeNode>>)
    ensures Partition(batches, nodes, BatchSize(configuredSize), BatchBytes(configuredBytes))
    ensures forall other :: Partition(other, nodes, BatchSize(configuredSize), BatchBytes(configuredBytes))
              ==> |batches| <= |other|
  {
    var batchSize, batchBytes := BatchSize(configuredSize), BatchBytes(configuredBytes);
    batches := [];
    var start := 0;
    ghost var cuts: seq<nat> := [0];
    while start < |nodes|
      invariant start <= |nodes|
      invariant Greedy(batches, cuts, nodes, batchSize, batchBytes) && cuts[|batches|] == start
      invariant Joined(batches) == nodes[..start]
    {
      var end := NextEnd(nodes, start, batchSize, batchBytes);
      GreedyExtends(batches, cuts, nodes, end, batchSize, batchBytes);
      batches := batches + [nodes[start..end]];
      cuts := cuts + [end];
      start := end;
    }
    assert nodes[..start] == nodes;
    forall other | Partition(other, nodes, batchSize, batchBytes) ensures |batches| <= |other| {
      GreedyIsShortest(batches, cuts, other, nodes, batchSize, batchBytes);
    }
  }
}
