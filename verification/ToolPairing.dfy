/** Tool-call balance of surface cuts (backend/pkg/compaction/toolpairing.go). */
module ToolPairing {
  import opened Wrappers
  import opened SessionEvents

  // ---------------------------------------------------------------- specification

  function CountCalls(blocks: seq<ContentBlock>): nat {
    if blocks == [] then 0
    else CountCalls(blocks[..|blocks| - 1]) + if blocks[|blocks| - 1].ToolCallBlock? then 1 else 0
  }

  /** How one event changes the number of open tool calls; `None` when its payload does not decode. */
  function ToolDelta(e: Envelope): Option<int> {
    match e.kind
    case AssistantMessage =>
      if e.data.AssistantData? then Some(CountCalls(e.data.message.content) as int) else None
    case ToolResult => Some(-1)
    case _ => Some(0)
  }

  /** The last event of each seq. */
  function BySeq(events: seq<Envelope>): map<int, Envelope> {
    if events == [] then map[]
    else BySeq(events[..|events| - 1])[events[|events| - 1].seqNo := events[|events| - 1]]
  }

  /** The delta of each seq whose event decodes. */
  /** The events of some seqs. */
  function Fetch(bySeq: map<int, Envelope>, seqs: seq<int>): (es: seq<Envelope>)
    requires forall i :: 0 <= i < |seqs| ==> seqs[i] in bySeq
    ensures |es| == |seqs| && forall i :: 0 <= i < |seqs| ==> es[i] == bySeq[seqs[i]]
  {
    seq(|seqs|, i requires 0 <= i < |seqs| => bySeq[seqs[i]])
  }

  function Deltas(events: seq<Envelope>): map<int, int> {
    if events == [] then map[]
    else
      var e := events[|events| - 1];
      var d := Deltas(events[..|events| - 1]);
      match ToolDelta(e)
      case None => d - {e.seqNo}
      case Some(k) => d[e.seqNo := k]
  }

  lemma {:induction false} DeltasBySeq(events: seq<Envelope>)
    ensures forall q :: q in Deltas(events) <==> q in BySeq(events) && ToolDelta(BySeq(events)[q]).Some?
    ensures forall q :: q in Deltas(events) ==> ToolDelta(BySeq(events)[q]) == Some(Deltas(events)[q])
    decreases |events|
  {
    hide ToolDelta;
    if events != [] {
      DeltasBySeq(events[..|events| - 1]);
    }
  }

  /** Open tool calls at the end of a run of surface nodes; a node of unknown delta counts as 0. */
  function Depth(d: map<int, int>, nodes: seq<int>): int {
    if nodes == [] then 0
    else
      var q := nodes[|nodes| - 1];
      Depth(d, nodes[..|nodes| - 1]) + if q in d then d[q] else 0
  }

  /** No node is unknown and no tool result comes before its call: the surface is not corrupt. */
  ghost predicate Clean(d: map<int, int>, nodes: seq<int>) {
    && (forall i :: 0 <= i < |nodes| ==> nodes[i] in d)
    && (forall k :: 0 <= k <= |nodes| ==> Depth(d, nodes[..k]) >= 0)
  }

  /** The balance of every cut, from the definition of a cut rather than from the running count. */
  ghost function Balances(d: map<int, int>, nodes: seq<int>): (b: seq<bool>)
    ensures |b| == |nodes| + 1
  {
    seq(|nodes| + 1, i requires 0 <= i <= |nodes| => Depth(d, nodes[..i]) == 0)
  }

  // ---------------------------------------------------------------- the scans of the source

  method EventToolDelta(e: Envelope) returns (delta: Option<int>)
    ensures delta == ToolDelta(e)
  {
    match e.kind {
      case AssistantMessage =>
        if !e.data.AssistantData? {
          return None;
        }
        var blocks := e.data.message.content;
        var count := 0;
        for i := 0 to |blocks|
          invariant count == CountCalls(blocks[..i])
        {
          assert blocks[..i + 1][..i] == blocks[..i];
          if blocks[i].ToolCallBlock? {
            count := count + 1;
          }
        }
        assert blocks[..|blocks|] == blocks;
        return Some(count);
      case ToolResult => return Some(-1);
      case _ => return Some(0);
    }
  }

  method IndexBySeq(events: seq<Envelope>) returns (bySeq: map<int, Envelope>)
    ensures bySeq == BySeq(events)
  {
    bySeq := map[];
    for i := 0 to |events|
      invariant bySeq == BySeq(events[..i])
    {
      assert events[..i + 1][..i] == events[..i];
      bySeq := bySeq[events[i].seqNo := events[i]];
    }
    assert events[..|events|] == events;
  }

  /** Succeeds exactly on uncorrupted surfaces, with the balance of every one of the N+1 cuts. */
  method CutBalances(events: seq<Envelope>, nodes: seq<int>) returns (r: Option<seq<bool>>)
    ensures r.Some? <==> Clean(Deltas(events), nodes)
    ensures r.Some? ==> r.value == Balances(Deltas(events), nodes)
  {
    hide ToolDelta, BySeq, Deltas;
    var bySeq := IndexBySeq(events);
    ghost var d := Deltas(events);
    DeltasBySeq(events);
    var balances := [true];
    var inProgress := 0;
    for i := 0 to |nodes|
      invariant inProgress == Depth(d, nodes[..i])
      invariant forall k :: 0 <= k < i ==> nodes[k] in d
      invariant forall k :: 0 <= k <= i ==> Depth(d, nodes[..k]) >= 0
      invariant |balances| == i + 1
      invariant forall k :: 0 <= k <= i ==> (balances[k] <==> Depth(d, nodes[..k]) == 0)
    {
      assert nodes[..i + 1][..i] == nodes[..i];
      if nodes[i] !in bySeq {
        return None;
      }
      var delta := EventToolDelta(bySeq[nodes[i]]);
      if delta.None? {
        return None;
      }
      inProgress := inProgress + delta.value;
      assert inProgress == Depth(d, nodes[..i + 1]);
      if inProgress < 0 {
        return None;
      }
      balances := balances + [inProgress == 0];
    }
    return Some(balances);
  }

  // ---------------------------------------------------------------- list surgery

  lemma {:induction false} DepthConcat(d: map<int, int>, a: seq<int>, b: seq<int>)
    ensures Depth(d, a + b) == Depth(d, a) + Depth(d, b)
    decreases |b|
  {
    if b == [] {
      assert a + b == a;
    } else {
      assert (a + b)[..|a + b| - 1] == a + b[..|b| - 1];
      DepthConcat(d, a, b[..|b| - 1]);
    }
  }

  lemma {:induction false} DepthSame(d: map<int, int>, d': map<int, int>, nodes: seq<int>)
    requires forall i :: 0 <= i < |nodes| ==> nodes[i] in d && nodes[i] in d' && d[nodes[i]] == d'[nodes[i]]
    ensures Depth(d, nodes) == Depth(d', nodes)
    decreases |nodes|
  {
    if nodes != [] {
      DepthSame(d, d', nodes[..|nodes| - 1]);
    }
  }

  /** The surface with one node in place of the span `i..j`, as a replacement leaves it. */
  function Spliced(nodes: seq<int>, i: nat, j: nat, x: int): seq<int>
    requires i <= j < |nodes|
  {
    nodes[..i] + [x] + nodes[j + 1..]
  }

  /** The cut of the old surface that a cut of the spliced surface stands for. */
  function OldCut(i: nat, j: nat, k: nat): nat
    requires i <= j
  {
    if k <= i then k else k + (j - i)
  }

  lemma SpliceCut(d: map<int, int>, nodes: seq<int>, i: nat, j: nat, x: int, k: nat)
    requires i <= j < |nodes| && k <= |Spliced(nodes, i, j, x)|
    requires x in d && d[x] == 0
    requires Depth(d, nodes[..i]) == Depth(d, nodes[..j + 1])
    ensures Depth(d, Spliced(nodes, i, j, x)[..k]) == Depth(d, nodes[..OldCut(i, j, k)])
  {
    var s := Spliced(nodes, i, j, x);
    if k <= i {
      assert s[..k] == nodes[..k];
    } else {
      var tail := nodes[j + 1..k + (j - i)];
      assert s[..k] == (nodes[..i] + [x]) + tail;
      assert nodes[..k + (j - i)] == nodes[..j + 1] + tail;
      DepthConcat(d, nodes[..i] + [x], tail);
      DepthConcat(d, nodes[..j + 1], tail);
      assert (nodes[..i] + [x])[..i] == nodes[..i];
    }
  }

  /** `d'` knows every delta `d` knows. */
  ghost predicate Extends(d: map<int, int>, d': map<int, int>) {
    forall q <- d.Keys :: q in d'.Keys && d'[q] == d[q]
  }

  lemma SplicedDepths(d: map<int, int>, d': map<int, int>, nodes: seq<int>, i: nat, j: nat, x: int)
    requires i <= j < |nodes| && Clean(d, nodes) && Extends(d, d')
    requires Depth(d, nodes[..i]) == Depth(d, nodes[..j + 1])
    requires x in d' && d'[x] == 0
    ensures var s := Spliced(nodes, i, j, x);
            && (forall k :: 0 <= k < |s| ==> s[k] in d')
            && (forall k :: 0 <= k <= |s| ==> Depth(d', s[..k]) == Depth(d, nodes[..OldCut(i, j, k)]))
  {
    hide Depth;
    var s := Spliced(nodes, i, j, x);
    forall k | 0 <= k < |nodes| ensures nodes[k] in d && nodes[k] in d' && d'[nodes[k]] == d[nodes[k]] {
      var q := nodes[k];
      assert q in d.Keys;
    }
    forall k | 0 <= k < |s| ensures s[k] in d' {
      assert s[k] == if k < i then nodes[k] else if k == i then x else nodes[k + (j - i)];
    }
    forall k | 0 <= k <= |nodes| ensures Depth(d', nodes[..k]) == Depth(d, nodes[..k]) {
      DepthSame(d, d', nodes[..k]);
    }
    forall k | 0 <= k <= |s| ensures Depth(d', s[..k]) == Depth(d, nodes[..OldCut(i, j, k)]) {
      SpliceCut(d', nodes, i, j, x, k);
    }
  }

  /** Replacing a span with balanced ends by one node without tool calls keeps the surface clean,
      keeps the balance of every cut outside the span and the number of calls open at the end. */
  lemma ReplaceKeepsPairing(d: map<int, int>, d': map<int, int>, nodes: seq<int>, i: nat, j: nat, x: int)
    requires i <= j < |nodes| && Clean(d, nodes)
    requires Balances(d, nodes)[i] && Balances(d, nodes)[j + 1]
    requires Extends(d, d')
    requires x in d' && d'[x] == 0
    ensures Clean(d', Spliced(nodes, i, j, x))
    ensures forall k :: 0 <= k <= |Spliced(nodes, i, j, x)| ==>
              Balances(d', Spliced(nodes, i, j, x))[k] == Balances(d, nodes)[OldCut(i, j, k)]
    ensures Depth(d', Spliced(nodes, i, j, x)) == Depth(d, nodes)
  {
    hide Depth;
    var s := Spliced(nodes, i, j, x);
    SplicedDepths(d, d', nodes, i, j, x);
    assert s[..|s|] == s && nodes[..|nodes|] == nodes;
    assert Depth(d', s[..|s|]) == Depth(d, nodes[..OldCut(i, j, |s|)]);
    forall k | 0 <= k <= |s| ensures Depth(d', s[..k]) >= 0 {
      assert Depth(d, nodes[..OldCut(i, j, k)]) >= 0;
    }
  }
}
