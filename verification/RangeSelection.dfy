/** Choosing and validating the span to compact (backend/pkg/compaction/compactor.go). */
module RangeSelection {
  import opened Wrappers
  import opened SessionEvents
  import opened Surface
  import opened ToolPairing

  /** Inclusive surface seqs of a span. */
  datatype SurfaceSpan = SurfaceSpan(start: int, end: int)

  datatype SurfaceSelection = SurfaceSelection(span: SurfaceSpan, startIdx: nat, endIdx: nat, shadowed: seq<int>)

  // ---------------------------------------------------------------- specification

  /** Total price of the nodes kept when everything before cut `c` is compacted. */
  ghost function Kept(priced: seq<int>, c: nat): int
    requires c <= |priced|
    decreases |priced| - c
  {
    if c == |priced| then 0 else priced[c] + Kept(priced, c + 1)
  }

  /** The latest cut before `n` whose kept tail reaches the budget, or 0. */
  ghost function BudgetCut(priced: seq<int>, retain: int, n: nat): (c: nat)
    requires n <= |priced|
    ensures c == 0 || c < n
    ensures c > 0 ==> Kept(priced, c) >= retain
    ensures forall k :: c < k < n ==> Kept(priced, k) < retain
  {
    if n == 0 then 0
    else if n == 1 || Kept(priced, n - 1) >= retain then n - 1
    else BudgetCut(priced, retain, n - 1)
  }

  /** The latest balanced cut not after `c`, or 0. */
  ghost function LatestBalanced(b: seq<bool>, c: nat): (k: nat)
    requires c < |b|
    ensures k <= c
    ensures k > 0 ==> b[k]
    ensures forall m :: k < m <= c ==> !b[m]
  {
    if c == 0 || b[c] then c else LatestBalanced(b, c - 1)
  }

  /** Number of head nodes to compact; 0 when no safe range exists. */
  ghost function Selected(d: map<int, int>, nodes: seq<int>, priced: seq<int>, retain: int): nat
    requires |priced| == |nodes|
  {
    LatestBalanced(Balances(d, nodes), BudgetCut(priced, retain, |nodes|))
  }

  /** What `ValidateSurfaceRegion` accepts, and with which positions. */
  ghost function Region(d: map<int, int>, nodes: seq<int>, start: int, end: int): Option<SurfaceSelection> {
    var i, j := IndexOf(nodes, start), IndexOf(nodes, end);
    if i == |nodes| || j == |nodes| || i > j || !Clean(d, nodes) then None
    else if !Balances(d, nodes)[i] || !Balances(d, nodes)[j + 1] then None
    else Some(SurfaceSelection(SurfaceSpan(start, end), i, j, nodes[i..j + 1]))
  }

  // ---------------------------------------------------------------- the scans of the source

  /** `priced` is what the engine's meter answered. */
  method SelectCompactableRange(events: seq<Envelope>, nodes: seq<int>, priced: Option<seq<int>>, retain: int)
    returns (r: Result<Option<SurfaceSpan>, ()>)
    ensures nodes == [] ==> r == Ok(None)
    ensures nodes != [] && (priced.None? || |priced.value| != |nodes|) ==> r == Err(())
    ensures nodes != [] && priced.Some? && |priced.value| == |nodes| ==>
              r == if BudgetCut(priced.value, retain, |nodes|) == 0 then Ok(None)
                   else if !Clean(Deltas(events), nodes) then Err(())
                   else var c := Selected(Deltas(events), nodes, priced.value, retain);
                        Ok(if c == 0 then None else Some(SurfaceSpan(nodes[0], nodes[c - 1])))
  {
    if |nodes| == 0 {
      return Ok(None);
    }
    if priced.None? || |priced.value| != |nodes| {
      return Err(());
    }
    var prices := priced.value;
    var accumulated := 0;
    var keepFromIdx := |nodes|;
    while keepFromIdx > 0
      invariant 0 <= keepFromIdx <= |nodes|
      invariant accumulated == Kept(prices, keepFromIdx)
      invariant forall k :: keepFromIdx <= k < |nodes| ==> Kept(prices, k) < retain
    {
      keepFromIdx := keepFromIdx - 1;
      accumulated := accumulated + prices[keepFromIdx];
      if accumulated >= retain {
        break;
      }
    }
    BudgetCutUnique(prices, retain, |nodes|, keepFromIdx);
    if keepFromIdx == 0 {
      return Ok(None);
    }
    ghost var budget := keepFromIdx;
    while keepFromIdx > 0
      invariant 0 <= keepFromIdx <= budget
      invariant keepFromIdx < budget ==> Clean(Deltas(events), nodes)
      invariant forall m :: keepFromIdx < m <= budget ==> !Balances(Deltas(events), nodes)[m]
    {
      var balances := CutBalances(events, nodes);
      if balances.None? {
        return Err(());
      }
      if balances.value[keepFromIdx] {
        break;
      }
      keepFromIdx := keepFromIdx - 1;
    }
    LatestBalancedUnique(Balances(Deltas(events), nodes), budget, keepFromIdx);
    if keepFromIdx == 0 {
      return Ok(None);
    }
    return Ok(Some(SurfaceSpan(nodes[0], nodes[keepFromIdx - 1])));
  }

  method ValidateSurfaceRegion(events: seq<Envelope>, nodes: seq<int>, start: int, end: int)
    returns (r: Option<SurfaceSelection>)
    ensures r == Region(Deltas(events), nodes, start, end)
  {
    var startIdx := FindSeq(nodes, start);
    if startIdx == -1 {
      return None;
    }
    var endIdx := FindSeq(nodes, end);
    if endIdx == -1 || startIdx > endIdx {
      return None;
    }
    var balances := CutBalances(events, nodes);
    if balances.None? || !balances.value[startIdx] || !balances.value[endIdx + 1] {
      return None;
    }
    return Some(SurfaceSelection(SurfaceSpan(start, end), startIdx, endIdx, nodes[startIdx..endIdx + 1]));
  }

  // ---------------------------------------------------------------- what a selection means

  lemma {:induction false} BudgetCutUnique(priced: seq<int>, retain: int, n: nat, c: nat)
    requires 0 < n <= |priced| && c < n
    requires c > 0 ==> Kept(priced, c) >= retain
    requires forall k :: c < k < n ==> Kept(priced, k) < retain
    ensures BudgetCut(priced, retain, n) == c
  {
  }

  lemma LatestBalancedUnique(b: seq<bool>, c: nat, k: nat)
    requires k <= c < |b|
    requires k > 0 ==> b[k]
    requires forall m :: k < m <= c ==> !b[m]
    ensures LatestBalanced(b, c) == k
  {
  }

  lemma {:induction false} KeptMonotone(priced: seq<int>, a: nat, b: nat)
    requires forall k :: 0 <= k < |priced| ==> priced[k] >= 0
    requires a <= b <= |priced|
    ensures Kept(priced, a) >= Kept(priced, b)
    decreases b - a
  {
    if a < b {
      KeptMonotone(priced, a + 1, b);
    }
  }

  /** For prices that are never negative, the selection is the latest balanced cut that leaves a tail
      priced at least `retain`, and nothing is selected exactly when no such cut exists. */
  lemma SelectionIsLatest(d: map<int, int>, nodes: seq<int>, priced: seq<int>, retain: int)
    requires |priced| == |nodes| && nodes != []
    requires forall k :: 0 <= k < |priced| ==> priced[k] >= 0
    ensures var c := Selected(d, nodes, priced, retain);
            && c < |nodes|
            && (c > 0 ==> Balances(d, nodes)[c] && Kept(priced, c) >= retain)
            && (forall k :: c < k < |nodes| ==> !(Balances(d, nodes)[k] && Kept(priced, k) >= retain))
  {
    var budget := BudgetCut(priced, retain, |nodes|);
    var c := Selected(d, nodes, priced, retain);
    if c > 0 {
      KeptMonotone(priced, c, budget);
    }
    forall k | c < k < |nodes| ensures !(Balances(d, nodes)[k] && Kept(priced, k) >= retain) {
      if k <= budget {
        assert !Balances(d, nodes)[k];
      }
    }
  }

  lemma IndexOfDistinct(s: seq<int>, i: nat)
    requires i < |s| && Distinct(s)
    ensures IndexOf(s, s[i]) == i
  {
  }

  /** A selected range is always a region the transaction accepts, anchored at the head. */
  lemma SelectedIsValid(d: map<int, int>, nodes: seq<int>, priced: seq<int>, retain: int)
    requires |priced| == |nodes| && Distinct(nodes) && Clean(d, nodes)
    requires nodes != [] && Selected(d, nodes, priced, retain) > 0
    ensures var c := Selected(d, nodes, priced, retain);
            Region(d, nodes, nodes[0], nodes[c - 1]) ==
            Some(SurfaceSelection(SurfaceSpan(nodes[0], nodes[c - 1]), 0, c - 1, nodes[..c]))
  {
    var c := Selected(d, nodes, priced, retain);
    IndexOfDistinct(nodes, 0);
    IndexOfDistinct(nodes, c - 1);
    assert Balances(d, nodes)[0];
    assert nodes[0..c] == nodes[..c];
  }
}
