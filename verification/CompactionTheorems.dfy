/** What a committed compaction means for the log, the surface, the model history, the token price
    and the lock. */
module CompactionTheorems {
  import opened Wrappers
  import opened SessionEvents
  import opened EventStores
  import opened Surface
  import opened ToolPairing
  import opened TokenMeter
  import opened RangeSelection
  import opened CompactionLock
  import opened Compaction

  // ---------------------------------------------------------------- where the commit stands

  /** Not surface-eligible and without a marker. */
  predicate LogOnly(e: Envelope) {
    !Eligible(e.kind) && e.surfaceOp.None? && e.sources.None?
  }

  ghost predicate OthersLogOnly(tail: seq<Entry>) {
    forall k :: 0 <= k < |tail| && !tail[k].ours ==> LogOnly(tail[k].event)
  }

  /** A full commit written behind `live`, with log-only events of other writers anywhere in between, over a
      span still on its surface. */
  ghost predicate CommittedOver(live: seq<Envelope>, tail: seq<Entry>, options: Options, owner: Option<nat>,
                                sel: SurfaceSelection, r: CompactionResult)
  {
    && Fold(live, 0).Some?
    && SpanOn(Fold(live, 0).value.nodes, sel)
    && FullCommit(Ours(tail), options, owner, sel, r)
    && (forall k :: 0 <= k < |tail| ==> tail[k].event.seqNo == |live| + k)
    && OthersLogOnly(tail)
    && 0 <= r.startSeq < |live|
    && live[r.startSeq].kind.CompactionStart?
  }

  /** The position of the transaction's own event number `k`. */
  ghost function OurIndex(tail: seq<Entry>, k: nat): (c: nat)
    requires k < |Ours(tail)|
    ensures c < |tail| && tail[c].ours && tail[c].event == Ours(tail)[k] && |Ours(tail[..c])| == k
    decreases |tail|
  {
    var n := |tail| - 1;
    if tail[n].ours && |Ours(tail[..n])| == k then n
    else
      var c := OurIndex(tail[..n], k);
      assert tail[..n][..c] == tail[..c];
      c
  }

  /** An own event is where the count of own events before it says. */
  lemma {:induction false} OurEntry(tail: seq<Entry>, m: nat)
    requires m < |tail| && tail[m].ours
    ensures |Ours(tail[..m])| < |Ours(tail)| && Ours(tail)[|Ours(tail[..m])|] == tail[m].event
    decreases |tail|
  {
    var n := |tail| - 1;
    if m < n {
      OurEntry(tail[..n], m);
      assert tail[..n][..m] == tail[..m];
    }
  }

  lemma OurCounts(tail: seq<Entry>, m: nat, c: nat)
    requires m < c <= |tail| && tail[m].ours
    ensures |Ours(tail[..m])| < |Ours(tail[..c])|
  {
    hide Ours;
    OurEntry(tail[..c], m);
    assert tail[..c][..m] == tail[..m];
  }

  lemma OurOrder(tail: seq<Entry>, j: nat, k: nat)
    requires j < k < |Ours(tail)|
    ensures OurIndex(tail, j) < OurIndex(tail, k)
  {
    hide Ours;
    var a, b := OurIndex(tail, j), OurIndex(tail, k);
    if b < a {
      OurCounts(tail, b, a);
    }
  }

  /** Where the checkpoint stands among the entries of a full commit. */
  ghost function CheckpointAt(tail: seq<Entry>): nat
    requires |Ours(tail)| == 3
  {
    OurIndex(tail, 1)
  }

  /** The parts of a full commit the fold looks at: the checkpoint, and nothing else that touches the surface. */
  lemma CommitParts(live: seq<Envelope>, tail: seq<Entry>, options: Options, owner: Option<nat>,
                    sel: SurfaceSelection, r: CompactionResult)
    requires CommittedOver(live, tail, options, owner, sel, r)
    ensures |Ours(tail)| == 3
    ensures var c := CheckpointAt(tail);
            && c < |tail| && (forall k :: 0 <= k < |tail| && k != c ==> LogOnly(tail[k].event))
            && (forall k :: 0 <= k < |tail| ==> tail[k].event.seqNo == |live| + k)
            && IsCheckpoint(tail[c].event, sel, r.summary, r.startSeq, r.summarySeq)
            && r.startSeq < |live| <= r.summarySeq < |live| + c
  {
    hide Fold, SpanOn, Ours;
    var c, first := CheckpointAt(tail), OurIndex(tail, 0);
    OurOrder(tail, 0, 1);
    forall k | 0 <= k < |tail| && k != c ensures LogOnly(tail[k].event) {
      if tail[k].ours {
        OurEntry(tail, k);
        OursDiffer(tail, k, c);
      }
    }
    assert tail[first].event.seqNo == |live| + first;
  }

  lemma OursDiffer(tail: seq<Entry>, a: nat, b: nat)
    requires a < |tail| && b < |tail| && tail[a].ours && tail[b].ours && a != b
    ensures |Ours(tail[..a])| != |Ours(tail[..b])|
  {
    hide Ours;
    if a < b {
      OurCounts(tail, a, b);
    } else {
      OurCounts(tail, b, a);
    }
  }

  // ---------------------------------------------------------------- fold

  lemma DistinctPrepend(a: int, b: int, s: seq<int>)
    requires a != b && a !in s && b !in s && Distinct(s)
    ensures Distinct([a, b] + s)
  {
    var t := [a, b] + s;
    forall i, j | 0 <= i < j < |t| ensures t[i] != t[j] {
      assert t[j] == if j == 1 then b else s[j - 2];
      assert t[i] == if i == 0 then a else if i == 1 then b else s[i - 2];
    }
  }

  /** What a span taken from a surface may be listed as. */
  ghost predicate ListedSpan(shadowed: seq<int>, startSeq: int, limit: int) {
    Distinct(shadowed) && forall k :: 0 <= k < |shadowed| ==> 0 <= shadowed[k] < limit && shadowed[k] != startSeq
  }

  lemma SpanListed(live: seq<Envelope>, sel: SurfaceSelection, startSeq: int)
    requires Fold(live, 0).Some? && SpanOn(Fold(live, 0).value.nodes, sel)
    requires 0 <= startSeq < |live| && live[startSeq].kind.CompactionStart?
    ensures ListedSpan(sel.shadowed, startSeq, |live|) && sel.span.start >= 0 && sel.span.end >= 0
  {
    hide Fold;
    var nodes := Fold(live, 0).value.nodes;
    var i, j := IndexOf(nodes, sel.span.start), IndexOf(nodes, sel.span.end);
    NodesDistinct(live, 0);
    assert sel.span.start in nodes && sel.span.end in nodes;
    forall k | 0 <= k < |sel.shadowed| ensures 0 <= sel.shadowed[k] < |live| && sel.shadowed[k] != startSeq {
      assert sel.shadowed[k] == nodes[i + k];
      assert nodes[i + k] in nodes;
    }
    DistinctSlice(nodes, i, j + 1);
  }

  /** The provenance list the commit writes always passes validation. */
  lemma CheckpointProvenance(live: seq<Envelope>, tail: seq<Entry>, options: Options, owner: Option<nat>,
                             sel: SurfaceSelection, r: CompactionResult)
    requires CommittedOver(live, tail, options, owner, sel, r)
    ensures ProvenanceOk(tail[CheckpointAt(tail)].event, sel.shadowed)
    ensures sel.span.start >= 0 && sel.span.end >= 0
  {
    hide Fold, SpanOn, Ours;
    CommitParts(live, tail, options, owner, sel, r);
    SpanListed(live, sel, r.startSeq);
    ProvenanceBuilt(tail[CheckpointAt(tail)].event, r.startSeq, r.summarySeq, sel.shadowed, sel.shadowed);
    forall k | 0 <= k < |sel.shadowed| ensures sel.shadowed[k] in [r.startSeq, r.summarySeq] + sel.shadowed {
      assert ([r.startSeq, r.summarySeq] + sel.shadowed)[k + 2] == sel.shadowed[k];
    }
  }

  /** Start, summary and shadowed seqs, all earlier and distinct, are a legal source list. */
  lemma ProvenanceBuilt(e: Envelope, start: int, summary: int, listed: seq<int>, shadowed: seq<int>)
    requires e.sources == Some([start, summary] + listed) && 0 <= start < summary < e.seqNo
    requires ListedSpan(listed, start, summary)
    ensures ProvenanceOk(e, shadowed) <==> forall k :: 0 <= k < |shadowed| ==> shadowed[k] in [start, summary] + listed
  {
    DistinctPrepend(start, summary, listed);
    var src := [start, summary] + listed;
    forall k | 0 <= k < |src| ensures 0 <= src[k] < e.seqNo {
      assert src[k] == if k == 0 then start else if k == 1 then summary else listed[k - 2];
    }
  }

  lemma DistinctSlice(s: seq<int>, i: nat, j: nat)
    requires i <= j <= |s| && Distinct(s)
    ensures Distinct(s[i..j])
  {
  }

  /** An event that is not surface-eligible and carries no marker leaves the fold as it was. */
  lemma FoldLogOnly(log: seq<Envelope>, e: Envelope, base: int)
    requires Fold(log, base).Some?
    requires e.seqNo == base + |log| && LogOnly(e)
    ensures Fold(log + [e], base) == Fold(log, base)
  {
    hide Fold;
    FoldSnoc(log, e, base);
  }

  lemma {:induction false} FoldAllLogOnly(log: seq<Envelope>, more: seq<Envelope>)
    requires Fold(log, 0).Some?
    requires forall k :: 0 <= k < |more| ==> more[k].seqNo == |log| + k && LogOnly(more[k])
    ensures Fold(log + more, 0) == Fold(log, 0)
    decreases |more|
  {
    hide Fold, LogOnly;
    if more == [] {
      assert log + more == log;
    } else {
      var n := |more| - 1;
      FoldAllLogOnly(log, more[..n]);
      FoldLogOnly(log + more[..n], more[n], 0);
      assert log + more == (log + more[..n]) + [more[n]];
    }
  }

  /** Both ends of the span are on the surface in order, and the checkpoint lists every node between them. */
  ghost predicate SpanCovered(nodes: seq<int>, span: SurfaceSpan, sources: seq<int>) {
    var i, j := IndexOf(nodes, span.start), IndexOf(nodes, span.end);
    i <= j < |nodes| && forall k :: i <= k <= j ==> nodes[k] in sources
  }

  lemma PlanCheckpoint(nodes: seq<int>, e: Envelope, events: seq<Envelope>, span: SurfaceSpan, sources: seq<int>)
    requires e.kind.UserMessage? && e.surfaceOp == Some(Replace(span.start, span.end))
    requires span.start >= 0 && span.end >= 0
    requires var i, j := IndexOf(nodes, span.start), IndexOf(nodes, span.end);
             i <= j < |nodes| ==> (ProvenanceOk(e, nodes[i..j + 1]) <==> SpanCovered(nodes, span, sources))
    ensures var i, j := IndexOf(nodes, span.start), IndexOf(nodes, span.end);
            Plan(nodes, e, e.seqNo, events, 0) ==
            if SpanCovered(nodes, span, sources)
            then Accept(Some(ReplacePlan(e.seqNo, span.start, span.end, i, j, nodes[i..j + 1])))
            else Reject
  {
    hide ProvenanceOk, SpanCovered, IndexOf;
    CoveredEnds(nodes, span, sources);
  }

  lemma CoveredSlice(nodes: seq<int>, span: SurfaceSpan, sources: seq<int>)
    requires IndexOf(nodes, span.start) <= IndexOf(nodes, span.end) < |nodes|
    ensures var shadowed := nodes[IndexOf(nodes, span.start)..IndexOf(nodes, span.end) + 1];
            SpanCovered(nodes, span, sources) <==> forall k :: 0 <= k < |shadowed| ==> shadowed[k] in sources
  {
    var i, j := IndexOf(nodes, span.start), IndexOf(nodes, span.end);
    var shadowed := nodes[i..j + 1];
    if forall k :: 0 <= k < |shadowed| ==> shadowed[k] in sources {
      forall k | i <= k <= j ensures nodes[k] in sources {
        assert shadowed[k - i] == nodes[k];
      }
    }
  }

  /** Whatever other writers appended before it, the checkpoint folds exactly when both ends of its span are
      still on the surface in order and everything between them is in its source list; and it then replaces
      exactly that. */
  lemma CheckpointIff(at: seq<Envelope>, e: Envelope, sel: SurfaceSelection, framed: seq<ContentBlock>, startSeq: int,
                      summarySeq: int)
    requires Fold(at, 0).Some? && e.seqNo == |at| && IsCheckpoint(e, sel, framed, startSeq, summarySeq)
    requires 0 <= startSeq < summarySeq < |at| && ListedSpan(sel.shadowed, startSeq, summarySeq)
    requires sel.span.start >= 0 && sel.span.end >= 0
    ensures var f, sources := Fold(at, 0).value, [startSeq, summarySeq] + sel.shadowed;
            var i, j := IndexOf(f.nodes, sel.span.start), IndexOf(f.nodes, sel.span.end);
            && (Fold(at + [e], 0).Some? <==> SpanCovered(f.nodes, sel.span, sources))
            && (SpanCovered(f.nodes, sel.span, sources) ==>
                  Fold(at + [e], 0) ==
                  Some(FoldResult(Spliced(f.nodes, i, j, |at|),
                                  f.replacements + [Replacement(|at|, sel.span.start, sel.span.end, f.nodes[i..j + 1])],
                                  f.generation + 1)))
  {
    hide Fold, Plan, ProvenanceOk, SpanCovered, ListedSpan;
    var nodes, sources := Fold(at, 0).value.nodes, [startSeq, summarySeq] + sel.shadowed;
    var i, j := IndexOf(nodes, sel.span.start), IndexOf(nodes, sel.span.end);
    if i <= j < |nodes| {
      ProvenanceBuilt(e, startSeq, summarySeq, sel.shadowed, nodes[i..j + 1]);
      CoveredSlice(nodes, sel.span, sources);
    }
    FoldSnoc(at, e, 0);
    PlanCheckpoint(nodes, e, at, sel.span, sources);
    CoveredEnds(nodes, sel.span, sources);
  }

  lemma CoveredEnds(nodes: seq<int>, span: SurfaceSpan, sources: seq<int>)
    ensures SpanCovered(nodes, span, sources) ==> IndexOf(nodes, span.start) <= IndexOf(nodes, span.end) < |nodes|
  {
  }

  /** The exact condition on a whole commit: `at` is the log its checkpoint is appended to, with anything other
      writers appended after the recheck. */
  lemma LateCheckpointIff(live: seq<Envelope>, tail: seq<Entry>, options: Options, owner: Option<nat>,
                          sel: SurfaceSelection, r: CompactionResult)
    requires Fold(live, 0).Some? && SpanOn(Fold(live, 0).value.nodes, sel)
    requires 0 <= r.startSeq < |live| && live[r.startSeq].kind.CompactionStart?
    requires FullCommit(Ours(tail), options, owner, sel, r)
    requires forall k :: 0 <= k < |tail| ==> tail[k].event.seqNo == |live| + k
    requires Fold(live + Events(tail[..CheckpointAt(tail)]), 0).Some?
    ensures var c := CheckpointAt(tail);
            var at := live + Events(tail[..c]);
            && (Fold(at + [tail[c].event], 0).Some? <==>
                SpanCovered(Fold(at, 0).value.nodes, sel.span, [r.startSeq, r.summarySeq] + sel.shadowed))
  {
    hide Fold, SpanOn, Ours;
    var c, first := CheckpointAt(tail), OurIndex(tail, 0);
    OurOrder(tail, 0, 1);
    assert tail[first].event.seqNo == |live| + first;
    SpanListed(live, sel, r.startSeq);
    CheckpointIff(live + Events(tail[..c]), tail[c].event, sel, r.summary, r.startSeq, r.summarySeq);
  }

  function FirstMessage(m: Message): Envelope {
    Envelope(0, UserMessage, UserData(m), None, Some(Append), false)
  }

  /** Another writer's replacement of the first message. */
  function Rewrite(m: Message): Envelope {
    Envelope(2, UserMessage, UserData(m), Some([0]), Some(Replace(0, 0)), false)
  }

  const FIRST_SPAN := SurfaceSelection(SurfaceSpan(0, 0), 0, 0, [0])

  /** The condition can fail: another writer replaces the selected message between the recheck and the
      checkpoint, and the checkpoint then leaves a log that does not fold. */
  lemma LateRewriteBreaks(id: string, m: Message, framed: seq<ContentBlock>, tokens: int)
    ensures var live := [FirstMessage(m), StartEnvelope(id, None).(seqNo := 1)];
            var at := live + [Rewrite(m)] + [SummaryEnvelope(id, FIRST_SPAN, tokens).(seqNo := 3)];
            && Fold(live, 0).Some? && SpanOn(Fold(live, 0).value.nodes, FIRST_SPAN)
            && Fold(at, 0).Some?
            && Fold(at + [CheckpointEnvelope(FIRST_SPAN, framed, 1, 3).(seqNo := 4)], 0).None?
  {
    hide Fold, FirstMessage, Rewrite;
    var live := [FirstMessage(m), StartEnvelope(id, None).(seqNo := 1)];
    var summary := SummaryEnvelope(id, FIRST_SPAN, tokens).(seqNo := 3);
    RewriteFolds(id, m);
    FoldLogOnly(live + [Rewrite(m)], summary, 0);
    CheckpointIff(live + [Rewrite(m)] + [summary], CheckpointEnvelope(FIRST_SPAN, framed, 1, 3).(seqNo := 4),
                  FIRST_SPAN, framed, 1, 3);
  }

  lemma RewriteFolds(id: string, m: Message)
    ensures var live := [FirstMessage(m), StartEnvelope(id, None).(seqNo := 1)];
            && Fold(live, 0) == Some(FoldResult([0], [], 0))
            && Fold(live + [Rewrite(m)], 0) == Some(FoldResult([2], [Replacement(2, 0, 0, [0])], 1))
  {
    hide Fold, Plan;
    var live := [FirstMessage(m), StartEnvelope(id, None).(seqNo := 1)];
    FirstFolds(m);
    FoldLogOnly([FirstMessage(m)], StartEnvelope(id, None).(seqNo := 1), 0);
    assert [FirstMessage(m)] + [StartEnvelope(id, None).(seqNo := 1)] == live;
    FoldSnoc(live, Rewrite(m), 0);
    RewritePlan(Rewrite(m), live);
    assert [0][..0] + [2] + [0][1..] == [2] && [0][0..1] == [0];
    assert [] + [Replacement(2, 0, 0, [0])] == [Replacement(2, 0, 0, [0])];
  }

  lemma FirstFolds(m: Message)
    ensures Fold([FirstMessage(m)], 0) == Some(FoldResult([0], [], 0))
  {
    assert [FirstMessage(m)][..0] == [];
    assert Fold([], 0) == Some(FoldResult([], [], 0));
    assert [] + [0] == [0];
  }

  lemma RewritePlan(e: Envelope, log: seq<Envelope>)
    requires e.seqNo == 2 && e.kind.UserMessage? && e.sources == Some([0]) && e.surfaceOp == Some(Replace(0, 0))
    ensures Plan([0], e, 2, log, 0) == Accept(Some(ReplacePlan(2, 0, 0, 0, 0, [0])))
  {
    assert [0][0..1] == [0];
  }

  lemma SpanOnCovered(nodes: seq<int>, sel: SurfaceSelection, a: int, b: int)
    requires SpanOn(nodes, sel)
    ensures SpanCovered(nodes, sel.span, [a, b] + sel.shadowed)
  {
    var i, j := IndexOf(nodes, sel.span.start), IndexOf(nodes, sel.span.end);
    forall k | i <= k <= j ensures nodes[k] in [a, b] + sel.shadowed {
      assert ([a, b] + sel.shadowed)[k - i + 2] == sel.shadowed[k - i] == nodes[k];
    }
  }

  /** The events around the checkpoint. */
  lemma CommitCut(live: seq<Envelope>, tail: seq<Entry>, c: nat)
    requires c < |tail|
    ensures live + Events(tail) == ((live + Events(tail[..c])) + [tail[c].event]) + Events(tail[c + 1..])
  {
    EventsCut(tail, c);
    JoinFour(live, Events(tail[..c]), [tail[c].event], Events(tail[c + 1..]));
  }

  lemma EventsCut(tail: seq<Entry>, c: nat)
    requires c < |tail|
    ensures Events(tail) == Events(tail[..c]) + [tail[c].event] + Events(tail[c + 1..])
  {
    hide Events;
    var whole := Events(tail[..c]) + [tail[c].event] + Events(tail[c + 1..]);
    assert |Events(tail)| == |whole|;
    forall k | 0 <= k < |tail| ensures Events(tail)[k] == whole[k] {
    }
  }

  lemma JoinFour<T>(a: seq<T>, b: seq<T>, c: seq<T>, d: seq<T>)
    ensures a + (b + c + d) == ((a + b) + c) + d
  {
  }

  /** A committed compaction takes a foldable log to a foldable log, and the new surface is the old
      one with exactly the selected span replaced by the one checkpoint seq. */
  lemma CommitFolds(live: seq<Envelope>, tail: seq<Entry>, options: Options, owner: Option<nat>,
                    sel: SurfaceSelection, r: CompactionResult)
    requires CommittedOver(live, tail, options, owner, sel, r)
    ensures var f, x := Fold(live, 0).value, |live| + CheckpointAt(tail);
            var i, j := IndexOf(f.nodes, sel.span.start), IndexOf(f.nodes, sel.span.end);
            && i <= j < |f.nodes|
            && Fold(live + Events(tail), 0) ==
               Some(FoldResult(Spliced(f.nodes, i, j, x),
                               f.replacements + [Replacement(x, sel.span.start, sel.span.end, sel.shadowed)],
                               f.generation + 1))
  {
    hide Fold, SpanCovered, IsCheckpoint, Ours, Events, LogOnly, FullCommit, ListedSpan;
    CommitParts(live, tail, options, owner, sel, r);
    var c := CheckpointAt(tail);
    var at := live + Events(tail[..c]);
    var e, rest := tail[c].event, Events(tail[c + 1..]);
    CommitCut(live, tail, c);
    FoldAllLogOnly(live, Events(tail[..c]));
    SpanListed(live, sel, r.startSeq);
    ListedMore(sel.shadowed, r.startSeq, |live|, r.summarySeq);
    CheckpointIff(at, e, sel, r.summary, r.startSeq, r.summarySeq);
    SpanOnCovered(Fold(live, 0).value.nodes, sel, r.startSeq, r.summarySeq);
    forall k | 0 <= k < |rest| ensures rest[k].seqNo == |at| + 1 + k && LogOnly(rest[k]) {
      assert rest[k] == tail[c + 1 + k].event;
    }
    FoldAllLogOnly(at + [e], rest);
  }

  lemma ListedMore(shadowed: seq<int>, startSeq: int, a: int, b: int)
    requires ListedSpan(shadowed, startSeq, a) && a <= b
    ensures ListedSpan(shadowed, startSeq, b)
  {
  }

  // ---------------------------------------------------------------- pairing

  lemma {:induction false} DeltasKnown(log: seq<Envelope>, n: int)
    requires forall i :: 0 <= i < |log| ==> log[i].seqNo < n
    ensures forall q :: q in Deltas(log) ==> q < n
    decreases |log|
  {
    hide ToolDelta;
    if log != [] {
      DeltasKnown(log[..|log| - 1], n);
    }
  }

  lemma DeltasSnoc(log: seq<Envelope>, e: Envelope)
    ensures Deltas(log + [e]) ==
            match ToolDelta(e)
            case None => Deltas(log) - {e.seqNo}
            case Some(k) => Deltas(log)[e.seqNo := k]
  {
    hide ToolDelta;
    assert (log + [e])[..|log|] == log;
  }

  /** Appending an event of a new seq forgets no delta. */
  lemma DeltasGrow(log: seq<Envelope>, e: Envelope)
    requires forall i :: 0 <= i < |log| ==> log[i].seqNo < e.seqNo
    ensures Extends(Deltas(log), Deltas(log + [e]))
    ensures ToolDelta(e).Some? ==> e.seqNo in Deltas(log + [e]) && Deltas(log + [e])[e.seqNo] == ToolDelta(e).value
  {
    hide ToolDelta, Deltas;
    DeltasKnown(log, e.seqNo);
    DeltasSnoc(log, e);
  }

  lemma FoldedBelow(log: seq<Envelope>)
    requires Fold(log, 0).Some?
    ensures Contig(log)
  {
    hide Fold;
    forall i | 0 <= i < |log| ensures log[i].seqNo == i {
      Contiguous(log, 0, i);
    }
  }

  /** Appending to a contiguous log forgets no delta. */
  lemma {:induction false} DeltasGrowAll(log: seq<Envelope>, more: seq<Envelope>)
    requires Contig(log + more)
    ensures Extends(Deltas(log), Deltas(log + more))
    decreases |more|
  {
    hide Deltas, ToolDelta;
    if more == [] {
      assert log + more == log;
    } else {
      var n := |more| - 1;
      var whole := (log + more[..n]) + [more[n]];
      assert log + more == whole && whole[|log| + n] == more[n];
      forall i | 0 <= i < |log + more[..n]| ensures (log + more[..n])[i].seqNo == i {
        assert whole[i] == (log + more[..n])[i];
      }
      DeltasGrowAll(log, more[..n]);
      DeltasGrow(log + more[..n], more[n]);
      ExtendsTrans(Deltas(log), Deltas(log + more[..n]), Deltas(log + more));
    }
  }

  lemma ExtendsTrans(a: map<int, int>, b: map<int, int>, c: map<int, int>)
    requires Extends(a, b) && Extends(b, c)
    ensures Extends(a, c)
  {
    forall q | q in a.Keys ensures q in c.Keys && c[q] == a[q] {
      assert q in b.Keys;
    }
  }

  /** The log a commit ends in is numbered without gaps. */
  lemma CommitContig(live: seq<Envelope>, tail: seq<Entry>)
    requires Contig(live) && forall k :: 0 <= k < |tail| ==> tail[k].event.seqNo == |live| + k
    ensures Contig(live + Events(tail))
  {
    var more := Events(tail);
    assert forall k :: 0 <= k < |more| ==> more[k].seqNo == |live| + k;
  }

  lemma ContigPrefix(a: seq<Envelope>, b: seq<Envelope>)
    requires Contig(a + b)
    ensures Contig(a)
  {
    assert forall i :: 0 <= i < |a| ==> (a + b)[i] == a[i];
  }

  lemma CommitDeltas(live: seq<Envelope>, tail: seq<Entry>, options: Options, owner: Option<nat>,
                     sel: SurfaceSelection, r: CompactionResult)
    requires CommittedOver(live, tail, options, owner, sel, r)
    ensures Extends(Deltas(live), Deltas(live + Events(tail)))
    ensures var x := |live| + CheckpointAt(tail);
            x in Deltas(live + Events(tail)) && Deltas(live + Events(tail))[x] == 0
  {
    hide Fold, Deltas, FullCommit, SpanOn, Ours, Events, Contig, LogOnly;
    CommitParts(live, tail, options, owner, sel, r);
    FoldedBelow(live);
    CommitContig(live, tail);
    DeltasGrowAll(live, Events(tail));
    var c := CheckpointAt(tail);
    var at, e, rest := live + Events(tail[..c]), tail[c].event, Events(tail[c + 1..]);
    CommitCut(live, tail, c);
    ContigPrefix(at + [e], rest);
    DeltasGrowAll(at + [e], rest);
    CheckpointDelta(at, e);
    ExtendsAt(Deltas(at + [e]), Deltas(live + Events(tail)), |live| + c);
  }

  lemma CheckpointDelta(at: seq<Envelope>, e: Envelope)
    requires Contig(at + [e]) && ToolDelta(e) == Some(0)
    ensures e.seqNo == |at| && |at| in Deltas(at + [e]) && Deltas(at + [e])[|at|] == 0
  {
    hide Deltas, ToolDelta;
    assert (at + [e])[|at|] == e;
    forall i | 0 <= i < |at| ensures at[i].seqNo < e.seqNo {
      assert (at + [e])[i] == at[i];
    }
    DeltasGrow(at, e);
  }

  lemma ExtendsAt(d: map<int, int>, d': map<int, int>, x: int)
    requires Extends(d, d') && x in d
    ensures x in d' && d'[x] == d[x]
  {
    assert x in d.Keys;
  }

  /** Over a region with balanced ends a commit keeps every tool result behind its call and keeps the
      balance of every cut outside the span. */
  lemma CommitKeepsPairing(live: seq<Envelope>, tail: seq<Entry>, options: Options, owner: Option<nat>,
                           sel: SurfaceSelection, r: CompactionResult)
    requires CommittedOver(live, tail, options, owner, sel, r)
    requires Region(Deltas(live), Fold(live, 0).value.nodes, sel.span.start, sel.span.end).Some?
    ensures var log := live + Events(tail);
            && Fold(log, 0).Some?
            && Clean(Deltas(log), Fold(log, 0).value.nodes)
            && Depth(Deltas(log), Fold(log, 0).value.nodes) == Depth(Deltas(live), Fold(live, 0).value.nodes)
            && var nodes, nodes' := Fold(live, 0).value.nodes, Fold(log, 0).value.nodes;
            && var i, j := IndexOf(nodes, sel.span.start), IndexOf(nodes, sel.span.end);
            && i <= j
            && forall k :: 0 <= k <= |nodes'| && OldCut(i, j, k) <= |nodes| ==>
                 Balances(Deltas(log), nodes')[k] == Balances(Deltas(live), nodes)[OldCut(i, j, k)]
  {
    hide Fold, Deltas, Clean, Balances, Depth, Ours, Events, FullCommit;
    var nodes := Fold(live, 0).value.nodes;
    CommitFolds(live, tail, options, owner, sel, r);
    CommitParts(live, tail, options, owner, sel, r);
    CommitDeltas(live, tail, options, owner, sel, r);
    ReplaceKeepsPairing(Deltas(live), Deltas(live + Events(tail)), nodes,
                        IndexOf(nodes, sel.span.start), IndexOf(nodes, sel.span.end), |live| + CheckpointAt(tail));
  }

  // ---------------------------------------------------------------- model history

  lemma {:induction false} ProjectAllSame(events: seq<Envelope>, more: seq<Envelope>, nodes: seq<int>)
    requires InWindow(nodes, 0, |events|)
    ensures ProjectAll(events + more, 0, nodes) == ProjectAll(events, 0, nodes)
    decreases |nodes|
  {
    hide ProjectEventMessage;
    if nodes != [] {
      ProjectAllSame(events, more, nodes[..|nodes| - 1]);
    }
  }

  function JoinMessages(a: Result<seq<Message>, ()>, b: Result<seq<Message>, ()>): Result<seq<Message>, ()> {
    if a.Ok? && b.Ok? then Ok(a.value + b.value) else Err(())
  }

  lemma {:induction false} ProjectAllConcat(events: seq<Envelope>, a: seq<int>, b: seq<int>)
    ensures ProjectAll(events, 0, a + b) == JoinMessages(ProjectAll(events, 0, a), ProjectAll(events, 0, b))
    decreases |b|
  {
    hide ProjectEventMessage, Lookup;
    if b == [] {
      assert a + b == a;
      var p := ProjectAll(events, 0, a);
      assert p.Ok? ==> p.value + [] == p.value;
    } else {
      var n := |b| - 1;
      assert (a + b)[..|a + b| - 1] == a + b[..n];
      ProjectAllConcat(events, a, b[..n]);
      var p, q := ProjectAll(events, 0, a), ProjectAll(events, 0, b[..n]);
      if p.Ok? && q.Ok? {
        assert forall m: Message :: (p.value + q.value) + [m] == p.value + (q.value + [m]);
      }
    }
  }

  lemma ProjectOne(events: seq<Envelope>, x: int, m: Message)
    requires 0 <= x < |events|
    requires ProjectEventMessage(events[x]) == Ok(Some(m))
    ensures ProjectAll(events, 0, [x]) == Ok([m])
  {
    var s := [x];
    assert s[..|s| - 1] == [];
    assert [] + [m] == [m];
  }

  /** Model history after a commit: the messages before the span, the checkpoint, the messages after
      it. The shadowed events are out of it and everything else is word for word the same. */
  lemma CommitDerives(live: seq<Envelope>, tail: seq<Entry>, options: Options, owner: Option<nat>,
                      sel: SurfaceSelection, r: CompactionResult)
    requires CommittedOver(live, tail, options, owner, sel, r)
    requires AllSupported(live + Events(tail))
    ensures var nodes := Fold(live, 0).value.nodes;
            var i, j := IndexOf(nodes, sel.span.start), IndexOf(nodes, sel.span.end);
            && i <= j < |nodes|
            && Derived(live + Events(tail)) ==
               JoinMessages(JoinMessages(ProjectAll(live, 0, nodes[..i]), Ok([Message("user", r.summary)])),
                            ProjectAll(live, 0, nodes[j + 1..]))
  {
    hide Fold, ProjectAll, Ours, Events, FullCommit, LogOnly;
    var nodes := Fold(live, 0).value.nodes;
    var i, j := IndexOf(nodes, sel.span.start), IndexOf(nodes, sel.span.end);
    CommitFolds(live, tail, options, owner, sel, r);
    CommitParts(live, tail, options, owner, sel, r);
    var log, x := live + Events(tail), |live| + CheckpointAt(tail);
    FoldInWindow(live, 0);
    assert log[x] == tail[CheckpointAt(tail)].event;
    ProjectOne(log, x, Message("user", r.summary));
    ProjectAllConcat(log, nodes[..i] + [x], nodes[j + 1..]);
    ProjectAllConcat(log, nodes[..i], [x]);
    ProjectAllSame(live, Events(tail), nodes[..i]);
    ProjectAllSame(live, Events(tail), nodes[j + 1..]);
  }

  lemma {:induction false} NoneMisshapen(events: seq<Envelope>, nodes: seq<int>)
    requires InWindow(nodes, 0, |events|) && ProjectAll(events, 0, nodes).Ok?
    ensures ProjectAll(events, 0, nodes) == Ok(MessagesOf(Pick(events, nodes)))
  {
    ProjectAllMeaning(events, nodes);
  }

  /** The summary in the history: the own messages of the events before the span, then one message that holds
      every block of the answer in order between the opening and the closing text, then the own messages of the
      events behind the span. */
  lemma SummaryInHistory(live: seq<Envelope>, tail: seq<Entry>, options: Options, owner: Option<nat>,
                         sel: SurfaceSelection, r: CompactionResult, answer: seq<ContentBlock>)
    requires CommittedOver(live, tail, options, owner, sel, r)
    requires AllSupported(live + Events(tail)) && Frames(r.summary, answer)
    requires Derived(live + Events(tail)).Ok?
    ensures var nodes := Fold(live, 0).value.nodes;
            var i, j := IndexOf(nodes, sel.span.start), IndexOf(nodes, sel.span.end);
            && i <= j < |nodes| && InWindow(nodes[..i], 0, |live|) && InWindow(nodes[j + 1..], 0, |live|)
            && Derived(live + Events(tail)).value ==
               MessagesOf(Pick(live, nodes[..i])) +
               [Message("user", [TextBlock(CHECKPOINT_NOTICE + "\n\n" + OPEN_TAG)] + answer + [TextBlock(CLOSE_TAG)])] +
               MessagesOf(Pick(live, nodes[j + 1..]))
  {
    hide Fold, ProjectAll, Ours, Events, FullCommit, LogOnly, Derived, AllSupported, MessagesOf;
    var nodes := Fold(live, 0).value.nodes;
    var i, j := IndexOf(nodes, sel.span.start), IndexOf(nodes, sel.span.end);
    CommitDerives(live, tail, options, owner, sel, r);
    FoldInWindow(live, 0);
    NoneMisshapen(live, nodes[..i]);
    NoneMisshapen(live, nodes[j + 1..]);
    FramesIs(r.summary, answer);
  }

  lemma FramesIs(blocks: seq<ContentBlock>, answer: seq<ContentBlock>)
    requires Frames(blocks, answer)
    ensures blocks == [TextBlock(CHECKPOINT_NOTICE + "\n\n" + OPEN_TAG)] + answer + [TextBlock(CLOSE_TAG)]
  {
    assert blocks == [blocks[0]] + blocks[1..|blocks| - 1] + [blocks[|blocks| - 1]];
  }

  // ---------------------------------------------------------------- price

  lemma {:induction false} BySeqContig(log: seq<Envelope>)
    requires Contig(log)
    ensures forall q :: q in BySeq(log) <==> 0 <= q < |log|
    ensures forall q :: 0 <= q < |log| ==> BySeq(log)[q] == log[q]
    decreases |log|
  {
    if log != [] {
      BySeqContig(log[..|log| - 1]);
    }
  }

  ghost function TotalPrice(log: seq<Envelope>): Option<int> {
    match Fold(log, 0)
    case None => None
    case Some(f) =>
      match Prices(Heuristic, BySeq(log), f.nodes)
      case None => None
      case Some(p) => Some(Sum(p))
  }

  lemma SpanPrice(bySeq: map<int, Envelope>, nodes: seq<int>, i: nat, j: nat)
    requires i <= j < |nodes| && Prices(Heuristic, bySeq, nodes).Some?
    ensures Prices(Heuristic, bySeq, nodes[i..j + 1]) == Some(Prices(Heuristic, bySeq, nodes).value[i..j + 1])
    ensures Prices(Heuristic, bySeq, nodes[..i]).Some? && Prices(Heuristic, bySeq, nodes[j + 1..]).Some?
    ensures Sum(Prices(Heuristic, bySeq, nodes).value) ==
            Sum(Prices(Heuristic, bySeq, nodes[..i]).value) +
            Sum(Prices(Heuristic, bySeq, nodes[i..j + 1]).value) +
            Sum(Prices(Heuristic, bySeq, nodes[j + 1..]).value)
  {
    hide Prices, Sum;
    var a, b, c := nodes[..i], nodes[i..j + 1], nodes[j + 1..];
    assert nodes == (a + b) + c;
    PricesConcat(Heuristic, bySeq, a + b, c);
    PricesConcat(Heuristic, bySeq, a, b);
    var p, q, s := Prices(Heuristic, bySeq, a).value, Prices(Heuristic, bySeq, b).value, Prices(Heuristic, bySeq, c).value;
    SumConcat(p + q, s);
    SumConcat(p, q);
    assert (p + q + s)[i..j + 1] == q;
  }

  lemma SplicedPrice(bySeq: map<int, Envelope>, nodes: seq<int>, i: nat, j: nat, x: int, price: nat)
    requires i <= j < |nodes|
    requires Prices(Heuristic, bySeq, nodes[..i]).Some? && Prices(Heuristic, bySeq, nodes[j + 1..]).Some?
    requires Prices(Heuristic, bySeq, [x]) == Some([price])
    ensures Prices(Heuristic, bySeq, Spliced(nodes, i, j, x)).Some?
    ensures Sum(Prices(Heuristic, bySeq, Spliced(nodes, i, j, x)).value) ==
            Sum(Prices(Heuristic, bySeq, nodes[..i]).value) + price +
            Sum(Prices(Heuristic, bySeq, nodes[j + 1..]).value)
  {
    hide Prices;
    PricesConcat(Heuristic, bySeq, nodes[..i] + [x], nodes[j + 1..]);
    PricesConcat(Heuristic, bySeq, nodes[..i], [x]);
    var p, s := Prices(Heuristic, bySeq, nodes[..i]).value, Prices(Heuristic, bySeq, nodes[j + 1..]).value;
    SumConcat(p + [price], s);
    SumConcat(p, [price]);
    assert [price][..0] == [];
  }

  lemma CheckpointPrice(bySeq: map<int, Envelope>, x: int, summary: seq<ContentBlock>)
    requires x in bySeq && ProjectEventMessage(bySeq[x]) == Ok(Some(Message("user", summary)))
    ensures Prices(Heuristic, bySeq, [x]) == Some([ContentTokens(summary) + ROLE_OVERHEAD])
  {
    var s := [x];
    assert s[..|s| - 1] == [];
    assert [] + [ContentTokens(summary) + ROLE_OVERHEAD] == [ContentTokens(summary) + ROLE_OVERHEAD];
  }

  /** Under the heuristic meter a commit moves the total surface price from `p` to exactly
      `p - shadowed + framed + 4`. Framed is strictly below shadowed, so the total can rise by at most
      three tokens, and it falls exactly when the framed summary saves more than the role overhead. */
  lemma CommitPrice(live: seq<Envelope>, tail: seq<Entry>, options: Options, owner: Option<nat>,
                    sel: SurfaceSelection, r: CompactionResult)
    requires CommittedOver(live, tail, options, owner, sel, r)
    requires StillPriced(live, Heuristic, sel, r.shadowedTokens)
    requires ContentTokens(r.summary) < r.shadowedTokens
    ensures TotalPrice(live).Some? && PriceMoves(live, live + Events(tail), r)
  {
    hide Fold, Prices, Sum, BySeq, ContentTokens, ProjectEventMessage, Ours, Events, FullCommit, LogOnly, IsCheckpoint;
    CommitFolds(live, tail, options, owner, sel, r);
    CommitParts(live, tail, options, owner, sel, r);
    CommitIndex(live, tail, options, owner, sel, r);
    var log, x := live + Events(tail), |live| + CheckpointAt(tail);
    var nodes := Fold(live, 0).value.nodes;
    var i, j := IndexOf(nodes, sel.span.start), IndexOf(nodes, sel.span.end);
    var m, m' := BySeq(live), BySeq(log);
    SpanPrice(m, nodes, i, j);
    FoldInWindow(live, 0);
    PricesSame(Heuristic, m, m', nodes[..i]);
    PricesSame(Heuristic, m, m', nodes[j + 1..]);
    CheckpointPrice(m', x, r.summary);
    SplicedPrice(m', nodes, i, j, x, ContentTokens(r.summary) + ROLE_OVERHEAD);
  }

  /** The total price before and after a commit. */
  ghost predicate PriceMoves(before: seq<Envelope>, after: seq<Envelope>, r: CompactionResult) {
    && TotalPrice(before).Some? && TotalPrice(after).Some?
    && TotalPrice(after).value == TotalPrice(before).value - r.shadowedTokens + ContentTokens(r.summary) + ROLE_OVERHEAD
    && TotalPrice(after).value <= TotalPrice(before).value + 3
    && (TotalPrice(after).value < TotalPrice(before).value <==> ContentTokens(r.summary) + ROLE_OVERHEAD < r.shadowedTokens)
  }

  lemma CommitIndex(live: seq<Envelope>, tail: seq<Entry>, options: Options, owner: Option<nat>,
                    sel: SurfaceSelection, r: CompactionResult)
    requires CommittedOver(live, tail, options, owner, sel, r)
    ensures var log, x := live + Events(tail), |live| + CheckpointAt(tail);
            && (forall q :: 0 <= q < |live| ==> q in BySeq(live) && q in BySeq(log) && BySeq(live)[q] == BySeq(log)[q])
            && x in BySeq(log)
            && ProjectEventMessage(BySeq(log)[x]) == Ok(Some(Message("user", r.summary)))
  {
    hide Fold, BySeq, Ours, Events, FullCommit, LogOnly, Contig;
    CommitParts(live, tail, options, owner, sel, r);
    FoldedBelow(live);
    CommitContig(live, tail);
    BySeqContig(live);
    BySeqContig(live + Events(tail));
    assert (live + Events(tail))[|live| + CheckpointAt(tail)] == tail[CheckpointAt(tail)].event;
  }

  // ---------------------------------------------------------------- lock

  lemma LockSnoc(log: seq<Envelope>, e: Envelope)
    ensures Lock(log + [e]) ==
            match e.kind
            case CompactionStart => Some(StartEntry(e))
            case CompactionEnd => None
            case SessionEndSeed => None
            case _ => Lock(log)
  {
    assert (log + [e])[..|log|] == log;
  }

  predicate HasEnd(own: seq<Envelope>) {
    exists k :: 0 <= k < |own| && own[k].kind.CompactionEnd?
  }

  /** Leaves the lock alone. */
  predicate LockFree(e: Envelope) {
    !e.kind.CompactionStart? && !e.kind.CompactionEnd? && !e.kind.SessionEndSeed?
  }

  lemma {:induction false} LockKept(log: seq<Envelope>, more: seq<Envelope>)
    requires forall k :: 0 <= k < |more| ==> LockFree(more[k])
    ensures Lock(log + more) == Lock(log)
    decreases |more|
  {
    hide Lock;
    if more == [] {
      assert log + more == log;
    } else {
      var n := |more| - 1;
      assert log + more == (log + more[..n]) + [more[n]];
      LockSnoc(log + more[..n], more[n]);
      LockKept(log, more[..n]);
    }
  }

  ghost predicate OthersLockFree(tail: seq<Entry>) {
    forall k :: 0 <= k < |tail| && !tail[k].ours ==> LockFree(tail[k].event)
  }

  /** The own events of a bracket: no start, and an end only in the last place. */
  predicate BracketKinds(own: seq<Envelope>) {
    forall k :: 0 <= k < |own| ==>
      own[k].kind.CompactionSummary? || own[k].kind.UserMessage? || (k == |own| - 1 && own[k].kind.CompactionEnd?)
  }

  lemma HasEndSnoc(own: seq<Envelope>, e: Envelope)
    requires BracketKinds(own + [e])
    ensures BracketKinds(own) && !HasEnd(own)
    ensures HasEnd(own + [e]) <==> e.kind.CompactionEnd?
  {
    var t := own + [e];
    assert t[|own|] == e;
    forall k | 0 <= k < |own| ensures own[k].kind.CompactionSummary? || own[k].kind.UserMessage? {
      assert t[k] == own[k];
    }
  }

  lemma {:induction false} LockAfterTail(log: seq<Envelope>, tail: seq<Entry>)
    requires BracketKinds(Ours(tail)) && OthersLockFree(tail)
    ensures Lock(log + Events(tail)) == if HasEnd(Ours(tail)) then None else Lock(log)
    decreases |tail|
  {
    hide Lock, HasEnd, BracketKinds;
    if tail == [] {
      assert log + Events(tail) == log;
      NoEnd();
    } else {
      var n := |tail| - 1;
      var e := tail[n].event;
      assert log + Events(tail) == (log + Events(tail[..n])) + [e];
      LockSnoc(log + Events(tail[..n]), e);
      if tail[n].ours {
        HasEndSnoc(Ours(tail[..n]), e);
        LastKind(Ours(tail[..n]), e);
      }
      LockAfterTail(log, tail[..n]);
    }
  }

  lemma NoEnd()
    ensures !HasEnd([])
  {
  }

  lemma LastKind(own: seq<Envelope>, e: Envelope)
    requires BracketKinds(own + [e])
    ensures e.kind.CompactionSummary? || e.kind.UserMessage? || e.kind.CompactionEnd?
  {
    assert (own + [e])[|own|] == e;
  }

  lemma OwnKinds(own: seq<Envelope>, options: Options, owner: Option<nat>, sel: SurfaceSelection, startSeq: int,
                 r: Option<CompactionResult>)
    requires if r.Some? then FullCommit(own, options, owner, sel, r.value) else BrokenCommit(own, options, sel, startSeq)
    ensures BracketKinds(own)
    ensures r.Some? ==> HasEnd(own)
  {
    if r.Some? {
      assert own[2].kind.CompactionEnd?;
    } else if !ErrorTail(own, options.compactionId, options.owner) {
      assert own[0].kind.CompactionSummary?;
      if ErrorTail(own[1..], options.compactionId, options.owner) {
        assert |own| > 1 ==> own[1] == own[1..][0];
      } else {
        assert |own| > 2 ==> own[2] == own[2..][0];
      }
    }
  }

  /** Once its start is written the transaction holds the lock until its own first end: up to the recheck it
      is held, and afterwards it stays held exactly when none of the transaction's ends could be appended; a
      commit always frees it. So the scan that a next transaction begins with finds this very start, or no
      compaction at all. */
  lemma LockAfterTransaction(before: seq<Envelope>, events: seq<Envelope>, nodes: seq<int>, meter: Meter,
                             sel: SurfaceSelection, owner: Option<nat>, options: Options,
                             r: Option<CompactionResult>, trace: Trace)
    requires trace.start.Some? && BracketOutcome(before, events, nodes, meter, sel, owner, options, r, trace)
    requires (forall k :: 0 <= k < |trace.noise| ==> LockFree(trace.noise[k])) && OthersLockFree(trace.tail)
    requires Increasing(before + TraceEvents(trace))
    ensures Lock(LiveLog(before, trace)) == Some(CompactionEntry(options.compactionId, trace.start.value.seqNo))
    ensures var log, held := before + TraceEvents(trace), !HasEnd(Ours(trace.tail));
            && Lock(log) == (if held then Some(CompactionEntry(options.compactionId, trace.start.value.seqNo)) else None)
            && (Inactive(EntryState(OpenTurn(log), LastBracket(log), LastEndSeed(log))) <==> !held)
            && (held ==> LastBracket(log) == Some(CompactionEntry(options.compactionId, trace.start.value.seqNo)))
    ensures r.Some? ==> Lock(before + TraceEvents(trace)).None?
  {
    hide FullCommit, BrokenCommit, Cheaper, StillOn, StillPriced, Lock, LastBracket, LastEndSeed, OpenTurn, Ours, Events,
         HasEnd, BracketKinds, Increasing, LockFree;
    var live, log := LiveLog(before, trace), before + TraceEvents(trace);
    assert log == live + Events(trace.tail);
    LockSnoc(before, trace.start.value);
    LockKept(before + [trace.start.value], trace.noise);
    OwnKinds(Ours(trace.tail), options, owner, sel, trace.start.value.seqNo, r);
    LockAfterTail(live, trace.tail);
    ScanIsMachine(log);
  }

  // ---------------------------------------------------------------- the transaction

  lemma RegionIsSpan(d: map<int, int>, nodes: seq<int>, start: int, end: int)
    requires Region(d, nodes, start, end).Some?
    ensures SpanOn(nodes, Region(d, nodes, start, end).value)
  {
  }

  /** A successful bracket is a commit over the log of its recheck, when the span is on that surface. */
  lemma OutcomeCommits(before: seq<Envelope>, events: seq<Envelope>, nodes: seq<int>, meter: Meter,
                       sel: SurfaceSelection, owner: Option<nat>, options: Options, r: CompactionResult, trace: Trace)
    requires trace.start.Some?
    requires BracketOutcome(before, events, nodes, meter, sel, owner, options, Some(r), trace)
    requires Contig(before + TraceEvents(trace)) && OthersLogOnly(trace.tail)
    requires Fold(LiveLog(before, trace), 0).Some? && SpanOn(Fold(LiveLog(before, trace), 0).value.nodes, sel)
    ensures CommittedOver(LiveLog(before, trace), trace.tail, options, owner, sel, r)
    ensures before + TraceEvents(trace) == LiveLog(before, trace) + Events(trace.tail)
  {
    hide Fold, SpanOn, Cheaper, StillOn, StillPriced, Ours, Events, LogOnly;
    var live, log := LiveLog(before, trace), before + TraceEvents(trace);
    assert log == live + Events(trace.tail);
    assert live[|before|] == trace.start.value == log[|before|];
    forall k | 0 <= k < |trace.tail| ensures trace.tail[k].event.seqNo == |live| + k {
      assert trace.tail[k].event == log[|live| + k];
    }
  }

  /** Start and log-only events of others leave the surface of the log alone. */
  lemma LiveFolds(before: seq<Envelope>, trace: Trace)
    requires Fold(before, 0).Some? && trace.start.Some? && Contig(before + TraceEvents(trace))
    requires LogOnly(trace.start.value) && forall k :: 0 <= k < |trace.noise| ==> LogOnly(trace.noise[k])
    ensures Fold(LiveLog(before, trace), 0) == Fold(before, 0) && Contig(LiveLog(before, trace))
  {
    hide Fold, LogOnly, Events;
    var more := [trace.start.value] + trace.noise;
    var live, log := LiveLog(before, trace), before + TraceEvents(trace);
    assert live == before + more && log == live + Events(trace.tail);
    ContigPrefix(live, Events(trace.tail));
    forall k | 0 <= k < |more| ensures more[k].seqNo == |before| + k && LogOnly(more[k]) {
      assert more[k] == live[|before| + k];
    }
    FoldAllLogOnly(before, more);
  }

  /** With the recheck, whatever other writers appended before it: a successful transaction leaves a foldable
      log, whose surface is that of the recheck with exactly the selected span replaced. */
  lemma ReloadedCommitFolds(before: seq<Envelope>, events: seq<Envelope>, nodes: seq<int>, meter: Meter,
                            sel: SurfaceSelection, owner: Option<nat>, options: Options, r: CompactionResult, trace: Trace)
    requires trace.start.Some? && options.reload
    requires BracketOutcome(before, events, nodes, meter, sel, owner, options, Some(r), trace)
    requires Contig(before + TraceEvents(trace)) && OthersLogOnly(trace.tail)
    ensures var live := LiveLog(before, trace);
            && StillOn(live, sel) && |Ours(trace.tail)| == 3
            && var f, x := Fold(live, 0).value, |live| + CheckpointAt(trace.tail);
            && var i, j := IndexOf(f.nodes, sel.span.start), IndexOf(f.nodes, sel.span.end);
            && i <= j < |f.nodes| && f.nodes[i..j + 1] == sel.shadowed
            && Fold(before + TraceEvents(trace), 0) ==
               Some(FoldResult(Spliced(f.nodes, i, j, x),
                               f.replacements + [Replacement(x, sel.span.start, sel.span.end, sel.shadowed)], f.generation + 1))
  {
    hide Fold, FullCommit, Cheaper, StillPriced, Ours, Events, LogOnly, Region, Deltas;
    OutcomeCommits(before, events, nodes, meter, sel, owner, options, r, trace);
    CommitParts(LiveLog(before, trace), trace.tail, options, owner, sel, r);
    CommitFolds(LiveLog(before, trace), trace.tail, options, owner, sel, r);
  }

  /** With the recheck and the heuristic meter, the total price moves from that of the recheck to
      `p - shadowed + framed + 4`. */
  lemma ReloadedCommitPrice(before: seq<Envelope>, events: seq<Envelope>, nodes: seq<int>,
                            sel: SurfaceSelection, owner: Option<nat>, options: Options, r: CompactionResult, trace: Trace)
    requires trace.start.Some? && options.reload
    requires BracketOutcome(before, events, nodes, Heuristic, sel, owner, options, Some(r), trace)
    requires Contig(before + TraceEvents(trace)) && OthersLogOnly(trace.tail)
    ensures PriceMoves(LiveLog(before, trace), before + TraceEvents(trace), r)
  {
    hide Fold, FullCommit, StillPriced, Ours, Events, LogOnly, Region, Deltas, Prices, Sum, BySeq, ContentTokens, TotalPrice;
    OutcomeCommits(before, events, nodes, Heuristic, sel, owner, options, r, trace);
    CommitPrice(LiveLog(before, trace), trace.tail, options, owner, sel, r);
  }

  /** Without the recheck, over any foldable log and with log-only events of other writers anywhere: a
      successful transaction under the heuristic meter moves the total price of the log it was asked to compact
      to `p - shadowed + framed + 4`, so by at most three upwards. */
  lemma TransactionPrice(before: seq<Envelope>, sel: SurfaceSelection, owner: Option<nat>, options: Options,
                         r: CompactionResult, trace: Trace)
    requires Fold(before, 0).Some? && trace.start.Some? && Contig(before + TraceEvents(trace))
    requires Region(Deltas(before), Fold(before, 0).value.nodes, options.start, options.end) == Some(sel)
    requires BracketOutcome(before, before, Fold(before, 0).value.nodes, Heuristic, sel, owner, options, Some(r), trace)
    requires (forall k :: 0 <= k < |trace.noise| ==> LogOnly(trace.noise[k])) && OthersLogOnly(trace.tail)
    ensures PriceMoves(before, before + TraceEvents(trace), r)
  {
    hide Fold, FullCommit, StillPriced, Ours, Events, Region, Deltas, Prices, Sum, BySeq, ContentTokens, StillOn, SpanOn;
    var nodes, live := Fold(before, 0).value.nodes, LiveLog(before, trace);
    assert LogOnly(trace.start.value);
    LiveFolds(before, trace);
    RegionIsSpan(Deltas(before), nodes, options.start, options.end);
    RegionBounds(Deltas(before), nodes, options.start, options.end);
    OutcomeCommits(before, before, nodes, Heuristic, sel, owner, options, r, trace);
    SamePrices(before, live);
    LivePriced(live, sel, r.shadowedTokens);
    CommitPrice(live, trace.tail, options, owner, sel, r);
  }

  lemma LivePriced(live: seq<Envelope>, sel: SurfaceSelection, tokens: int)
    requires Fold(live, 0).Some?
    requires var nodes := Fold(live, 0).value.nodes;
             && Prices(Heuristic, BySeq(live), nodes).Some?
             && sel.startIdx == IndexOf(nodes, sel.span.start) && sel.endIdx == IndexOf(nodes, sel.span.end)
             && sel.startIdx <= sel.endIdx < |nodes|
             && tokens == Sum(Prices(Heuristic, BySeq(live), nodes).value[sel.startIdx..sel.endIdx + 1])
    ensures StillPriced(live, Heuristic, sel, tokens)
  {
    hide Fold, Prices, Sum, BySeq;
  }

  /** A longer log with the same surface has the same prices. */
  lemma SamePrices(before: seq<Envelope>, live: seq<Envelope>)
    requires Fold(before, 0).Some? && Fold(live, 0) == Fold(before, 0) && before <= live && Contig(live)
    ensures Prices(Heuristic, BySeq(live), Fold(before, 0).value.nodes) ==
            Prices(Heuristic, BySeq(before), Fold(before, 0).value.nodes)
    ensures TotalPrice(live) == TotalPrice(before)
  {
    hide Fold, BySeq, Prices, Sum;
    FoldedBelow(before);
    BySeqContig(before);
    BySeqContig(live);
    FoldInWindow(before, 0);
    PricesSame(Heuristic, BySeq(before), BySeq(live), Fold(before, 0).value.nodes);
  }
}
