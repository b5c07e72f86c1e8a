/** A compaction run by the agent between turns keeps its log sound, whatever the transaction does. */
module AgentCompaction {
  import opened Wrappers
  import opened SessionEvents
  import opened EventStores
  import opened Surface
  import opened ToolPairing
  import opened TokenMeter
  import opened RangeSelection
  import opened Compaction
  import opened CompactionTheorems
  import opened AgentLog

  lemma RegionPersists(d: map<int, int>, d': map<int, int>, nodes: seq<int>, start: int, end: int)
    requires Extends(d, d') && Region(d, nodes, start, end).Some?
    ensures Region(d', nodes, start, end) == Region(d, nodes, start, end)
  {
    hide Depth;
    DepthGrows(d, d', nodes);
  }

  /** An event that is neither on the surface nor part of the brackets changes nothing. */
  lemma SilentKeepsSound(log: seq<Envelope>, e: Envelope, m: Machine)
    requires Sound(log, m) && e.seqNo == |log|
    requires e.surfaceOp.None? && e.sources.None?
    requires e.kind.CompactionStart? || e.kind.CompactionSummary? || e.kind.CompactionEnd?
    ensures Sound(log + [e], m) && Pending(log + [e]) == Pending(log)
    ensures Fold(log + [e], 0) == Fold(log, 0) && Extends(Deltas(log), Deltas(log + [e]))
  {
    hide Paired, Pending, Scan, Fold, Deltas;
    AppendLogOnly(log, e);
    ScanSnoc(log, e);
  }

  /** The log up to the commit: start and noise leave surface and brackets alone, so the region chosen
      before them is still the region. */
  lemma LiveKeepsSound(before: seq<Envelope>, trace: Trace, m: Machine, start: int, end: int)
    requires Sound(before, m) && trace.start.Some? && Contig(LiveLog(before, trace))
    requires trace.start.value.kind.CompactionStart? && trace.start.value.surfaceOp.None? && trace.start.value.sources.None?
    requires AllNeutral(trace.noise)
    requires Fold(before, 0).Some? && Region(Deltas(before), Fold(before, 0).value.nodes, start, end).Some?
    ensures var live := LiveLog(before, trace);
            && Sound(live, m) && Pending(live) == Pending(before)
            && Fold(live, 0) == Fold(before, 0)
            && Region(Deltas(live), Fold(live, 0).value.nodes, start, end) ==
               Region(Deltas(before), Fold(before, 0).value.nodes, start, end)
  {
    hide Sound, Fold, Deltas, Region, Pending;
    var a := before + [trace.start.value];
    assert trace.start.value == LiveLog(before, trace)[|before|];
    SilentKeepsSound(before, trace.start.value, m);
    NeutralKeepsSound(a, trace.noise, m);
    var nodes := Fold(before, 0).value.nodes;
    RegionPersists(Deltas(before), Deltas(a), nodes, start, end);
    RegionPersists(Deltas(a), Deltas(LiveLog(before, trace)), nodes, start, end);
  }

  /** Log-only events that are no brackets leave the turns and steps as they were. */
  predicate Silent(e: Envelope) {
    LogOnly(e) && (e.kind.CompactionStart? || e.kind.CompactionSummary? || e.kind.CompactionEnd? || e.kind.OtherKnown?)
  }

  lemma {:induction false} ScanSilent(log: seq<Envelope>, more: seq<Envelope>)
    requires forall k :: 0 <= k < |more| ==> Silent(more[k])
    ensures Scan(log + more) == Scan(log)
    decreases |more|
  {
    hide Scan;
    if more == [] {
      assert log + more == log;
    } else {
      var n := |more| - 1;
      ScanSilent(log, more[..n]);
      ScanSnoc(log + more[..n], more[n]);
      assert log + more == (log + more[..n]) + [more[n]];
    }
  }

  /** The events of a commit other than its checkpoint. */
  lemma CommitSilent(live: seq<Envelope>, tail: seq<Entry>, options: Options, owner: Option<nat>,
                     sel: SurfaceSelection, r: CompactionResult)
    requires CommittedOver(live, tail, options, owner, sel, r) && OthersNeutral(tail)
    ensures |Ours(tail)| == 3
    ensures forall k :: 0 <= k < |tail| && k != CheckpointAt(tail) ==> Silent(tail[k].event)
  {
    hide Fold, SpanOn, Ours;
    CommitParts(live, tail, options, owner, sel, r);
    forall k | 0 <= k < |tail| && k != CheckpointAt(tail) ensures Silent(tail[k].event) {
      if tail[k].ours {
        OurEntry(tail, k);
        OursDiffer(tail, k, CheckpointAt(tail));
      }
    }
  }

  lemma CommitScans(live: seq<Envelope>, tail: seq<Entry>, options: Options, owner: Option<nat>,
                    sel: SurfaceSelection, r: CompactionResult)
    requires CommittedOver(live, tail, options, owner, sel, r) && OthersNeutral(tail)
    ensures Scan(live + Events(tail)) == Scan(live)
  {
    hide Fold, SpanOn, FullCommit, Scan, Ours, Events, LogOnly, Silent;
    CommitParts(live, tail, options, owner, sel, r);
    CommitSilent(live, tail, options, owner, sel, r);
    var c := CheckpointAt(tail);
    var before, e, rest := Events(tail[..c]), tail[c].event, Events(tail[c + 1..]);
    CommitCut(live, tail, c);
    ScanSilent(live, before);
    ScanSnoc(live + before, e);
    forall k | 0 <= k < |rest| ensures Silent(rest[k]) {
      assert rest[k] == tail[c + 1 + k].event;
    }
    ScanSilent((live + before) + [e], rest);
  }

  lemma CommitKeepsSound(live: seq<Envelope>, tail: seq<Entry>, options: Options, owner: Option<nat>,
                         sel: SurfaceSelection, r: CompactionResult, m: Machine)
    requires CommittedOver(live, tail, options, owner, sel, r) && Sound(live, m) && OthersNeutral(tail)
    requires Region(Deltas(live), Fold(live, 0).value.nodes, sel.span.start, sel.span.end).Some?
    ensures Sound(live + Events(tail), m) && Pending(live + Events(tail)) == Pending(live)
  {
    hide Fold, Deltas, Clean, Region, Depth, Scan, FullCommit, Ours, Events, OthersNeutral;
    CommitKeepsPairing(live, tail, options, owner, sel, r);
    CommitScans(live, tail, options, owner, sel, r);
  }

  /** A failed bracket: its error-end, with other writers around it. */
  lemma {:induction false} SilentTail(log: seq<Envelope>, tail: seq<Entry>, m: Machine)
    requires Sound(log, m) && Contig(log + Events(tail)) && OthersNeutral(tail)
    requires forall k :: 0 <= k < |tail| && tail[k].ours ==> Silent(tail[k].event)
    ensures Sound(log + Events(tail), m) && Pending(log + Events(tail)) == Pending(log)
    ensures Fold(log + Events(tail), 0) == Fold(log, 0)
    decreases |tail|
  {
    hide Sound, Fold, Pending;
    if tail == [] {
      assert log + Events(tail) == log;
    } else {
      var n := |tail| - 1;
      var e := tail[n].event;
      var so := log + Events(tail[..n]);
      assert log + Events(tail) == so + [e];
      assert (so + [e])[|so|] == e;
      ContigPrefix(so, [e]);
      SilentTail(log, tail[..n], m);
      if tail[n].ours && !e.kind.OtherKnown? {
        SilentKeepsSound(so, e, m);
      } else {
        assert [e][0] == e;
        NeutralKeepsSound(so, [e], m);
      }
    }
  }

  /** The only own event of a failed bracket is its error-end. */
  lemma ErrorEndSilent(tail: seq<Entry>, id: string, owner: Option<nat>)
    requires |Ours(tail)| == 1 && ErrorTail(Ours(tail), id, owner)
    ensures forall k :: 0 <= k < |tail| && tail[k].ours ==> Silent(tail[k].event)
  {
    hide Ours;
    forall k | 0 <= k < |tail| && tail[k].ours ensures Silent(tail[k].event) {
      OurEntry(tail, k);
    }
  }

  /** On a run without lost appends a transaction over the current log leaves the log sound, the open
      calls untouched and the machine where it was. */
  lemma TransactionKeepsSound(before: seq<Envelope>, nodes: seq<int>, meter: Meter, sel: SurfaceSelection,
                              owner: Option<nat>, options: Options, result: Option<CompactionResult>, trace: Trace,
                              m: Machine)
    requires Sound(before, m) && trace.start.Some? && Contig(before + TraceEvents(trace))
    requires Fold(before, 0).Some? && nodes == Fold(before, 0).value.nodes
    requires Region(Deltas(before), nodes, options.start, options.end) == Some(sel)
    requires BracketOutcome(before, before, nodes, meter, sel, owner, options, result, trace)
    requires result.None? ==> |Ours(trace.tail)| == 1 && ErrorTail(Ours(trace.tail), options.compactionId, options.owner)
    requires AllNeutral(trace.noise) && OthersNeutral(trace.tail)
    ensures Sound(before + TraceEvents(trace), m)
    ensures Pending(before + TraceEvents(trace)) == Pending(before)
    ensures result.None? ==> Fold(before + TraceEvents(trace), 0) == Fold(before, 0)
    ensures result.Some? ==>
              && sel.startIdx <= sel.endIdx < |nodes| && |Ours(trace.tail)| == 3
              && Fold(before + TraceEvents(trace), 0).Some?
              && Fold(before + TraceEvents(trace), 0).value.nodes ==
                 Spliced(nodes, sel.startIdx, sel.endIdx, |LiveLog(before, trace)| + CheckpointAt(trace.tail))
    ensures result.Some? ==>
              var x := |LiveLog(before, trace)| + CheckpointAt(trace.tail);
              && |before| <= x < |before + TraceEvents(trace)|
              && (before + TraceEvents(trace))[x].data == UserData(Message("user", result.value.summary))
  {
    hide Sound, Fold, Deltas, Region, Pending, BrokenCommit, FullCommit, Cheaper, StillOn, StillPriced, SpanOn, Ours, Events;
    var live := LiveLog(before, trace);
    assert before + TraceEvents(trace) == live + Events(trace.tail);
    ContigPrefix(live, Events(trace.tail));
    LiveKeepsSound(before, trace, m, options.start, options.end);
    if result.Some? {
      RegionIsSpan(Deltas(live), nodes, options.start, options.end);
      RegionBounds(Deltas(before), nodes, options.start, options.end);
      OthersAreLogOnly(trace.tail);
      OutcomeCommits(before, before, nodes, meter, sel, owner, options, result.value, trace);
      CommitParts(live, trace.tail, options, owner, sel, result.value);
      assert (live + Events(trace.tail))[|live| + CheckpointAt(trace.tail)] == trace.tail[CheckpointAt(trace.tail)].event;
      CommitFolds(live, trace.tail, options, owner, sel, result.value);
      CommitKeepsSound(live, trace.tail, options, owner, sel, result.value, m);
    } else {
      ErrorEndSilent(trace.tail, options.compactionId, options.owner);
      SilentTail(live, trace.tail, m);
    }
  }

  lemma OthersAreLogOnly(tail: seq<Entry>)
    requires OthersNeutral(tail)
    ensures OthersLogOnly(tail)
  {
  }
}
