/** The durable compaction transaction (backend/pkg/compaction/compactor.go). */
module Compaction {
  import opened Wrappers
  import opened SessionEvents
  import opened EventStores
  import opened Surface
  import opened ToolPairing
  import opened TokenMeter
  import opened RangeSelection
  import opened CompactionLock

  /** Stands for the fixed sentence that tells the model it is reading a checkpoint; only its place matters. */
  const CHECKPOINT_NOTICE: string := "checkpoint of an earlier span"
  const OPEN_TAG: string := "<compacted-summary>"
  const CLOSE_TAG: string := "</compacted-summary>"

  /** How a failure is reported: `Bare` is the plain cause, the others are classified codes. */
  datatype Failure = Bare | Busy | Cancelled | Changed | SummaryFailed | CommitFailed | PersistenceFailed

  datatype Options = Options(
    owner: Option<nat>,
    manual: bool,
    automatic: bool,
    start: int,
    end: int,
    reload: bool,
    compactionId: string)

  /** Everything the transaction does not decide itself: cancellation, the summarizer's answer to the messages
      it is shown, the live re-read and the final flush; and what other writers append between the start and the re-read, and then
      before each of the transaction's own appends. */
  datatype World = World(
    cancelledBefore: bool,
    summary: seq<Message> -> Option<seq<ContentBlock>>,
    interference: seq<Envelope>,
    cancelledDuring: bool,
    reloadOk: bool,
    flush: Option<bool>,
    beforeSummary: seq<Envelope>,
    beforeCheckpoint: seq<Envelope>,
    beforeEnd: seq<Envelope>,
    beforeErrorEnd: seq<Envelope>)

  ghost predicate WorldNeutral(w: World) {
    && AllNeutral(w.interference) && AllNeutral(w.beforeSummary) && AllNeutral(w.beforeCheckpoint)
    && AllNeutral(w.beforeEnd) && AllNeutral(w.beforeErrorEnd)
  }

  datatype CompactionResult = CompactionResult(
    startSeq: int,
    summarySeq: int,
    endSeq: int,
    summary: seq<ContentBlock>,
    shadowed: seq<int>,
    shadowedTokens: int)

  /** An event in the log, appended by the transaction or by another writer. */
  datatype Entry = Entry(event: Envelope, ours: bool)

  /** What one transaction left in the log: its start, then events of other writers until the re-read, then
      its own events with those of other writers in between. */
  datatype Trace = Trace(start: Option<Envelope>, noise: seq<Envelope>, tail: seq<Entry>)

  function TraceEvents(t: Trace): seq<Envelope> {
    if t.start.None? then [] else [t.start.value] + t.noise + Events(t.tail)
  }

  function Events(tail: seq<Entry>): (r: seq<Envelope>)
    ensures |r| == |tail| && forall k :: 0 <= k < |tail| ==> r[k] == tail[k].event
  {
    if tail == [] then [] else Events(tail[..|tail| - 1]) + [tail[|tail| - 1].event]
  }

  /** The events of a tail the transaction appended itself. */
  function Ours(tail: seq<Entry>): (r: seq<Envelope>)
    ensures |r| <= |tail|
  {
    if tail == [] then []
    else
      var n := |tail| - 1;
      if tail[n].ours then Ours(tail[..n]) + [tail[n].event] else Ours(tail[..n])
  }

  ghost predicate OthersNeutral(tail: seq<Entry>) {
    forall k :: 0 <= k < |tail| && !tail[k].ours ==> Neutral(tail[k].event)
  }

  /** Another writer's events. */
  function Others(noise: seq<Envelope>): (r: seq<Entry>)
    ensures |r| == |noise| && forall k :: 0 <= k < |noise| ==> r[k] == Entry(noise[k], false)
  {
    seq(|noise|, i requires 0 <= i < |noise| => Entry(noise[i], false))
  }

  lemma {:induction false} TailConcat(a: seq<Entry>, b: seq<Entry>)
    ensures Events(a + b) == Events(a) + Events(b) && Ours(a + b) == Ours(a) + Ours(b)
    decreases |b|
  {
    if b == [] {
      assert a + b == a;
    } else {
      var n := |b| - 1;
      assert (a + b)[..|a + b| - 1] == a + b[..n] && (a + b)[|a + b| - 1] == b[n];
      TailConcat(a, b[..n]);
    }
  }

  lemma {:induction false} OthersFacts(noise: seq<Envelope>)
    ensures Events(Others(noise)) == noise && Ours(Others(noise)) == []
    decreases |noise|
  {
    if noise != [] {
      var n := |noise| - 1;
      OthersFacts(noise[..n]);
      assert Others(noise)[..n] == Others(noise[..n]);
    }
  }

  /** One more entry of the transaction. */
  lemma TailSnoc(tail: seq<Entry>, e: Envelope)
    ensures Events(tail + [Entry(e, true)]) == Events(tail) + [e] && Ours(tail + [Entry(e, true)]) == Ours(tail) + [e]
  {
    assert (tail + [Entry(e, true)])[..|tail|] == tail;
  }

  /** The summarizer's blocks between the opening and the closing text. */
  function FrameSummary(summary: seq<ContentBlock>): seq<ContentBlock> {
    [TextBlock(CHECKPOINT_NOTICE + "\n\n" + OPEN_TAG)] + summary + [TextBlock(CLOSE_TAG)]
  }

  /** Every block of the answer, in order, between an opening and a closing text. */
  ghost predicate Frames(blocks: seq<ContentBlock>, answer: seq<ContentBlock>) {
    && |blocks| == |answer| + 2 && blocks[1..|blocks| - 1] == answer
    && blocks[0] == TextBlock(CHECKPOINT_NOTICE + "\n\n" + OPEN_TAG) && blocks[|blocks| - 1] == TextBlock(CLOSE_TAG)
  }

  function StartEnvelope(id: string, owner: Option<nat>): Envelope {
    NewEnvelope(0, CompactionStart, CompactionStartData(id, owner))
  }

  function EndEnvelope(id: string, owner: Option<nat>, failed: bool): Envelope {
    NewEnvelope(0, CompactionEnd, CompactionEndData(id, owner, failed))
  }

  function SummaryEnvelope(id: string, sel: SurfaceSelection, tokens: int): Envelope {
    NewEnvelope(0, CompactionSummary,
                CompactionSummaryData(id, sel.span.start, sel.span.end, sel.shadowed, tokens))
  }

  /** The checkpoint message that replaces the selected span. */
  function CheckpointEnvelope(sel: SurfaceSelection, framed: seq<ContentBlock>, startSeq: int, summarySeq: int): Envelope {
    Envelope(0, UserMessage, UserData(Message("user", framed)),
             Some([startSeq, summarySeq] + sel.shadowed),
             Some(Replace(sel.span.start, sel.span.end)), false)
  }

  // ---------------------------------------------------------------- shapes a transaction can leave

  /** The error-end, or nothing when even that append failed. */
  predicate ErrorTail(own: seq<Envelope>, id: string, owner: Option<nat>) {
    own == [] || (|own| == 1 && own[0] == EndEnvelope(id, owner, true).(seqNo := own[0].seqNo))
  }

  predicate IsSummary(e: Envelope, id: string, sel: SurfaceSelection, tokens: int) {
    e == SummaryEnvelope(id, sel, tokens).(seqNo := e.seqNo)
  }

  predicate IsCheckpoint(e: Envelope, sel: SurfaceSelection, framed: seq<ContentBlock>, startSeq: int, summarySeq: int) {
    e == CheckpointEnvelope(sel, framed, startSeq, summarySeq).(seqNo := e.seqNo)
  }

  /** A commit that went all the way: summary, checkpoint, end. */
  predicate FullCommit(own: seq<Envelope>, options: Options, owner: Option<nat>, sel: SurfaceSelection,
                       r: CompactionResult)
  {
    && |own| == 3
    && IsSummary(own[0], options.compactionId, sel, r.shadowedTokens)
    && IsCheckpoint(own[1], sel, r.summary, r.startSeq, own[0].seqNo)
    && own[2] == EndEnvelope(options.compactionId, owner, false).(seqNo := own[2].seqNo)
    && r.summarySeq == own[0].seqNo
    && r.endSeq == own[2].seqNo
    && r.shadowed == sel.shadowed
  }

  /** A commit that stopped early: a prefix of summary and checkpoint, then perhaps the error-end. */
  ghost predicate BrokenCommit(own: seq<Envelope>, options: Options, sel: SurfaceSelection, startSeq: int) {
    || ErrorTail(own, options.compactionId, options.owner)
    || (&& own != []
        && (exists tokens :: IsSummary(own[0], options.compactionId, sel, tokens))
        && (|| ErrorTail(own[1..], options.compactionId, options.owner)
            || (&& |own| > 1
                && (exists framed :: IsCheckpoint(own[1], sel, framed, startSeq, own[0].seqNo))
                && ErrorTail(own[2..], options.compactionId, options.owner))))
  }

  // ---------------------------------------------------------------- pieces of the transaction

  function Classify(manual: bool, commitStage: bool, changed: bool): Failure {
    if !manual then Bare
    else if commitStage then CommitFailed
    else if changed then Changed
    else SummaryFailed
  }

  /** Tries to append one event of the transaction, behind what other writers append first. */
  method AppendOurs(store: EventStore, between: seq<Envelope>, e: Envelope)
    returns (ok: bool, stamped: Envelope, ghost tail: seq<Entry>)
    requires store.Valid()
    modifies store`log, store`seqCounter, store`faults, store`lost
    ensures store.Valid()
    ensures store.log == old(store.log) + Events(tail)
    ensures stamped == e.(seqNo := stamped.seqNo)
    ensures Ours(tail) == if ok then [stamped] else []
    ensures !store.lost ==> !old(store.lost) && ok
    ensures between == [] ==> OnlyOurs(tail)
    ensures AllNeutral(between) ==> OthersNeutral(tail)
  {
    hide Increasing, Contig, AllNeutral, Ours, Events, Others, OnlyOurs, OthersNeutral;
    ghost var noise := Interfere(store, between);
    ok, stamped := store.Append(e);
    tail := if ok then Others(noise) + [Entry(stamped, true)] else Others(noise);
    AppendedTail(noise, stamped);
    assert store.log == if ok then old(store.log) + noise + [stamped] else old(store.log) + noise;
  }

  lemma AppendedTail(noise: seq<Envelope>, e: Envelope)
    ensures Events(Others(noise)) == noise && Ours(Others(noise)) == []
    ensures Events(Others(noise) + [Entry(e, true)]) == noise + [e] && Ours(Others(noise) + [Entry(e, true)]) == [e]
    ensures noise == [] ==> OnlyOurs(Others(noise)) && OnlyOurs(Others(noise) + [Entry(e, true)])
    ensures AllNeutral(noise) ==> OthersNeutral(Others(noise)) && OthersNeutral(Others(noise) + [Entry(e, true)])
  {
    hide Ours, Events;
    OthersFacts(noise);
    TailSnoc(Others(noise), e);
  }

  method CloseFailure(store: EventStore, options: Options, between: seq<Envelope>) returns (ghost tail: seq<Entry>)
    requires store.Valid()
    modifies store`log, store`seqCounter, store`faults, store`lost
    ensures store.Valid()
    ensures store.log == old(store.log) + Events(tail)
    ensures ErrorTail(Ours(tail), options.compactionId, options.owner)
    ensures !store.lost ==> !old(store.lost) && |Ours(tail)| == 1
    ensures between == [] ==> OnlyOurs(tail)
    ensures AllNeutral(between) ==> OthersNeutral(tail)
  {
    hide Ours, Events;
    var ok, stamped;
    ok, stamped, tail := AppendOurs(store, between, EndEnvelope(options.compactionId, options.owner, true));
  }

  /** The messages of the shadowed events, in order; `None` when a seq has no event or one that does not
      decode. */
  function Projected(bySeq: map<int, Envelope>, shadowed: seq<int>): Option<seq<Message>> {
    if shadowed == [] then Some([])
    else
      var n := |shadowed| - 1;
      var before := Projected(bySeq, shadowed[..n]);
      if before.None? || shadowed[n] !in bySeq || ProjectEventMessage(bySeq[shadowed[n]]).Err? then None
      else
        var message := ProjectEventMessage(bySeq[shadowed[n]]).value;
        Some(if message.Some? then before.value + [message.value] else before.value)
  }

  lemma {:induction false} ProjectedPrefix(bySeq: map<int, Envelope>, shadowed: seq<int>, n: nat)
    requires n <= |shadowed| && Projected(bySeq, shadowed).Some?
    ensures Projected(bySeq, shadowed[..n]).Some?
    decreases |shadowed|
  {
    hide ProjectEventMessage;
    if n == |shadowed| {
      assert shadowed[..n] == shadowed;
    } else {
      assert shadowed[..|shadowed| - 1][..n] == shadowed[..n];
      ProjectedPrefix(bySeq, shadowed[..|shadowed| - 1], n);
    }
  }

  /** The summarizer's input in terms of the events: the own message of every shadowed event, in order. */
  lemma {:induction false} ProjectedMeaning(bySeq: map<int, Envelope>, shadowed: seq<int>)
    ensures Projected(bySeq, shadowed).Some? <==>
            forall i :: 0 <= i < |shadowed| ==> shadowed[i] in bySeq && !Misshapen(bySeq[shadowed[i]])
    ensures Projected(bySeq, shadowed).Some? ==> Projected(bySeq, shadowed).value == MessagesOf(Fetch(bySeq, shadowed))
    decreases |shadowed|
  {
    hide ProjectEventMessage;
    if shadowed != [] {
      var n := |shadowed| - 1;
      ProjectedMeaning(bySeq, shadowed[..n]);
      assert forall i :: 0 <= i < n ==> shadowed[..n][i] == shadowed[i];
      if Projected(bySeq, shadowed[..n]).Some? && shadowed[n] in bySeq {
        var e := bySeq[shadowed[n]];
        ProjectMeaning(e);
        if !Misshapen(e) {
          var es := Fetch(bySeq, shadowed);
          assert es[..n] == Fetch(bySeq, shadowed[..n]) && es[n] == e;
          var before := MessagesOf(es[..n]);
          assert before + [] == before;
          assert MessagesOf(es) == before + if Speaks(e) then [e.data.message] else [];
        }
      }
    }
  }

  method RegionMessages(events: seq<Envelope>, shadowed: seq<int>) returns (r: Option<seq<Message>>)
    ensures r == Projected(BySeq(events), shadowed)
    ensures r.Some? <==>
            forall i :: 0 <= i < |shadowed| ==> shadowed[i] in BySeq(events) && !Misshapen(BySeq(events)[shadowed[i]])
    ensures r.Some? ==> r.value == MessagesOf(Fetch(BySeq(events), shadowed))
  {
    hide BySeq, ProjectEventMessage;
    ProjectedMeaning(BySeq(events), shadowed);
    var bySeq := IndexBySeq(events);
    var out: seq<Message> := [];
    for i := 0 to |shadowed|
      invariant Projected(bySeq, shadowed[..i]) == Some(out)
    {
      assert shadowed[..i + 1][..i] == shadowed[..i];
      if shadowed[i] !in bySeq || ProjectEventMessage(bySeq[shadowed[i]]).Err? {
        if Projected(bySeq, shadowed).Some? {
          ProjectedPrefix(bySeq, shadowed, i + 1);
        }
        return None;
      }
      var message := ProjectEventMessage(bySeq[shadowed[i]]);
      if message.value.Some? {
        out := out + [message.value.value];
      }
    }
    assert shadowed[..|shadowed|] == shadowed;
    return Some(out);
  }

  /** Other writers append while the summarizer works. */
  method Interfere(store: EventStore, events: seq<Envelope>) returns (ghost noise: seq<Envelope>)
    requires store.Valid()
    modifies store`log, store`seqCounter, store`faults, store`lost
    ensures store.Valid()
    ensures store.log == old(store.log) + noise
    ensures !store.lost ==> !old(store.lost)
    ensures events == [] ==> noise == [] && store.lost == old(store.lost)
    ensures AllNeutral(events) ==> AllNeutral(noise)
  {
    noise := [];
    for i := 0 to |events|
      invariant store.Valid()
      invariant store.log == old(store.log) + noise
      invariant !store.lost ==> !old(store.lost)
      invariant i == 0 ==> noise == [] && store.lost == old(store.lost)
      invariant AllNeutral(events) ==> AllNeutral(noise)
    {
      var ok, stamped := store.Append(events[i]);
      noise := noise + if ok then [stamped] else [];
    }
  }

  /** The selected span is still on this surface, whole and in order. */
  ghost predicate SpanOn(nodes: seq<int>, sel: SurfaceSelection) {
    var i, j := IndexOf(nodes, sel.span.start), IndexOf(nodes, sel.span.end);
    i <= j < |nodes| && nodes[i..j + 1] == sel.shadowed
  }

  /** The live log folds, its surface still holds the span between balanced cuts, and every node of it
      costs what it cost when the summary was prepared. */
  ghost predicate Stable(log: seq<Envelope>, meter: Meter, sel: SurfaceSelection, prepared: seq<int>) {
    && Fold(log, 0).Some?
    && var nodes := Fold(log, 0).value.nodes;
    && var current := Region(Deltas(log), nodes, sel.span.start, sel.span.end);
    && current.Some? && current.value.shadowed == sel.shadowed
    && var prices := Prices(meter, BySeq(log), nodes);
    && prices.Some? && |sel.shadowed| <= |prepared|
    && forall k :: current.value.startIdx <= k <= current.value.endIdx ==>
         prices.value[k] == prepared[k - current.value.startIdx]
  }

  /** The recheck against the live log. Success means the live surface still holds the span, between
      balanced cuts. */
  method AssertSelectedSpanStable(store: EventStore, meter: Meter, sel: SurfaceSelection, prepared: seq<int>,
                                  reload: bool, reloadOk: bool)
    returns (ok: bool)
    ensures ok <==> !reload || (reloadOk && Stable(store.log, meter, sel, prepared))
    ensures ok && reload ==> StillOn(store.log, sel)
  {
    hide Fold, Deltas, Clean, Balances, Prices, BySeq;
    if !reload {
      return true;
    }
    if !reloadOk {
      return false;
    }
    var fold := FoldSurface(store.log, 0);
    if fold.None? {
      return false;
    }
    var nodes := fold.value.nodes;
    var current := ValidateSurfaceRegion(store.log, nodes, sel.span.start, sel.span.end);
    if current.None? {
      return false;
    }
    if current.value.shadowed != sel.shadowed {
      return false;
    }
    var priced := MeasureNodes(meter, store.log, nodes);
    if priced.None? {
      return false;
    }
    var i := current.value.startIdx;
    while i <= current.value.endIdx
      invariant current.value.startIdx <= i <= current.value.endIdx + 1
      invariant i - current.value.startIdx <= |prepared|
      invariant forall k :: current.value.startIdx <= k < i ==> priced.value[k] == prepared[k - current.value.startIdx]
      decreases current.value.endIdx - i
    {
      if i - current.value.startIdx >= |prepared| || priced.value[i] != prepared[i - current.value.startIdx] {
        return false;
      }
      i := i + 1;
    }
    return true;
  }

  lemma StableIsPriced(log: seq<Envelope>, meter: Meter, sel: SurfaceSelection, prepared: seq<nat>)
    requires Stable(log, meter, sel, prepared) && |prepared| == |sel.shadowed|
    ensures StillPriced(log, meter, sel, Sum(prepared))
  {
    hide Fold, Deltas, Prices, BySeq, Sum, Clean, Balances;
    var nodes := Fold(log, 0).value.nodes;
    var prices := Prices(meter, BySeq(log), nodes).value;
    var current := Region(Deltas(log), nodes, sel.span.start, sel.span.end).value;
    assert prices[current.startIdx..current.endIdx + 1] == prepared;
  }

  method SumSpan(priced: seq<nat>, i: nat, j: nat) returns (total: int)
    requires i <= j < |priced|
    ensures total == Sum(priced[i..j + 1])
  {
    total := 0;
    var span := priced[i..j + 1];
    for k := 0 to |span|
      invariant total == Sum(span[..k])
    {
      assert span[..k + 1][..k] == span[..k];
      total := total + span[k];
    }
    assert span[..|span|] == span;
  }

  // ---------------------------------------------------------------- the transaction

  /** What the transaction demands of the log it is asked to compact. */
  ghost predicate Admitted(events: seq<Envelope>, nodes: seq<int>, options: Options, cancelledBefore: bool) {
    && !(options.manual && cancelledBefore)
    && Region(Deltas(events), nodes, options.start, options.end).Some?
    && Inactive(EntryState(OpenTurn(events), LastBracket(events), LastEndSeed(events)))
    && (options.manual ==> OpenTurn(events).None?)
    && (options.automatic ==> OpenTurn(events).Some?)
  }

  /** The shadow price is the span's total under the meter, and the framed summary is strictly
      cheaper than it. */
  ghost predicate Cheaper(meter: Meter, events: seq<Envelope>, nodes: seq<int>, sel: SurfaceSelection,
                          framed: seq<ContentBlock>, tokens: int)
  {
    && sel.startIdx <= sel.endIdx < |nodes|
    && var prices := Prices(meter, BySeq(events), nodes);
    && prices.Some?
    && tokens == Sum(prices.value[sel.startIdx..sel.endIdx + 1])
    && ContentTokens(framed) < tokens
  }

  /** The live log folds, and its surface still holds the span whole between balanced cuts. */
  ghost predicate StillOn(live: seq<Envelope>, sel: SurfaceSelection) {
    && Fold(live, 0).Some?
    && SpanOn(Fold(live, 0).value.nodes, sel)
    && Region(Deltas(live), Fold(live, 0).value.nodes, sel.span.start, sel.span.end).Some?
  }

  /** The live surface can be priced, and its span still costs what was recorded. */
  ghost predicate StillPriced(live: seq<Envelope>, meter: Meter, sel: SurfaceSelection, tokens: int) {
    && Fold(live, 0).Some?
    && var nodes := Fold(live, 0).value.nodes;
    && var prices := Prices(meter, BySeq(live), nodes);
    && prices.Some?
    && var i, j := IndexOf(nodes, sel.span.start), IndexOf(nodes, sel.span.end);
    && i <= j < |nodes| && tokens == Sum(prices.value[i..j + 1])
  }

  /** The reason for a refusal decided before anything is written. */
  ghost function RefusalOf(events: seq<Envelope>, nodes: seq<int>, options: Options, cancelledBefore: bool): Failure {
    if options.manual && cancelledBefore then Cancelled
    else if Region(Deltas(events), nodes, options.start, options.end).None? then Bare
    else if !Inactive(EntryState(OpenTurn(events), LastBracket(events), LastEndSeed(events))) then Busy
    else if options.manual && OpenTurn(events).Some? then Busy
    else Bare
  }

  /** What the summarizer says to the messages of the span. */
  ghost function AnswerOf(events: seq<Envelope>, shadowed: seq<int>, summarize: seq<Message> -> Option<seq<ContentBlock>>)
    : Option<seq<ContentBlock>>
  {
    var messages := Projected(BySeq(events), shadowed);
    if messages.None? then None else summarize(messages.value)
  }

  /** The recheck passes over the log as it stands then. */
  ghost predicate Unchanged(live: seq<Envelope>, meter: Meter, sel: SurfaceSelection, prepared: seq<nat>, options: Options,
                            world: World)
  {
    !options.reload || (world.reloadOk && Stable(live, meter, sel, prepared))
  }

  /** Why a started bracket is closed without a commit, or nothing when it goes on to commit: an unpriced or
      undecodable span or a summarizer that failed, a cancel, a changed span, a summary that saves nothing. */
  ghost function Hindrance(meter: Meter, events: seq<Envelope>, nodes: seq<int>, sel: SurfaceSelection, options: Options,
                           world: World, live: seq<Envelope>): Option<Failure>
    requires sel.startIdx <= sel.endIdx < |nodes|
  {
    var prices, answer := Prices(meter, BySeq(events), nodes), AnswerOf(events, sel.shadowed, world.summary);
    var failed := if options.manual then SummaryFailed else Bare;
    if prices.None? || answer.None? then Some(failed)
    else if options.manual && world.cancelledDuring then Some(Cancelled)
    else if !Unchanged(live, meter, sel, prices.value[sel.startIdx..sel.endIdx + 1], options, world) then
      Some(if options.manual then Changed else Bare)
    else if ContentTokens(FrameSummary(answer.value)) >= Sum(prices.value[sel.startIdx..sel.endIdx + 1]) then Some(failed)
    else None
  }

  /** Refusals decided before anything is written, and the turn that owns the bracket. */
  method Enter(events: seq<Envelope>, nodes: seq<int>, options: Options, cancelledBefore: bool)
    returns (selection: Option<SurfaceSelection>, owner: Option<nat>, err: Failure)
    ensures selection.Some? ==> selection == Region(Deltas(events), nodes, options.start, options.end)
    ensures selection.Some? <==> Admitted(events, nodes, options, cancelledBefore)
    ensures owner == OwnerOf(options, events)
    ensures selection.None? ==> err == RefusalOf(events, nodes, options, cancelledBefore)
  {
    hide Region, Deltas, OpenTurn, LastBracket, LastEndSeed, Inactive;
    var state := InspectCompactionEntryState(events);
    owner := if options.owner.Some? then options.owner else state.openTurn;
    if options.manual && cancelledBefore {
      return None, owner, Cancelled;
    }
    selection := ValidateSurfaceRegion(events, nodes, options.start, options.end);
    if selection.None? {
      return None, owner, Bare;
    }
    if !Inactive(state) {
      return None, owner, Busy;
    }
    if options.manual && state.openTurn.Some? {
      return None, owner, Busy;
    }
    if options.automatic && state.openTurn.None? {
      return None, owner, Bare;
    }
    return selection, owner, Bare;
  }

  function OwnerOf(options: Options, events: seq<Envelope>): Option<nat> {
    if options.owner.Some? then options.owner else OpenTurn(events)
  }

  /** Everything between the start and the first commit event: price, project, summarize, recheck.
      Returns the framed summary and the shadow price, or the failure to close with. */
  method Prepare(store: EventStore, events: seq<Envelope>, nodes: seq<int>, meter: Meter, sel: SurfaceSelection,
                 options: Options, world: World)
    returns (framed: seq<ContentBlock>, tokens: int, err: Option<Failure>, ghost noise: seq<Envelope>)
    requires store.Valid()
    requires sel.startIdx <= sel.endIdx < |nodes| && |sel.shadowed| == sel.endIdx - sel.startIdx + 1
    modifies store`log, store`seqCounter, store`faults, store`lost
    ensures store.Valid()
    ensures store.log == old(store.log) + noise
    ensures !store.lost ==> !old(store.lost)
    ensures world.interference == [] ==> noise == [] && store.lost == old(store.lost)
    ensures AllNeutral(world.interference) ==> AllNeutral(noise)
    ensures err.None? ==>
              && Cheaper(meter, events, nodes, sel, framed, tokens)
              && AnswerOf(events, sel.shadowed, world.summary).Some? &&
                 Frames(framed, AnswerOf(events, sel.shadowed, world.summary).value)
    ensures err == Hindrance(meter, events, nodes, sel, options, world, store.log)
    ensures err.None? && options.reload ==> StillOn(store.log, sel) && StillPriced(store.log, meter, sel, tokens)
  {
    hide StillOn, StillPriced, Stable, Prices, BySeq, ContentTokens, Sum, Projected;
    framed, tokens, noise := [], 0, [];
    var prices := MeasureNodes(meter, events, nodes);
    if prices.None? {
      return framed, 0, Some(Classify(options.manual, false, false)), noise;
    }
    var input := RegionMessages(events, sel.shadowed);
    if input.None? {
      return framed, 0, Some(Classify(options.manual, false, false)), noise;
    }
    var answer := world.summary(input.value);
    noise := Interfere(store, world.interference);
    if answer.None? {
      return framed, 0, Some(Classify(options.manual, false, false)), noise;
    }
    if options.manual && world.cancelledDuring {
      return framed, 0, Some(Cancelled), noise;
    }
    var stable := AssertSelectedSpanStable(store, meter, sel, prices.value[sel.startIdx..sel.endIdx + 1],
                                           options.reload, world.reloadOk);
    if !stable {
      return framed, 0, Some(Classify(options.manual, false, true)), noise;
    }
    tokens := SumSpan(prices.value, sel.startIdx, sel.endIdx);
    if options.reload {
      StableIsPriced(store.log, meter, sel, prices.value[sel.startIdx..sel.endIdx + 1]);
    }
    framed := [TextBlock(CHECKPOINT_NOTICE + "\n\n" + OPEN_TAG)];
    framed := framed + answer.value;
    framed := framed + [TextBlock(CLOSE_TAG)];
    var framedTokens := EstimateContentTokens(framed);
    if framedTokens >= tokens {
      return framed, tokens, Some(Classify(options.manual, false, false)), noise;
    }
    return framed, tokens, None, noise;
  }

  /** Nothing of others among these entries when the world has nothing for the commit stage. */
  ghost predicate OnlyOurs(tail: seq<Entry>) {
    forall k :: 0 <= k < |tail| ==> tail[k].ours
  }

  predicate NoLate(w: World) {
    w.beforeSummary == [] && w.beforeCheckpoint == [] && w.beforeEnd == [] && w.beforeErrorEnd == []
  }

  /** What `late` says of the world holds of the entries written under it. */
  ghost predicate LateOk(w: World, tail: seq<Entry>) {
    (NoLate(w) ==> OnlyOurs(tail)) && (WorldNeutral(w) ==> OthersNeutral(tail))
  }

  lemma LateConcat(w: World, a: seq<Entry>, b: seq<Entry>)
    requires LateOk(w, a) && LateOk(w, b)
    ensures LateOk(w, a + b)
  {
    hide WorldNeutral, NoLate, Neutral;
  }

  /** Appends summary and checkpoint; `None` when either append fails. */
  method CommitBody(store: EventStore, options: Options, sel: SurfaceSelection, framed: seq<ContentBlock>,
                    tokens: int, startSeq: int, world: World)
    returns (summarySeq: Option<int>, ghost body: seq<Entry>)
    requires store.Valid()
    modifies store`log, store`seqCounter, store`faults, store`lost
    ensures store.Valid() && LateOk(world, body)
    ensures store.log == old(store.log) + Events(body)
    ensures !store.lost ==> !old(store.lost)
    ensures summarySeq.Some? ==>
              && |Ours(body)| == 2
              && summarySeq.value == Ours(body)[0].seqNo
              && IsSummary(Ours(body)[0], options.compactionId, sel, tokens)
              && IsCheckpoint(Ours(body)[1], sel, framed, startSeq, Ours(body)[0].seqNo)
    ensures summarySeq.None? ==> store.lost
    ensures summarySeq.None? ==>
              Ours(body) == [] || (|Ours(body)| == 1 && IsSummary(Ours(body)[0], options.compactionId, sel, tokens))
  {
    hide Ours, Events, Neutral, Increasing, Contig;
    var summaryOk, summaryEnv, checkpointOk, checkpointEnv;
    ghost var more;
    summaryOk, summaryEnv, body := AppendOurs(store, world.beforeSummary, SummaryEnvelope(options.compactionId, sel, tokens));
    if !summaryOk {
      return None, body;
    }
    checkpointOk, checkpointEnv, more :=
      AppendOurs(store, world.beforeCheckpoint, CheckpointEnvelope(sel, framed, startSeq, summaryEnv.seqNo));
    TailConcat(body, more);
    LateConcat(world, body, more);
    body := body + more;
    if !checkpointOk {
      return None, body;
    }
    return Some(summaryEnv.seqNo), body;
  }

  /** Summary and checkpoint are both in the log. */
  predicate BodyWritten(own: seq<Envelope>) {
    |own| > 1 && own[1].kind.UserMessage?
  }

  /** The commit stage: body, end, and the error-end when one of the appends fails. */
  method Commit(store: EventStore, options: Options, owner: Option<nat>, sel: SurfaceSelection,
                framed: seq<ContentBlock>, tokens: int, startSeq: int, world: World)
    returns (result: Option<CompactionResult>, err: Failure, ghost tail: seq<Entry>)
    requires store.Valid()
    modifies store`log, store`seqCounter, store`faults, store`lost
    ensures store.Valid() && LateOk(world, tail)
    ensures store.log == old(store.log) + Events(tail)
    ensures !store.lost ==> !old(store.lost)
    ensures result.Some? ==>
              && FullCommit(Ours(tail), options, owner, sel, result.value)
              && result.value.startSeq == startSeq
              && result.value.summary == framed && result.value.shadowedTokens == tokens
    ensures result.None? ==> BrokenCommit(Ours(tail), options, sel, startSeq)
    ensures result.None? ==> store.lost
    ensures result.None? ==> err == if options.manual || BodyWritten(Ours(tail)) then CommitFailed else Bare
  {
    hide Ours, Events, Neutral, Increasing, Contig, LateOk;
    var summarySeq, body := CommitBody(store, options, sel, framed, tokens, startSeq, world);
    tail := body;
    if summarySeq.None? {
      ghost var closing := CloseFailure(store, options, world.beforeErrorEnd);
      CloseIsLate(world, closing);
      TailConcat(body, closing);
      LateConcat(world, body, closing);
      tail := body + closing;
      if Ours(body) != [] {
        assert Ours(tail)[0] == Ours(body)[0] && Ours(tail)[1..] == Ours(closing);
      } else {
        assert Ours(tail) == Ours(closing);
      }
      return None, Classify(options.manual, true, false), tail;
    }
    var endOk, endEnv;
    ghost var more;
    endOk, endEnv, more := AppendOurs(store, world.beforeEnd, EndEnvelope(options.compactionId, owner, false));
    EndIsLate(world, more);
    TailConcat(body, more);
    LateConcat(world, body, more);
    tail := body + more;
    if !endOk {
      assert Ours(tail) == Ours(body);
      ghost var closing := CloseFailure(store, options, world.beforeErrorEnd);
      CloseIsLate(world, closing);
      TailConcat(tail, closing);
      LateConcat(world, tail, closing);
      tail := tail + closing;
      assert Ours(tail)[0] == Ours(body)[0] && Ours(tail)[1] == Ours(body)[1] && Ours(tail)[2..] == Ours(closing);
      return None, CommitFailed, tail;
    }
    return Some(CompactionResult(startSeq, summarySeq.value, endEnv.seqNo, framed, sel.shadowed, tokens)), Bare, tail;
  }

  lemma CloseIsLate(w: World, tail: seq<Entry>)
    requires w.beforeErrorEnd == [] ==> OnlyOurs(tail)
    requires AllNeutral(w.beforeErrorEnd) ==> OthersNeutral(tail)
    ensures LateOk(w, tail)
  {
  }

  lemma EndIsLate(w: World, tail: seq<Entry>)
    requires w.beforeEnd == [] ==> OnlyOurs(tail)
    requires AllNeutral(w.beforeEnd) ==> OthersNeutral(tail)
    ensures LateOk(w, tail)
  {
  }

  /** The log at the recheck: the start and whatever others appended behind it. */
  function LiveLog(before: seq<Envelope>, trace: Trace): seq<Envelope>
    requires trace.start.Some?
  {
    before + [trace.start.value] + trace.noise
  }

  /** What a bracket over a selection may leave behind and report. */
  ghost predicate BracketOutcome(before: seq<Envelope>, events: seq<Envelope>, nodes: seq<int>, meter: Meter,
                                 sel: SurfaceSelection, owner: Option<nat>, options: Options,
                                 result: Option<CompactionResult>, trace: Trace)
    requires trace.start.Some?
  {
    var startSeq := trace.start.value.seqNo;
    && trace.start.value == StartEnvelope(options.compactionId, owner).(seqNo := startSeq)
    && (result.None? ==> BrokenCommit(Ours(trace.tail), options, sel, startSeq))
    && (result.Some? ==>
          && FullCommit(Ours(trace.tail), options, owner, sel, result.value)
          && result.value.startSeq == startSeq
          && Cheaper(meter, events, nodes, sel, result.value.summary, result.value.shadowedTokens)
          && (options.reload ==>
                && StillOn(LiveLog(before, trace), sel)
                && StillPriced(LiveLog(before, trace), meter, sel, result.value.shadowedTokens)))
  }

  /** How a started bracket comes out: closed for the hindrance, if there is one; else committed, unless an
      append was lost. */
  ghost predicate Closes(hindrance: Option<Failure>, options: Options, result: Option<CompactionResult>,
                         err: Option<Failure>, trace: Trace, lost: bool)
  {
    if hindrance.Some? then result.None? && err == hindrance
    else result.None? ==> lost && err == Some(if options.manual || BodyWritten(Ours(trace.tail)) then CommitFailed else Bare)
  }

  /** The bracket itself: from the start to the end that closes it. */
  method RunBracket(store: EventStore, events: seq<Envelope>, nodes: seq<int>, meter: Meter, sel: SurfaceSelection,
                    owner: Option<nat>, options: Options, world: World)
    returns (result: Option<CompactionResult>, err: Option<Failure>, ghost trace: Trace)
    requires store.Valid()
    requires sel.startIdx <= sel.endIdx < |nodes| && |sel.shadowed| == sel.endIdx - sel.startIdx + 1
    modifies store`log, store`seqCounter, store`faults, store`lost
    ensures store.Valid()
    ensures store.log == old(store.log) + TraceEvents(trace)
    ensures !store.lost ==> !old(store.lost)
    ensures trace.start.None? ==> result.None? && trace == Trace(None, [], [])
    ensures trace.start.Some? ==>
              BracketOutcome(old(store.log), events, nodes, meter, sel, owner, options, result, trace)
    // Without a lost append the only unfinished bracket is a start closed by its error-end.
    ensures trace.start.Some? && result.None? && !store.lost ==>
              |Ours(trace.tail)| == 1 && ErrorTail(Ours(trace.tail), options.compactionId, options.owner)
    ensures result.None? ==> err.Some?
    ensures trace.start.None? ==> store.lost && err == Some(PersistenceFailed)
    ensures result.Some? ==> trace.start.Some? && err == if world.flush == Some(false) then Some(PersistenceFailed) else None
    ensures result.Some? ==>
              AnswerOf(events, sel.shadowed, world.summary).Some? && Frames(result.value.summary, AnswerOf(events, sel.shadowed, world.summary).value)
    ensures trace.start.Some? ==>
              Closes(Hindrance(meter, events, nodes, sel, options, world, LiveLog(old(store.log), trace)), options, result, err,
                     trace, store.lost)
    ensures world.interference == [] ==> trace.noise == []
    ensures AllNeutral(world.interference) ==> AllNeutral(trace.noise)
    ensures LateOk(world, trace.tail)
  {
    hide Hindrance, Frames, AnswerOf, StillOn, StillPriced, Cheaper, FullCommit, BrokenCommit, ErrorTail,
         FrameSummary, Increasing, Contig, Classify, Ours, Events, LateOk;
    LateNone(world);
    var ok, startEnv := store.Append(StartEnvelope(options.compactionId, owner));
    if !ok {
      return None, Some(PersistenceFailed), Trace(None, [], []);
    }
    var framed, tokens, failure, noise := Prepare(store, events, nodes, meter, sel, options, world);
    trace := Trace(Some(startEnv), noise, []);
    assert store.log == LiveLog(old(store.log), trace);
    var r, closing, tail := Close(store, options, owner, sel, framed, tokens, startEnv.seqNo, failure, world);
    trace := trace.(tail := tail);
    return r, if r.None? then Some(closing) else if world.flush == Some(false) then Some(PersistenceFailed) else None, trace;
  }

  lemma LateNone(w: World)
    ensures LateOk(w, [])
  {
  }

  /** A prepared bracket commits, a failed one is closed with an error-end. */
  method Close(store: EventStore, options: Options, owner: Option<nat>, sel: SurfaceSelection, framed: seq<ContentBlock>,
               tokens: int, startSeq: int, failure: Option<Failure>, world: World)
    returns (result: Option<CompactionResult>, err: Failure, ghost tail: seq<Entry>)
    requires store.Valid()
    modifies store`log, store`seqCounter, store`faults, store`lost
    ensures store.Valid() && store.log == old(store.log) + Events(tail) && LateOk(world, tail)
    ensures !store.lost ==> !old(store.lost)
    ensures failure.Some? ==> result.None? && err == failure.value
    ensures failure.None? && result.None? ==>
              store.lost && err == if options.manual || BodyWritten(Ours(tail)) then CommitFailed else Bare
    ensures result.Some? ==>
              && FullCommit(Ours(tail), options, owner, sel, result.value)
              && result.value.startSeq == startSeq
              && result.value.summary == framed && result.value.shadowedTokens == tokens
    ensures result.None? ==> BrokenCommit(Ours(tail), options, sel, startSeq)
    ensures result.None? && !store.lost ==> |Ours(tail)| == 1 && ErrorTail(Ours(tail), options.compactionId, options.owner)
  {
    hide FullCommit, BrokenCommit, ErrorTail, Increasing, Contig, Classify, Ours, Events, LateOk, Neutral, BodyWritten;
    if failure.Some? {
      ghost var closing := CloseFailure(store, options, world.beforeErrorEnd);
      CloseIsLate(world, closing);
      ErrorTailIsBroken(Ours(closing), options, sel, startSeq);
      return None, failure.value, closing;
    }
    result, err, tail := Commit(store, options, owner, sel, framed, tokens, startSeq, world);
  }

  method CompactTransaction(store: EventStore, events: seq<Envelope>, nodes: seq<int>, meter: Meter,
                            options: Options, world: World)
    returns (result: Option<CompactionResult>, err: Option<Failure>, ghost trace: Trace)
    requires store.Valid()
    modifies store`log, store`seqCounter, store`faults, store`lost
    ensures store.Valid()
    ensures store.log == old(store.log) + TraceEvents(trace)
    ensures !store.lost ==> !old(store.lost)
    // A refusal, or a start that could not be written, leaves no trace.
    ensures !Admitted(events, nodes, options, world.cancelledBefore) ==>
              trace.start.None? && err == Some(RefusalOf(events, nodes, options, world.cancelledBefore))
    ensures Admitted(events, nodes, options, world.cancelledBefore) && trace.start.None? ==>
              store.lost && err == Some(PersistenceFailed)
    ensures trace.start.None? ==> result.None? && trace == Trace(None, [], [])
    // Whatever fails afterwards, the trace has one of the fixed shapes, and success is the full one,
    // over a summary strictly cheaper than what it shadows.
    ensures trace.start.Some? ==>
              && Region(Deltas(events), nodes, options.start, options.end).Some?
              && BracketOutcome(old(store.log), events, nodes, meter,
                                Region(Deltas(events), nodes, options.start, options.end).value,
                                OwnerOf(options, events), options, result, trace)
    // Without a lost append the only unfinished bracket is a start closed by its error-end.
    ensures trace.start.Some? && result.None? && !store.lost ==>
              |Ours(trace.tail)| == 1 && ErrorTail(Ours(trace.tail), options.compactionId, options.owner)
    ensures result.None? ==> err.Some?
    ensures result.Some? ==> trace.start.Some? && err == if world.flush == Some(false) then Some(PersistenceFailed) else None
    // The committed checkpoint is the summarizer's answer to the messages of the span, framed.
    ensures result.Some? ==>
              var answer := AnswerOf(events, Region(Deltas(events), nodes, options.start, options.end).value.shadowed, world.summary);
              answer.Some? && Frames(result.value.summary, answer.value)
    // It commits exactly when nothing hinders it and no append is lost; every failure has its code.
    ensures trace.start.Some? ==>
              var sel := Region(Deltas(events), nodes, options.start, options.end).value;
              && sel.startIdx <= sel.endIdx < |nodes|
              && Closes(Hindrance(meter, events, nodes, sel, options, world, LiveLog(old(store.log), trace)), options, result,
                        err, trace, store.lost)
    ensures world.interference == [] ==> trace.noise == []
    ensures AllNeutral(world.interference) ==> AllNeutral(trace.noise)
    ensures LateOk(world, trace.tail)
  {
    hide Hindrance, Frames, AnswerOf, Closes, RefusalOf, Region, Deltas, BracketOutcome, OpenTurn, LastBracket,
         LastEndSeed, Inactive, LateOk, Ours, Events;
    LateNone(world);
    var selection, owner, refusal := Enter(events, nodes, options, world.cancelledBefore);
    if selection.None? {
      return None, Some(refusal), Trace(None, [], []);
    }
    RegionBounds(Deltas(events), nodes, options.start, options.end);
    result, err, trace := RunBracket(store, events, nodes, meter, selection.value, owner, options, world);
  }

  lemma ErrorTailIsBroken(own: seq<Envelope>, options: Options, sel: SurfaceSelection, startSeq: int)
    requires ErrorTail(own, options.compactionId, options.owner)
    ensures BrokenCommit(own, options, sel, startSeq)
  {
  }

  lemma RegionBounds(d: map<int, int>, nodes: seq<int>, start: int, end: int)
    requires Region(d, nodes, start, end).Some?
    ensures var sel := Region(d, nodes, start, end).value;
            && sel.startIdx <= sel.endIdx < |nodes|
            && sel.shadowed == nodes[sel.startIdx..sel.endIdx + 1]
            && sel.span == SurfaceSpan(start, end)
            && sel.startIdx == IndexOf(nodes, start) && sel.endIdx == IndexOf(nodes, end)
  {
  }
}
