/** What one run of the actor says when nothing is lost: the events of a turn as a function of what the world
    does, and what holds of every such turn (backend/pkg/agent/loop.go). */
module AgentStory {
  import opened Wrappers
  import opened SessionEvents
  import opened ToolPairing

  // ---------------------------------------------------------------- what the world does

  /** Which contexts are cancelled at a point where the loop looks. */
  datatype Cancel = Running | TurnCancelled | ActorCancelled

  /** How the stream loop of a step ends. */
  datatype StreamEnd =
    | Interrupt(block: ContentBlock)
    | ContextDone(actor: bool)
    | ErrorChan(cancel: Cancel)
    | Closed(buffered: Option<Cancel>, after: Cancel)

  datatype Finish = Stop | ToolCalls | Length | ErrorFinish

  /** What one tool call gives, and the state of the contexts behind it. */
  datatype ToolRun = ToolRun(text: string, isError: bool, cancel: Cancel)

  /** What the model and the tools do in one step: the chunks, how the stream ends, the assembled blocks, and
      the tool runs in the order of the calls. */
  datatype StepScript = StepScript(
    chunks: seq<string>, end: StreamEnd, blocks: seq<ContentBlock>, finish: Finish, tools: seq<ToolRun>)

  /** What one pass of the step loop finds: a queued interruption, a cancelled context, or a step. */
  datatype Pass = NextStep(block: ContentBlock) | Poll(actor: bool) | Step(script: StepScript)

  /** One message from the inbox and everything the world does until the inbox is read again. */
  datatype TurnScript = TurnScript(
    message: Message, passes: seq<Pass>, noise: Noise, summary: seq<Message> -> Option<seq<ContentBlock>>)

  /** Log-only events other goroutines emit while a compaction runs: up to its recheck, and before each of its
      own appends. */
  datatype Noise = Noise(early: seq<string>, beforeSummary: seq<string>, beforeCheckpoint: seq<string>,
                         beforeEnd: seq<string>, beforeErrorEnd: seq<string>)

  datatype StreamOutcome = Ended | Interrupted(block: ContentBlock) | LlmFailed | TurnAborted | ActorStopped

  /** How a step leaves the step loop. */
  datatype After = NextPass | TurnDone | TurnClosed | NextTurn | ActorExit

  function CallsOf(blocks: seq<ContentBlock>): (r: seq<ContentBlock>)
    ensures |r| == CountCalls(blocks)
  {
    if blocks == [] then []
    else
      var n := |blocks| - 1;
      CallsOf(blocks[..n]) + if blocks[n].ToolCallBlock? then [blocks[n]] else []
  }

  function RunOf(tools: seq<ToolRun>, i: nat): ToolRun {
    if i < |tools| then tools[i] else ToolRun("", false, Running)
  }

  // ---------------------------------------------------------------- what the loop says

  /** An event without its number. */
  datatype Saying = Saying(kind: EventType, data: Data, op: Option<SurfaceOp>)

  /** An event the turn loop itself writes: no event of other goroutines, and none of a compaction. */
  predicate Voiced(e: Envelope) {
    && !e.kind.OtherKnown?
    && !e.kind.CompactionStart? && !e.kind.CompactionSummary? && !e.kind.CompactionEnd?
    && !(e.surfaceOp.Some? && e.surfaceOp.value.Replace?)
  }

  function TaleOf(log: seq<Envelope>): seq<Saying> {
    if log == [] then []
    else
      var n := |log| - 1;
      TaleOf(log[..n]) + if Voiced(log[n]) then [Saying(log[n].kind, log[n].data, log[n].surfaceOp)] else []
  }

  function StepStartOf(t: nat, k: nat): Saying {
    Saying(StepStart, StepData(t, k), None)
  }

  function StepEndOf(t: nat, k: nat): Saying {
    Saying(StepEnd, StepData(t, k), None)
  }

  function TurnEndOf(t: nat, reason: TurnEndReason): Saying {
    Saying(TurnEnd, TurnEndData(t, reason), None)
  }

  function UserOf(m: Message): Saying {
    Saying(UserMessage, UserData(m), Some(Append))
  }

  function ReplyOf(t: nat, k: nat, blocks: seq<ContentBlock>): Saying {
    Saying(AssistantMessage, AssistantData(t, k, Message("assistant", blocks)), Some(Append))
  }

  function ChunksOf(t: nat, k: nat, chunks: seq<string>): seq<Saying> {
    if chunks == [] then []
    else
      var n := |chunks| - 1;
      ChunksOf(t, k, chunks[..n]) + [Saying(AssistantChunk, ChunkData(t, k, chunks[n]), None)]
  }

  function CallId(call: ContentBlock): string {
    if call.ToolCallBlock? then call.id else ""
  }

  /** The result of one call. */
  function ResultOf(call: ContentBlock, run: ToolRun): Message {
    Message("user", [ToolResultBlock(CallId(call), run.isError, [TextBlock(run.text)])])
  }

  /** A call and its result. */
  function CallStory(t: nat, k: nat, call: ContentBlock, run: ToolRun): seq<Saying> {
    [Saying(ToolCall, ToolCallData(t, k, CallId(call)), None),
     Saying(ToolResult, ToolResultData(t, k, ResultOf(call, run), ""), Some(Append))]
  }

  function CallsStory(t: nat, k: nat, calls: seq<ContentBlock>, tools: seq<ToolRun>): seq<Saying> {
    if calls == [] then []
    else
      var n := |calls| - 1;
      CallsStory(t, k, calls[..n], tools) + CallStory(t, k, calls[n], RunOf(tools, n))
  }

  /** What closes a turn inside a step. */
  function Closing(t: nat, k: nat, reason: TurnEndReason): seq<Saying> {
    (if k != 0 then [StepEndOf(t, k)] else []) + if t != 0 then [TurnEndOf(t, reason)] else []
  }

  datatype Tell = Tell(events: seq<Saying>, after: After)

  /** How many calls run: all, or up to the first behind which a context is cancelled. */
  function RunCount(n: nat, tools: seq<ToolRun>): (m: nat)
    ensures m <= n
    ensures forall i :: 0 <= i < m - 1 ==> RunOf(tools, i).cancel.Running?
    ensures m < n ==> m > 0 && !RunOf(tools, m - 1).cancel.Running?
  {
    if n == 0 then 0
    else
      var m := RunCount(n - 1, tools);
      if m < n - 1 || (m > 0 && !RunOf(tools, m - 1).cancel.Running?) then m else n
  }

  function ToolStory(t: nat, k: nat, calls: seq<ContentBlock>, tools: seq<ToolRun>): Tell {
    var m := RunCount(|calls|, tools);
    var said := CallsStory(t, k, calls[..m], tools);
    if m == 0 || RunOf(tools, m - 1).cancel.Running? then Tell(said, NextPass)
    else Tell(said + Closing(t, k, Aborted), if RunOf(tools, m - 1).cancel.ActorCancelled? then ActorExit else TurnClosed)
  }

  /** A cancelled context beats a failure of the model. */
  function Route(c: Cancel): StreamOutcome {
    match c
    case ActorCancelled => ActorStopped
    case TurnCancelled => TurnAborted
    case Running => LlmFailed
  }

  /** Behind a stream that closed cancellation wins over the close, and a stopped actor over an aborted turn. */
  function Outcome(end: StreamEnd): StreamOutcome {
    match end
    case Interrupt(block) => Interrupted(block)
    case ContextDone(actor) => if actor then ActorStopped else TurnAborted
    case ErrorChan(cancel) => Route(cancel)
    case Closed(buffered, after) =>
      if after.Running? then if buffered.Some? then Route(buffered.value) else Ended
      else if buffered == Some(ActorCancelled) then ActorStopped
      else Route(after)
  }

  /** The model failed on living contexts: step and turn were closed there. */
  predicate Fatal(end: StreamEnd) {
    end == ErrorChan(Running) || (end.Closed? && end.buffered == Some(Running))
  }

  /** Behind a clean stream: the reply, the tools, the end of the step. */
  function CompleteStory(script: StepScript, hasTools: bool, t: nat, k: nat): Tell {
    var calls := CallsOf(script.blocks);
    if script.finish.ErrorFinish? then
      Tell((if script.blocks != [] then [ReplyOf(t, k, script.blocks)] else []) + Closing(t, k, Failed), TurnClosed)
    else if calls != [] && hasTools then
      var tools := ToolStory(t, k, calls, script.tools);
      Tell([ReplyOf(t, k, script.blocks)] + tools.events + (if tools.after.NextPass? then [StepEndOf(t, k)] else []),
           tools.after)
    else
      Tell([ReplyOf(t, k, script.blocks)] + [StepEndOf(t, k)], TurnDone)
  }

  /** What the loop says behind a stream that ended like this. */
  function LeftBehind(script: StepScript, hasTools: bool, t: nat, k: nat): Tell {
    var aborted := if Fatal(script.end) then [] else Closing(t, k, Aborted);
    match Outcome(script.end)
    case ActorStopped => Tell(aborted, ActorExit)
    case TurnAborted => Tell(aborted, NextTurn)
    case LlmFailed => Tell([], TurnClosed)
    case Interrupted(block) =>
      Tell((if script.blocks != [] then [ReplyOf(t, k, script.blocks)] else []) + [StepEndOf(t, k)] +
           [UserOf(Message("user", [block]))], NextPass)
    case Ended => CompleteStory(script, hasTools, t, k)
  }

  function StepStory(script: StepScript, hasTools: bool, t: nat, k: nat): Tell {
    var failed := if Fatal(script.end) then Closing(t, k, Failed) else [];
    var left := LeftBehind(script, hasTools, t, k);
    Tell([StepStartOf(t, k)] + (ChunksOf(t, k, script.chunks) + failed) + left.events, left.after)
  }

  /** The step loop from a point between steps: `k` steps were started, `sticky` says that one hit the output
      limit; `taken` counts the passes it takes. When the script runs out the actor is stopped. */
  datatype Course = Course(events: seq<Saying>, after: After, sticky: bool, taken: nat)

  predicate HitsLimit(script: StepScript) {
    script.finish.Length? && script.end.Closed?
  }

  function LoopStory(passes: seq<Pass>, hasTools: bool, t: nat, k: nat, sticky: bool): Course
    decreases |passes|
  {
    if passes == [] then Course(Closing(t, 0, Aborted), ActorExit, sticky, 0)
    else match passes[0]
      case Poll(actor) => Course(Closing(t, 0, Aborted), if actor then ActorExit else NextTurn, sticky, 1)
      case NextStep(block) =>
        var rest := LoopStory(passes[1..], hasTools, t, k, sticky);
        rest.(events := [UserOf(Message("user", [block]))] + rest.events, taken := rest.taken + 1)
      case Step(script) =>
        var step, latched := StepStory(script, hasTools, t, k + 1), sticky || HitsLimit(script);
        if !step.after.NextPass? then Course(step.events, step.after, latched, 1)
        else
          var rest := LoopStory(passes[1..], hasTools, t, k + 1, latched);
          rest.(events := step.events + rest.events, taken := rest.taken + 1)
  }

  /** One whole turn. */
  function TurnStory(message: Message, passes: seq<Pass>, hasTools: bool, t: nat): Tell {
    var loop := LoopStory(passes, hasTools, t, 0, false);
    Tell([Saying(TurnStart, TurnData(t), None)] + [UserOf(message)] + loop.events +
         (if loop.after.TurnDone? then [TurnEndOf(t, if loop.sticky then MaxTokens else Completed)] else []), loop.after)
  }

  /** The whole inbox, until a turn stops the actor. */
  function InboxStory(inbox: seq<TurnScript>, hasTools: bool, t: nat): seq<Saying>
    decreases |inbox|
  {
    if inbox == [] then []
    else
      var turn := TurnStory(inbox[0].message, inbox[0].passes, hasTools, t);
      turn.events + if turn.after.ActorExit? then [] else InboxStory(inbox[1..], hasTools, t + 1)
  }

  // ---------------------------------------------------------------- tales of logs

  /** From `before` to `after` the loop said exactly this. */
  ghost predicate Tells(before: seq<Envelope>, after: seq<Envelope>, said: seq<Saying>) {
    TaleOf(after) == TaleOf(before) + said
  }

  lemma TellsNothing(log: seq<Envelope>)
    ensures Tells(log, log, [])
  {
  }

  lemma TellsOn(a: seq<Envelope>, b: seq<Envelope>, c: seq<Envelope>, s: seq<Saying>, u: seq<Saying>, whole: seq<Saying>)
    requires Tells(a, b, s) && Tells(b, c, u) && whole == s + u
    ensures Tells(a, c, whole)
  {
    assert TaleOf(a) + (s + u) == (TaleOf(a) + s) + u;
  }

  lemma TellsOne(log: seq<Envelope>, e: Envelope)
    ensures Tells(log, log + [e], if Voiced(e) then [Saying(e.kind, e.data, e.surfaceOp)] else [])
  {
    hide Voiced;
    assert (log + [e])[..|log|] == log;
  }

  lemma {:induction false} TellsUnvoiced(log: seq<Envelope>, more: seq<Envelope>)
    requires forall i :: 0 <= i < |more| ==> !Voiced(more[i])
    ensures Tells(log, log + more, [])
    decreases |more|
  {
    hide Voiced, Tells;
    if more == [] {
      assert log + more == log;
      TellsNothing(log);
    } else {
      var n := |more| - 1;
      assert log + more == (log + more[..n]) + [more[n]];
      TellsUnvoiced(log, more[..n]);
      TellsOne(log + more[..n], more[n]);
      TellsOn(log, log + more[..n], log + more, [], [], []);
    }
  }

  lemma NoCalls(t: nat, k: nat, tools: seq<ToolRun>)
    ensures CallsStory(t, k, [], tools) == []
  {
  }

  lemma OneMoreCall(t: nat, k: nat, calls: seq<ContentBlock>, tools: seq<ToolRun>, i: nat)
    requires i < |calls|
    ensures CallsStory(t, k, calls[..i + 1], tools) ==
            CallsStory(t, k, calls[..i], tools) + CallStory(t, k, calls[i], RunOf(tools, i))
  {
    hide CallStory;
    assert calls[..i + 1][..i] == calls[..i];
  }

  /** The runs end behind the first that finds a context cancelled. */
  lemma {:induction false} StopsAt(n: nat, tools: seq<ToolRun>, i: nat)
    requires i < n && !RunOf(tools, i).cancel.Running?
    requires forall j :: 0 <= j < i ==> RunOf(tools, j).cancel.Running?
    ensures RunCount(n, tools) == i + 1
    decreases n
  {
    if i < n - 1 {
      StopsAt(n - 1, tools, i);
    }
  }

  lemma {:induction false} RunsAll(n: nat, tools: seq<ToolRun>)
    requires forall j :: 0 <= j < n ==> RunOf(tools, j).cancel.Running?
    ensures RunCount(n, tools) == n
    decreases n
  {
    if n > 0 {
      RunsAll(n - 1, tools);
    }
  }

  /** A course of which `told` was said and `rest` is still to come. */
  ghost predicate Continues(whole: Course, told: seq<Saying>, rest: Course) {
    whole == rest.(events := told + rest.events, taken := whole.taken)
  }

  lemma ContinuesOn(whole: Course, told: seq<Saying>, rest: Course, said: seq<Saying>, later: Course)
    requires Continues(whole, told, rest) && rest == later.(events := said + later.events, taken := rest.taken)
    ensures Continues(whole, told + said, later)
  {
    assert told + (said + later.events) == (told + said) + later.events;
  }

  lemma InboxAll(inbox: seq<TurnScript>, hasTools: bool, t: nat)
    ensures InboxStory(inbox, hasTools, t) == [] + InboxStory(inbox[0..], hasTools, t)
    ensures InboxStory(inbox[|inbox|..], hasTools, t) == []
  {
    assert inbox[0..] == inbox;
  }

  lemma InboxNext(inbox: seq<TurnScript>, hasTools: bool, t: nat, i: nat, told: seq<Saying>)
    requires i < |inbox|
    ensures var turn := TurnStory(inbox[i].message, inbox[i].passes, hasTools, t);
            told + InboxStory(inbox[i..], hasTools, t) ==
            if turn.after.ActorExit? then told + turn.events
            else (told + turn.events) + InboxStory(inbox[i + 1..], hasTools, t + 1)
  {
    hide TurnStory;
    assert inbox[i..][0] == inbox[i] && inbox[i..][1..] == inbox[i + 1..];
    var turn := TurnStory(inbox[i].message, inbox[i].passes, hasTools, t);
    assert turn.events + [] == turn.events;
  }

  // ---------------------------------------------------------------- what holds of every turn

  ghost predicate NoTurnEnd(s: seq<Saying>) {
    forall i :: 0 <= i < |s| ==> !s[i].kind.TurnEnd?
  }

  lemma NoEndConcat(a: seq<Saying>, b: seq<Saying>)
    ensures NoTurnEnd(a + b) <==> NoTurnEnd(a) && NoTurnEnd(b)
  {
    assert forall i :: 0 <= i < |a| ==> (a + b)[i] == a[i];
    assert forall i :: 0 <= i < |b| ==> (a + b)[|a| + i] == b[i];
  }

  lemma {:induction false} ChunksEndNothing(t: nat, k: nat, chunks: seq<string>)
    ensures NoTurnEnd(ChunksOf(t, k, chunks))
    decreases |chunks|
  {
    if chunks != [] {
      ChunksEndNothing(t, k, chunks[..|chunks| - 1]);
    }
  }

  lemma {:induction false} CallsEndNothing(t: nat, k: nat, calls: seq<ContentBlock>, tools: seq<ToolRun>)
    ensures NoTurnEnd(CallsStory(t, k, calls, tools))
    decreases |calls|
  {
    if calls != [] {
      CallsEndNothing(t, k, calls[..|calls| - 1], tools);
    }
  }

  /** The turn ends here and nowhere before, with this reason. */
  ghost predicate EndsWith(s: seq<Saying>, t: nat, reason: TurnEndReason) {
    s != [] && s[|s| - 1] == TurnEndOf(t, reason) && NoTurnEnd(s[..|s| - 1])
  }

  lemma EndsLater(a: seq<Saying>, b: seq<Saying>, t: nat, reason: TurnEndReason)
    requires NoTurnEnd(a) && EndsWith(b, t, reason)
    ensures EndsWith(a + b, t, reason)
  {
    NoEndConcat(a, b[..|b| - 1]);
    assert (a + b)[..|a + b| - 1] == a + b[..|b| - 1];
  }

  lemma ClosingEnds(t: nat, k: nat, reason: TurnEndReason)
    requires t != 0
    ensures EndsWith(Closing(t, k, reason), t, reason)
  {
    if k == 0 {
      assert [] + [TurnEndOf(t, reason)] == [TurnEndOf(t, reason)];
    }
  }

  /** How a step that does not go on leaves the turn. */
  ghost predicate Leaves(s: Tell, script: StepScript, hasTools: bool, t: nat, k: nat) {
    match s.after
    case NextPass => NoTurnEnd(s.events)
    case TurnDone =>
      && NoTurnEnd(s.events) && |s.events| >= 2 && (hasTools ==> CallsOf(script.blocks) == [])
      && s.events[|s.events| - 2..] == [ReplyOf(t, k, script.blocks), StepEndOf(t, k)]
    case _ => EndsWith(s.events, t, Aborted) || EndsWith(s.events, t, Failed)
  }

  lemma LeavesBehind(a: seq<Saying>, s: Tell, script: StepScript, hasTools: bool, t: nat, k: nat)
    requires NoTurnEnd(a) && Leaves(s, script, hasTools, t, k)
    ensures Leaves(s.(events := a + s.events), script, hasTools, t, k)
  {
    hide CallsOf;
    var whole := a + s.events;
    match s.after
    case NextPass => NoEndConcat(a, s.events);
    case TurnDone =>
      NoEndConcat(a, s.events);
      assert whole[|whole| - 2..] == s.events[|s.events| - 2..];
    case _ =>
      if EndsWith(s.events, t, Aborted) {
        EndsLater(a, s.events, t, Aborted);
      } else {
        EndsLater(a, s.events, t, Failed);
      }
  }

  lemma ToolsLeave(script: StepScript, hasTools: bool, t: nat, k: nat, calls: seq<ContentBlock>, tools: seq<ToolRun>)
    requires t != 0
    ensures Leaves(ToolStory(t, k, calls, tools), script, hasTools, t, k) && !ToolStory(t, k, calls, tools).after.TurnDone?
  {
    hide CallsStory, Closing;
    var m := RunCount(|calls|, tools);
    var said := CallsStory(t, k, calls[..m], tools);
    CallsEndNothing(t, k, calls[..m], tools);
    ClosingEnds(t, k, Aborted);
    EndsLater(said, Closing(t, k, Aborted), t, Aborted);
  }

  lemma CompleteLeaves(script: StepScript, hasTools: bool, t: nat, k: nat)
    requires t != 0
    ensures Leaves(CompleteStory(script, hasTools, t, k), script, hasTools, t, k)
  {
    hide CallsOf, ToolStory, Closing;
    var reply := [ReplyOf(t, k, script.blocks)];
    if script.finish.ErrorFinish? {
      ClosingEnds(t, k, Failed);
      LeavesBehind(if script.blocks != [] then reply else [], Tell(Closing(t, k, Failed), TurnClosed), script,
                   hasTools, t, k);
    } else if CallsOf(script.blocks) != [] && hasTools {
      var tools := ToolStory(t, k, CallsOf(script.blocks), script.tools);
      ToolsLeave(script, hasTools, t, k, CallsOf(script.blocks), script.tools);
      LeavesBehind(reply, tools, script, hasTools, t, k);
      if tools.after.NextPass? {
        NoEndConcat(reply + tools.events, [StepEndOf(t, k)]);
      } else {
        assert reply + tools.events + [] == reply + tools.events;
      }
    } else {
      assert reply + [StepEndOf(t, k)] == [ReplyOf(t, k, script.blocks), StepEndOf(t, k)];
    }
  }

  lemma StepLeaves(script: StepScript, hasTools: bool, t: nat, k: nat)
    requires t != 0
    ensures Leaves(StepStory(script, hasTools, t, k), script, hasTools, t, k)
  {
    hide CallsOf, CompleteStory, Closing, ChunksOf;
    ClosingEnds(t, k, Failed);
    ClosingEnds(t, k, Aborted);
    CompleteLeaves(script, hasTools, t, k);
    ChunksEndNothing(t, k, script.chunks);
    var left := LeftBehind(script, hasTools, t, k);
    var first, chunks := [StepStartOf(t, k)], ChunksOf(t, k, script.chunks);
    NoEndConcat(first, chunks);
    if Fatal(script.end) {
      EndsLater(first + chunks, Closing(t, k, Failed), t, Failed);
      assert StepStory(script, hasTools, t, k).events == (first + chunks) + Closing(t, k, Failed);
    } else {
      assert Leaves(left, script, hasTools, t, k);
      LeavesBehind(first + chunks, left, script, hasTools, t, k);
      assert StepStory(script, hasTools, t, k).events == (first + chunks) + left.events;
    }
  }

  /** Every loop leaves its turn in one of two ways: done, with a reply no tool is to answer as its last word;
      or ended for being aborted or failed. */
  lemma {:induction false} LoopLeaves(passes: seq<Pass>, hasTools: bool, t: nat, k: nat, sticky: bool)
    returns (last: nat, script: StepScript)
    requires t != 0
    ensures var c := LoopStory(passes, hasTools, t, k, sticky);
            && !c.after.NextPass? && c.taken <= |passes|
            && Leaves(Tell(c.events, c.after), script, hasTools, t, last)
            && (c.after.TurnDone? ==> 0 < c.taken && passes[c.taken - 1] == Step(script))
            && (c.sticky <==> sticky || exists i :: 0 <= i < c.taken && passes[i].Step? && HitsLimit(passes[i].script))
    decreases |passes|
  {
    hide CallsOf, StepStory, HitsLimit, Leaves;
    var c := LoopStory(passes, hasTools, t, k, sticky);
    last, script := k, StepScript([], ContextDone(false), [], Stop, []);
    if passes == [] || passes[0].Poll? {
      AbortLeaves(script, hasTools, t, k, c);
      NoStepTaken(passes, c.taken);
    } else if passes[0].NextStep? {
      var rest := LoopStory(passes[1..], hasTools, t, k, sticky);
      last, script := LoopLeaves(passes[1..], hasTools, t, k, sticky);
      LeavesBehind([UserOf(Message("user", [passes[0].block]))], Tell(rest.events, rest.after), script, hasTools, t, last);
      LaterSteps(passes, rest.taken);
    } else {
      var step, latched := StepStory(passes[0].script, hasTools, t, k + 1), sticky || HitsLimit(passes[0].script);
      StepLeaves(passes[0].script, hasTools, t, k + 1);
      if step.after.NextPass? {
        var rest := LoopStory(passes[1..], hasTools, t, k + 1, latched);
        last, script := LoopLeaves(passes[1..], hasTools, t, k + 1, latched);
        PassesOn(step, passes[0].script, hasTools, t, k + 1);
        LeavesBehind(step.events, Tell(rest.events, rest.after), script, hasTools, t, last);
        LaterSteps(passes, rest.taken);
      } else {
        last, script := k + 1, passes[0].script;
        assert HitsLimit(passes[0].script) <==> exists i :: 0 <= i < 1 && passes[i].Step? && HitsLimit(passes[i].script) by {
          assert passes[0].Step?;
        }
      }
    }
  }

  lemma AbortLeaves(script: StepScript, hasTools: bool, t: nat, k: nat, c: Course)
    requires t != 0 && c.events == Closing(t, 0, Aborted) && (c.after.ActorExit? || c.after.NextTurn?)
    ensures Leaves(Tell(c.events, c.after), script, hasTools, t, k)
  {
    ClosingEnds(t, 0, Aborted);
  }

  lemma PassesOn(s: Tell, script: StepScript, hasTools: bool, t: nat, k: nat)
    requires Leaves(s, script, hasTools, t, k) && s.after.NextPass?
    ensures NoTurnEnd(s.events)
  {
  }

  lemma NoStepTaken(passes: seq<Pass>, taken: nat)
    requires (passes == [] && taken == 0) || (passes != [] && passes[0].Poll? && taken == 1)
    ensures taken <= |passes| && !exists i :: 0 <= i < taken && passes[i].Step? && HitsLimit(passes[i].script)
  {
  }

  lemma LaterSteps(passes: seq<Pass>, taken: nat)
    requires passes != [] && taken <= |passes| - 1
    ensures (exists i :: 0 <= i < taken + 1 && passes[i].Step? && HitsLimit(passes[i].script)) <==>
            || (passes[0].Step? && HitsLimit(passes[0].script))
            || exists i :: 0 <= i < taken && passes[1..][i].Step? && HitsLimit(passes[1..][i].script)
  {
    hide HitsLimit;
    var rest := passes[1..];
    if i :| 0 <= i < taken && rest[i].Step? && HitsLimit(rest[i].script) {
      assert passes[i + 1] == rest[i];
    }
    if i :| 0 <= i < taken + 1 && passes[i].Step? && HitsLimit(passes[i].script) {
      assert i == 0 || rest[i - 1] == passes[i];
    }
  }

  /** A turn ends exactly once, as its last event. It ends completed or at its token limit exactly when its last
      step finished with a reply that no tool is to answer, and that reply is the last thing said before the ends
      of step and turn; at the limit exactly when one of its steps hit it. Otherwise it was aborted or failed. */
  lemma TurnEnds(message: Message, passes: seq<Pass>, hasTools: bool, t: nat) returns (last: nat, script: StepScript)
    requires t != 0
    ensures var turn := TurnStory(message, passes, hasTools, t);
            var s, c := turn.events, LoopStory(passes, hasTools, t, 0, false);
            if turn.after.TurnDone? then
              && |s| > 3 && NoTurnEnd(s[..|s| - 1])
              && 0 < c.taken <= |passes| && passes[c.taken - 1] == Step(script)
              && (hasTools ==> CallsOf(script.blocks) == [])
              && s[|s| - 3..] == [ReplyOf(t, last, script.blocks), StepEndOf(t, last),
                    TurnEndOf(t, if exists i :: 0 <= i < c.taken && passes[i].Step? && HitsLimit(passes[i].script)
                                 then MaxTokens else Completed)]
            else EndsWith(s, t, Aborted) || EndsWith(s, t, Failed)
  {
    hide LoopStory, HitsLimit, CallsOf;
    var c := LoopStory(passes, hasTools, t, 0, false);
    last, script := LoopLeaves(passes, hasTools, t, 0, false);
    var first := [Saying(TurnStart, TurnData(t), None)] + [UserOf(message)];
    LeavesBehind(first, Tell(c.events, c.after), script, hasTools, t, last);
    var body, s := first + c.events, TurnStory(message, passes, hasTools, t).events;
    if c.after.TurnDone? {
      assert s[..|s| - 1] == body;
      assert s[|s| - 3..] == body[|body| - 2..] + [s[|s| - 1]];
    } else {
      assert s == body;
    }
  }
}
