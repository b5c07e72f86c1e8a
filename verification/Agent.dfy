/** The agent actor: emit, lifecycle machine, one turn with all its exits, idle compaction
    (backend/pkg/agent/loop.go). */
module Agents {
  import opened Wrappers
  import opened SessionEvents
  import opened EventStores
  import opened StoreNumbering
  import opened LogCaches
  import opened Surface
  import opened ToolPairing
  import opened TokenMeter
  import opened CompactionLock
  import opened RangeSelection
  import opened Compaction
  import opened CompactionTheorems
  import opened AgentLog
  import opened AgentCompaction
  import opened AgentStory

  /** `Rejected` is the lifecycle refusal, `Lost` the append the store did not take. */
  datatype Emit = Done | Rejected | Lost

  datatype Compactor = Compactor(retain: int, meter: Meter)

  /** The largest turn number among the turn markers of a log. */
  function LastTurn(log: seq<Envelope>): nat {
    if log == [] then 0
    else
      var e, rest := log[|log| - 1], LastTurn(log[..|log| - 1]);
      var t := if e.kind.TurnStart? && e.data.TurnData? then e.data.turn
               else if e.kind.TurnEnd? && e.data.TurnEndData? then e.data.turn else 0;
      if t > rest then t else rest
  }

  /** In a bracketed log that is the number of its last turn, so numbering resumes behind it. */
  lemma {:induction false} LastTurnScanned(log: seq<Envelope>)
    requires Scan(log).Some?
    ensures LastTurn(log) == Scan(log).value.lastTurn
    ensures Scan(log).value.turn <= Scan(log).value.lastTurn
    decreases |log|
  {
    if log != [] {
      LastTurnScanned(log[..|log| - 1]);
    }
  }

  /** What a rebuilt actor starts from: the next seq, the last turn number, and the events that warm its
      cache. A stored log that cannot be read counts as an empty one. */
  method SeedSeqFrom(read: Option<seq<Envelope>>) returns (seqSeed: int, lastTurn: nat, warm: seq<Envelope>)
    ensures seqSeed == SeedSeq(read)
    ensures if read.None? then lastTurn == 0 && warm == [] else lastTurn == LastTurn(read.value) && warm == read.value
  {
    if read.None? || |read.value| == 0 {
      return 0, 0, [];
    }
    var events := read.value;
    lastTurn := 0;
    for i := 0 to |events|
      invariant lastTurn == LastTurn(events[..i])
    {
      assert events[..i + 1][..i] == events[..i];
      var e := events[i];
      if e.kind.TurnStart? && e.data.TurnData? && e.data.turn > lastTurn {
        lastTurn := e.data.turn;
      } else if e.kind.TurnEnd? && e.data.TurnEndData? && e.data.turn > lastTurn {
        lastTurn := e.data.turn;
      }
    }
    assert events[..|events|] == events;
    return events[|events| - 1].seqNo + 1, lastTurn, events;
  }

  /** The log ends inside a turn. */
  ghost predicate InTurn(log: seq<Envelope>) {
    Scan(log).Some? && Scan(log).value.turn != 0
  }

  /** The log is paired and its brackets are all closed. */
  ghost predicate AtRest(log: seq<Envelope>) {
    Paired(log) && Scan(log).Some? && Scan(log).value.turn == 0
  }

  class Agent {
    const store: EventStore
    const cache: LogCache
    /** A nil tool registry runs no calls. */
    const hasTools: bool
    const compactor: Option<Compactor>
    const autoTitle: bool
    var titleDone: bool
    var turnNumber: nat
    var stepNumber: nat
    var activeTurn: nat
    var activeStep: nat
    /** Events other goroutines get in before each of the actor's own emits. */
    var others: seq<seq<string>>

    function M(): Machine
      reads this
    {
      Machine(activeTurn, activeStep, turnNumber, stepNumber)
    }

    ghost predicate Valid()
      reads this, store, cache
    {
      && cache.store == store
      && store.Valid()
      && cache.Complete()
      && (activeStep != 0 ==> activeTurn != 0)
    }

    /** On a run without lost appends the durable log is sound for the machine. */
    ghost predicate Good()
      reads this, store
    {
      !store.lost ==> Sound(store.log, M())
    }

    /** Open calls on the surface, while no append has been lost. */
    ghost function Open(): int
      reads this, store
    {
      if store.lost then 0 else Pending(store.log)
    }

    lemma OpenIsNat()
      requires Good()
      ensures Open() >= 0
    {
      hide Paired, Pending;
      if !store.lost {
        PendingNonNegative(store.log);
      }
    }

    predicate Idle()
      reads this
    {
      activeTurn == 0 && activeStep == 0
    }

    /** Opens a session over a stored log it could read, whatever that log is. The log is sound for the new
        machine exactly when it is paired and ends outside every turn; a log whose last turn was left open by a
        crash is admitted too. */
    constructor (store: EventStore, hasTools: bool, compactor: Option<Compactor>, autoTitle: bool, others: seq<seq<string>>)
      requires store.Valid()
      ensures fresh(this.cache)
      ensures Valid() && Idle() && this.store == store && unchanged(store) && turnNumber == LastTurn(store.log)
      ensures Good() <==> store.lost || AtRest(store.log)
      ensures this.hasTools == hasTools && this.compactor == compactor && this.autoTitle == autoTitle &&
              this.others == others
      ensures !titleDone && stepNumber == 0
    {
      var seqSeed, lastTurn, warm := SeedSeqFrom(Some(store.log));
      this.store := store;
      this.cache := new LogCache(store, store.log);
      this.hasTools := hasTools;
      this.compactor := compactor;
      this.autoTitle := autoTitle;
      this.others := others;
      titleDone := false;
      turnNumber, stepNumber, activeTurn, activeStep := lastTurn, 0, 0, 0;
      new;
      if Scan(store.log).Some? {
        LastTurnScanned(store.log);
        TurnCounts(store.log, 0);
      }
    }

    /** Persists one numbered event and mirrors it into the cache. */
    method Persist(e: Envelope) returns (ok: bool, stamped: Envelope)
      requires Valid()
      modifies store`log, store`seqCounter, store`faults, store`lost, cache`logCache, cache`lastCached
      ensures Valid()
      ensures stamped == e.(seqNo := old(store.seqCounter))
      ensures store.log == old(store.log) + if ok then [stamped] else []
      ensures store.lost == (old(store.lost) || !ok)
      ensures ok && !store.lost ==> stamped.seqNo == |old(store.log)|
    {
      ok, stamped := store.Append(e);
      if ok {
        assert store.log[..|store.log| - 1] == old(store.log);
        cache.CacheAppend(stamped);
      }
    }

    /** Other goroutines emit log-only events; none of them touches the machine. */
    method OthersEmit()
      requires Valid()
      modifies this`others, store`log, store`seqCounter, store`faults, store`lost, cache`logCache, cache`lastCached
      ensures Valid()
      ensures old(Good()) ==> Good()
      ensures old(Good()) && !store.lost ==> Open() == old(Open())
      ensures !store.lost ==> !old(store.lost)
      ensures old(store.log) <= store.log && AllNeutral(store.log[|old(store.log)|..])
      ensures Tells(old(store.log), store.log, [])
    {
      hide Sound, Pending, Increasing, Contig, Tells;
      TellsNothing(store.log);
      if others == [] {
        return;
      }
      var batch := others[0];
      others := others[1..];
      for i := 0 to |batch|
        invariant Valid()
        invariant old(Good()) ==> Good()
        invariant old(Good()) && !store.lost ==> Open() == old(Open())
        invariant !store.lost ==> !old(store.lost)
        invariant old(store.log) <= store.log && AllNeutral(store.log[|old(store.log)|..])
        invariant Tells(old(store.log), store.log, [])
      {
        ghost var before := store.log;
        var ok, e := Persist(NewEnvelope(0, OtherKnown(batch[i]), OtherData("")));
        if ok {
          TellsOne(before, e);
          TellsOn(old(store.log), before, before + [e], [], [], []);
        } else {
          assert store.log == before;
        }
        if !store.lost && old(Good()) {
          NeutralOne(before, e, M());
        }
      }
    }

    /** Refuses a boundary out of order; otherwise moves the machine, before anything is stored. */
    method ValidateTransition(kind: EventType) returns (ok: bool)
      modifies this`turnNumber, this`stepNumber, this`activeTurn, this`activeStep
      ensures ok == Admits(old(M()), kind)
      ensures M() == if ok then Advance(old(M()), kind) else old(M())
    {
      match kind {
        case TurnStart =>
          if activeTurn != 0 {
            return false;
          }
          turnNumber := turnNumber + 1;
          activeTurn := turnNumber;
          activeStep := 0;
        case TurnEnd =>
          if activeTurn == 0 || activeStep != 0 {
            return false;
          }
          activeTurn := 0;
        case StepStart =>
          if activeTurn == 0 || activeStep != 0 {
            return false;
          }
          stepNumber := stepNumber + 1;
          activeStep := stepNumber;
        case StepEnd =>
          if activeStep == 0 {
            return false;
          }
          activeStep := 0;
        case _ =>
      }
      return true;
    }

    /** The payload of an admitted event: starts carry the numbers just assigned, ends those just closed. */
    method PayloadOf(kind: EventType, data: Data, preTurn: nat, preStep: nat, ghost m: Machine) returns (payload: Data)
      requires Admits(m, kind) && M() == Advance(m, kind) && preTurn == m.turn && preStep == m.step
      ensures payload == Stamp(m, kind, data)
    {
      payload := data;
      match kind {
        case TurnStart => payload := TurnData(activeTurn);
        case StepStart => payload := StepData(activeTurn, activeStep);
        case StepEnd => payload := StepData(preTurn, preStep);
        case TurnEnd => if data.TurnEndData? { payload := TurnEndData(preTurn, data.reason); }
        case _ =>
      }
    }

    /** The emit proper: checks and moves the machine, stamps the payload, then persists one event. */
    method EmitOwn(kind: EventType, data: Data, op: Option<SurfaceOp>) returns (res: Emit)
      requires Valid()
      modifies this`turnNumber, this`stepNumber, this`activeTurn, this`activeStep,
               store`log, store`seqCounter, store`faults, store`lost, cache`logCache, cache`lastCached
      ensures Valid()
      ensures res.Rejected? <==> !Admits(old(M()), kind)
      ensures M() == if res.Rejected? then old(M()) else Advance(old(M()), kind)
      ensures res.Lost? ==> store.lost
      ensures !store.lost ==> !old(store.lost)
      ensures !res.Done? ==> store.log == old(store.log)
      ensures res.Done? ==>
                && |store.log| == |old(store.log)| + 1 && store.log == old(store.log) + [store.log[|old(store.log)|]]
                && var e := store.log[|old(store.log)|];
                && e == Emitted(e.seqNo, old(M()), kind, data, op)
      ensures old(Good()) && (Admits(old(M()), kind) && !old(store.lost) ==> Suits(old(M()), kind, data, op, old(Open()))) ==>
                Good() && (!store.lost ==> Open() == old(Open()) + if res.Done? then EmitDelta(kind, data) else 0)
    {
      hide Sound, Pending, Suits, EmitDelta, Increasing, Contig;
      ghost var before, m, open := store.log, M(), Open();
      var preTurn, preStep := activeTurn, activeStep;
      var admitted := ValidateTransition(kind);
      if !admitted {
        return Rejected;
      }
      var payload := PayloadOf(kind, data, preTurn, preStep, m);
      hide Stamp, Advance, Admits;
      var ok, e := Persist(Envelope(0, kind, payload, None, op, false));
      if !store.lost && Sound(before, m) && Suits(m, kind, data, op, open) {
        EmitKeepsSound(before, m, kind, data, op);
      }
      return if ok then Done else Lost;
    }

    method EmitEvent(kind: EventType, data: Data, op: Option<SurfaceOp>) returns (res: Emit)
      requires Valid()
      modifies this`others, this`turnNumber, this`stepNumber, this`activeTurn, this`activeStep,
               store`log, store`seqCounter, store`faults, store`lost, cache`logCache, cache`lastCached
      ensures Valid()
      ensures res.Rejected? <==> !Admits(old(M()), kind)
      ensures M() == if res.Rejected? then old(M()) else Advance(old(M()), kind)
      ensures res.Lost? ==> store.lost
      ensures !store.lost ==> !old(store.lost)
      ensures old(store.log) <= store.log
      ensures res.Done? ==>
                && |store.log| > |old(store.log)|
                && var e := store.log[|store.log| - 1];
                && e == Emitted(e.seqNo, old(M()), kind, data, op)
      ensures res.Done? && kind.TurnStart? && InTurn(old(store.log)) ==> Scan(store.log).None?
      ensures res.Done? ==> Tells(old(store.log), store.log, Said(old(M()), kind, data, op))
      ensures res.Rejected? ==> Tells(old(store.log), store.log, [])
      ensures old(Good()) && (Admits(old(M()), kind) && !old(store.lost) ==> Suits(old(M()), kind, data, op, old(Open()))) ==>
                Good() && (!store.lost ==> Open() == old(Open()) + if res.Done? then EmitDelta(kind, data) else 0)
    {
      hide Sound, Pending, Suits, EmitDelta, Increasing, Contig, InTurn, AllNeutral, Scan, Stamp, Advance, Admits,
           Tells, Said, Emitted;
      OthersEmit();
      ghost var before := store.log;
      res := EmitOwn(kind, data, op);
      if res.Done? {
        TellsEmitted(old(store.log), before, store.log[|before|], old(M()), kind, data, op);
      }
      if res.Done? && kind.TurnStart? && InTurn(old(store.log)) {
        StartInTurn(old(store.log), before, store.log[|before|]);
      }
    }

    /** What every piece of the loop keeps: soundness, every event already logged, and no call of an
        earlier step is ever closed. */
    twostate predicate Kept()
      reads this, store
    {
      && (old(Good()) ==> Good())
      && (!store.lost ==> !old(store.lost))
      && (old(Good()) && !store.lost ==> Open() >= old(Open()))
      && old(store.log) <= store.log
    }

    /** The counters of closed turns only move at a turn/start. */
    twostate predicate SameTurns()
      reads this
    {
      turnNumber == old(turnNumber)
    }

    /** Closes an open step and the open turn; the machine is idle afterwards even when neither end
        reaches the store. */
    method FinishTurnReason(reason: TurnEndReason)
      requires Valid()
      modifies this`others, this`turnNumber, this`stepNumber, this`activeTurn, this`activeStep,
               store`log, store`seqCounter, store`faults, store`lost, cache`logCache, cache`lastCached
      ensures Valid() && Idle() && Kept()
      ensures turnNumber == old(turnNumber)
      ensures old(Good()) && !store.lost ==> Open() == old(Open())
      ensures !store.lost ==> Tells(old(store.log), store.log, Closing(old(activeTurn), old(activeStep), reason))
    {
      hide Sound, Pending, Increasing, Contig, Tells;
      var stepOpen, turnOpen := activeStep != 0, activeTurn != 0;
      TellsNothing(store.log);
      if stepOpen {
        var _ := EmitEvent(StepEnd, StepData(0, 0), None);
      }
      ghost var between := store.log;
      if turnOpen {
        var _ := EmitEvent(TurnEnd, TurnEndData(0, reason), None);
      }
      if !store.lost {
        TellsNothing(store.log);
        TellsOn(old(store.log), between, store.log,
                if old(activeStep) != 0 then [StepEndOf(old(activeTurn), old(activeStep))] else [],
                if old(activeTurn) != 0 then [TurnEndOf(old(activeTurn), reason)] else [],
                Closing(old(activeTurn), old(activeStep), reason));
      }
    }

    /** A boundary emit that escalates persistence failures: on those the whole turn is closed. */
    method EmitBoundary(kind: EventType, data: Data) returns (ok: bool)
      requires Valid() && IsBoundary(kind)
      requires kind.TurnEnd? ==> data.TurnEndData?
      requires kind.TurnStart? ==> stepNumber == 0
      modifies this`others, this`turnNumber, this`stepNumber, this`activeTurn, this`activeStep,
               store`log, store`seqCounter, store`faults, store`lost, cache`logCache, cache`lastCached
      ensures Valid() && Kept()
      ensures ok ==> M() == if Admits(old(M()), kind) then Advance(old(M()), kind) else old(M())
      ensures !ok ==> Idle() && store.lost
      ensures turnNumber == if Admits(old(M()), kind) then Advance(old(M()), kind).turnNumber else old(turnNumber)
      ensures old(Good()) && !store.lost ==> Open() == old(Open())
      ensures ok && kind.TurnStart? && old(Idle()) && InTurn(old(store.log)) ==> Scan(store.log).None?
      ensures ok ==> Tells(old(store.log), store.log, if Admits(old(M()), kind) then Said(old(M()), kind, data, None) else [])
    {
      hide Sound, Pending, Increasing, Contig, InTurn, Scan, Tells, Said;
      var res := EmitEvent(kind, data, None);
      if res.Lost? {
        FinishTurnReason(Failed);
        return false;
      }
      return true;
    }

    method EmitUser(message: Message)
      requires Valid()
      requires activeTurn != 0 || store.lost
      requires activeStep == 0
      modifies this, store`log, store`seqCounter, store`faults, store`lost, cache`logCache, cache`lastCached
      ensures Valid() && Kept() && M() == old(M())
      ensures old(Good()) && !store.lost ==> Open() == old(Open())
      ensures !store.lost ==> |store.log| > |old(store.log)| && IsUser(store.log[|store.log| - 1], message)
      ensures !store.lost ==> Tells(old(store.log), store.log, [UserOf(message)])
    {
      hide Sound, Pending, Increasing, Contig, Tells;
      var _ := EmitEvent(UserMessage, UserData(message), Some(Append));
    }

    /** Emits an assistant message; its tool calls are open afterwards. */
    method EmitAssistant(turn: nat, step: nat, blocks: seq<ContentBlock>)
      requires Valid()
      requires activeTurn == turn && activeStep == step && step != 0
      modifies this, store`log, store`seqCounter, store`faults, store`lost, cache`logCache, cache`lastCached
      ensures Valid() && Kept() && M() == old(M())
      ensures old(Good()) && !store.lost ==> Open() == old(Open()) + CountCalls(blocks)
      ensures !store.lost ==> Tells(old(store.log), store.log, [ReplyOf(turn, step, blocks)])
    {
      hide Sound, Pending, Increasing, Contig, CountCalls, Tells;
      var _ := EmitEvent(AssistantMessage, AssistantData(turn, step, Message("assistant", blocks)), Some(Append));
    }

    /** The history sent to the model: when the store or the mirror can be read it is derived from
        exactly the durable log. */
    method RequestHistory() returns (messages: Result<seq<Message>, ()>)
      requires Valid()
      modifies cache, store`readFaults
      ensures old(store.readFaults) == [] ==> store.readFaults == []
      ensures Valid() && Kept() && Open() == old(Open())
      ensures old(cache.warm) || old(store.readFaults) == [] || !old(store.readFaults)[0] ==> messages == Derived(store.log)
    {
      hide Derived, Increasing, Contig;
      var events := cache.CachedSessionEvents();
      messages := DeriveMessages(events);
    }

    /** Routes a fatal stream error: a cancelled context beats the failure, otherwise step and turn are
        closed here. */
    method RouteStepFatal(cancel: Cancel) returns (out: StreamOutcome)
      requires Valid()
      requires cancel.Running? ==> activeTurn != 0 && activeStep != 0
      modifies this, store`log, store`seqCounter, store`faults, store`lost, cache`logCache, cache`lastCached
      ensures Valid() && Kept()
      ensures out == Route(cancel)
      ensures SameTurns()
      ensures old(Good()) && !store.lost ==> Open() == old(Open())
      ensures cancel.Running? ==> Idle()
      ensures !cancel.Running? ==> M() == old(M())
      ensures !store.lost ==>
                Tells(old(store.log), store.log, if cancel.Running? then Closing(old(activeTurn), old(activeStep), Failed) else [])
    {
      hide Good, Open, Valid, Increasing, Contig, Tells;
      TellsNothing(store.log);
      match cancel {
        case ActorCancelled => return ActorStopped;
        case TurnCancelled => return TurnAborted;
        case Running =>
          var ok := EmitBoundary(StepEnd, StepData(0, 0));
          ghost var between := store.log;
          if ok {
            ok := EmitBoundary(TurnEnd, TurnEndData(0, Failed));
          }
          if ok {
            TellsOn(old(store.log), between, store.log, [StepEndOf(old(activeTurn), old(activeStep))],
                    [TurnEndOf(old(activeTurn), Failed)], Closing(old(activeTurn), old(activeStep), Failed));
          }
          return LlmFailed;
      }
    }

    /** The stream of one step: chunks, then whatever ends it. */
    method StreamStep(script: StepScript, turn: nat, step: nat) returns (out: StreamOutcome)
      requires Valid() && activeTurn == turn && activeStep == step && step != 0
      modifies this, store`log, store`seqCounter, store`faults, store`lost, cache`logCache, cache`lastCached
      ensures Valid() && Kept()
      ensures SameTurns()
      ensures old(Good()) && !store.lost ==> Open() == old(Open())
      ensures out == Outcome(script.end)
      ensures if Fatal(script.end) then Idle() else M() == old(M())
      ensures !store.lost ==>
                Tells(old(store.log), store.log,
                      ChunksOf(turn, step, script.chunks) + if Fatal(script.end) then Closing(turn, step, Failed) else [])
    {
      hide Sound, Pending, Increasing, Contig, Tells;
      SayChunks(script.chunks, turn, step);
      ghost var spoken := store.log;
      TellsNothing(store.log);
      match script.end {
        case Interrupt(block) => out := Interrupted(block);
        case ContextDone(actor) => out := if actor then ActorStopped else TurnAborted;
        case ErrorChan(cancel) => out := RouteStepFatal(cancel);
        case Closed(buffered, after) =>
          out := Ended;
          if buffered.Some? {
            out := RouteStepFatal(buffered.value);
          }
          ghost var routed := store.log;
          // Cancellation wins over the close, and a stopped actor over an aborted turn.
          if !after.Running? {
            var second := RouteStepFatal(after);
            out := if out.ActorStopped? then out else second;
            if !store.lost {
              TellsOn(spoken, routed, store.log, if Fatal(script.end) then Closing(turn, step, Failed) else [], [],
                      if Fatal(script.end) then Closing(turn, step, Failed) else []);
            }
          }
      }
      if !store.lost {
        TellsOn(old(store.log), spoken, store.log, ChunksOf(turn, step, script.chunks),
                if Fatal(script.end) then Closing(turn, step, Failed) else [],
                ChunksOf(turn, step, script.chunks) + if Fatal(script.end) then Closing(turn, step, Failed) else []);
      }
    }

    /** The chunks of one stream. */
    method SayChunks(chunks: seq<string>, turn: nat, step: nat)
      requires Valid() && activeTurn == turn && activeStep == step && step != 0
      modifies this, store`log, store`seqCounter, store`faults, store`lost, cache`logCache, cache`lastCached
      ensures Valid() && Kept() && M() == old(M())
      ensures old(Good()) && !store.lost ==> Open() == old(Open())
      ensures !store.lost ==> Tells(old(store.log), store.log, ChunksOf(turn, step, chunks))
    {
      hide Sound, Pending, Increasing, Contig, Tells;
      TellsNothing(store.log);
      for i := 0 to |chunks|
        invariant Valid() && Kept() && M() == old(M())
        invariant old(Good()) && !store.lost ==> Open() == old(Open())
        invariant !store.lost ==> Tells(old(store.log), store.log, ChunksOf(turn, step, chunks[..i]))
      {
        ghost var before := store.log;
        var _ := EmitEvent(AssistantChunk, ChunkData(turn, step, chunks[i]), None);
        if !store.lost {
          assert chunks[..i + 1][..i] == chunks[..i];
          TellsOn(old(store.log), before, store.log, ChunksOf(turn, step, chunks[..i]),
                  [Saying(AssistantChunk, ChunkData(turn, step, chunks[i]), None)], ChunksOf(turn, step, chunks[..i + 1]));
        }
      }
      assert chunks[..|chunks|] == chunks;
    }

    /** Runs the tool calls of one assistant message: every call gets its result before the next one,
        and a cancelled context closes the turn with the remaining calls unanswered. */
    method RunTools(calls: seq<ContentBlock>, tools: seq<ToolRun>, turn: nat, step: nat, ghost good: bool, ghost floor: nat)
      returns (after: After)
      requires Valid() && activeTurn == turn && activeStep == step && step != 0 && turn != 0
      requires good ==> Good() && (!store.lost ==> Open() >= floor + |calls|)
      modifies this, store`log, store`seqCounter, store`faults, store`lost, cache`logCache, cache`lastCached
      ensures Valid()
      ensures !store.lost ==> !old(store.lost)
      ensures good ==> Good() && (!store.lost ==> Open() >= floor)
      ensures old(store.log) <= store.log
      ensures good && !store.lost && after.NextPass? ==> Open() == old(Open()) - |calls|
      ensures SameTurns()
      ensures after == ToolStory(turn, step, calls, tools).after
      ensures after.NextPass? || after.TurnClosed? || after.ActorExit?
      ensures after.NextPass? ==> M() == old(M())
      ensures !after.NextPass? ==> Idle()
      ensures !store.lost ==> Tells(old(store.log), store.log, ToolStory(turn, step, calls, tools).events)
    {
      hide Sound, Pending, Increasing, Contig, Tells, CallsStory;
      TellsNothing(store.log);
      NoCalls(turn, step, tools);
      for i := 0 to |calls|
        invariant Valid() && M() == old(M())
        invariant !store.lost ==> !old(store.lost)
        invariant good ==> Good() && (!store.lost ==> Open() == old(Open()) - i)
        invariant old(store.log) <= store.log
        invariant forall j :: 0 <= j < i ==> RunOf(tools, j).cancel.Running?
        invariant !store.lost ==> Tells(old(store.log), store.log, CallsStory(turn, step, calls[..i], tools))
      {
        ghost var before := store.log;
        var run := if i < |tools| then tools[i] else ToolRun("", false, Running);
        RunOneTool(calls[i], run, turn, step, good);
        if !store.lost {
          OneMoreCall(turn, step, calls, tools, i);
          TellsOn(old(store.log), before, store.log, CallsStory(turn, step, calls[..i], tools),
                  CallStory(turn, step, calls[i], run), CallsStory(turn, step, calls[..i + 1], tools));
        }
        if !run.cancel.Running? {
          ghost var ran := store.log;
          FinishTurnReason(Aborted);
          StopsAt(|calls|, tools, i);
          if !store.lost {
            TellsOn(old(store.log), ran, store.log, CallsStory(turn, step, calls[..i + 1], tools),
                    Closing(turn, step, Aborted), ToolStory(turn, step, calls, tools).events);
          }
          return if run.cancel.ActorCancelled? then ActorExit else TurnClosed;
        }
      }
      RunsAll(|calls|, tools);
      assert calls[..|calls|] == calls;
      return NextPass;
    }

    /** The tool calls among the blocks of a reply. */
    method CollectCalls(blocks: seq<ContentBlock>) returns (calls: seq<ContentBlock>)
      ensures calls == CallsOf(blocks)
    {
      calls := [];
      for i := 0 to |blocks|
        invariant calls == CallsOf(blocks[..i])
      {
        assert blocks[..i + 1][..i] == blocks[..i];
        if blocks[i].ToolCallBlock? {
          calls := calls + [blocks[i]];
        }
      }
      assert blocks[..|blocks|] == blocks;
    }

    /** One tool call: the call event, then its result. */
    method RunOneTool(call: ContentBlock, run: ToolRun, turn: nat, step: nat, ghost good: bool)
      requires Valid() && activeTurn == turn && activeStep == step && step != 0
      requires good ==> Good() && (!store.lost ==> Open() >= 1)
      modifies this, store`log, store`seqCounter, store`faults, store`lost, cache`logCache, cache`lastCached
      ensures Valid() && M() == old(M())
      ensures !store.lost ==> !old(store.lost)
      ensures good ==> Good() && (!store.lost ==> Open() == old(Open()) - 1)
      ensures old(store.log) <= store.log
      ensures !store.lost ==> Tells(old(store.log), store.log, CallStory(turn, step, call, run))
    {
      hide Sound, Pending, Increasing, Contig, Tells;
      var id := if call.ToolCallBlock? then call.id else "";
      var _ := EmitEvent(ToolCall, ToolCallData(turn, step, id), None);
      ghost var between := store.log;
      var result := Message("user", [ToolResultBlock(id, run.isError, [TextBlock(run.text)])]);
      var _ := EmitEvent(ToolResult, ToolResultData(turn, step, result, ""), Some(Append));
      if !store.lost {
        TellsOn(old(store.log), between, store.log, [Saying(ToolCall, ToolCallData(turn, step, id), None)],
                [Saying(ToolResult, ToolResultData(turn, step, result, ""), Some(Append))], CallStory(turn, step, call, run));
      }
    }

    /** What follows a clean stream: the assistant message, the tools, the end of the step. `dead` says
        that the end of a step that wanted another pass was lost, so the turn context is cancelled. */
    method CompleteStep(script: StepScript, turn: nat, step: nat) returns (after: After, dead: bool)
      requires Valid() && activeTurn == turn && activeStep == step && step != 0 && turn != 0
      modifies this, store`log, store`seqCounter, store`faults, store`lost, cache`logCache, cache`lastCached
      ensures Valid() && Kept()
      ensures SameTurns()
      ensures !after.NextTurn?
      ensures after.TurnClosed? || after.ActorExit? || (after.NextPass? && dead) ==> Idle()
      ensures after.TurnDone? || (after.NextPass? && !dead) ==> activeTurn == turn && activeStep == 0
      ensures dead ==> after.NextPass? && store.lost
      ensures after.TurnDone? || (after.NextPass? && !dead) ==> stepNumber == old(stepNumber)
      // A step that runs to its end leaves no call of its own open.
      ensures (after.TurnDone? || after.NextPass?) && hasTools && old(Good()) && !store.lost ==> Open() == old(Open())
      // The turn goes on exactly behind tool results, and is done exactly behind a reply no tool answered.
      ensures after.NextPass? ==> hasTools && CountCalls(script.blocks) > 0
      ensures after.TurnDone? ==> !script.finish.ErrorFinish? && (!hasTools || CountCalls(script.blocks) == 0)
      ensures !store.lost ==>
                var story := CompleteStory(script, hasTools, turn, step);
                after == story.after && Tells(old(store.log), store.log, story.events)
    {
      hide Good, Open, Valid, Increasing, Contig, CountCalls, Tells, CallsOf, ToolStory;
      dead := false;
      TellsNothing(store.log);
      if script.finish.ErrorFinish? {
        if |script.blocks| > 0 {
          EmitAssistant(turn, step, script.blocks);
        }
        ghost var replied := store.log;
        FinishTurnReason(Failed);
        if !store.lost {
          TellsOn(old(store.log), replied, store.log, if script.blocks != [] then [ReplyOf(turn, step, script.blocks)] else [],
                  Closing(turn, step, Failed), CompleteStory(script, hasTools, turn, step).events);
        }
        return TurnClosed, false;
      }
      if Good() {
        OpenIsNat();
      }
      ghost var good := Good();
      ghost var floor: nat := if good then Open() else 0;
      EmitAssistant(turn, step, script.blocks);
      ghost var replied := store.log;
      TellsNothing(store.log);
      var calls := CollectCalls(script.blocks);
      var finished := true;
      if |calls| > 0 && hasTools {
        after := RunTools(calls, script.tools, turn, step, good, floor);
        if !after.NextPass? {
          if !store.lost {
            TellsOn(old(store.log), replied, store.log, [ReplyOf(turn, step, script.blocks)],
                    ToolStory(turn, step, calls, script.tools).events, CompleteStory(script, hasTools, turn, step).events);
          }
          return after, false;
        }
        finished := false;
      }
      ghost var ran := store.log;
      ghost var results := if finished then [] else ToolStory(turn, step, calls, script.tools).events;
      var ok := EmitBoundary(StepEnd, StepData(0, 0));
      if !ok {
        return if finished then TurnClosed else NextPass, !finished;
      }
      if !store.lost {
        TellsOn(old(store.log), replied, ran, [ReplyOf(turn, step, script.blocks)], results,
                [ReplyOf(turn, step, script.blocks)] + results);
        TellsOn(old(store.log), ran, store.log, [ReplyOf(turn, step, script.blocks)] + results, [StepEndOf(turn, step)],
                CompleteStory(script, hasTools, turn, step).events);
      }
      return if finished then TurnDone else NextPass, false;
    }

    /** Starts a step: step/start, the history for the model as the log then stands, the request/header snapshot. */
    method OpenStep(turn: nat) returns (step: nat, history: Result<seq<Message>, ()>, ghost asked: seq<Envelope>)
      requires Valid() && activeTurn == turn && activeStep == 0 && turn != 0
      modifies this, store, cache
      ensures old(store.readFaults) == [] ==> store.readFaults == []
      ensures Valid() && Kept() && SameTurns()
      ensures activeTurn == turn && activeStep == step && step != 0
      ensures old(Good()) && !store.lost ==> Open() == old(Open())
      ensures step == old(stepNumber) + 1 && stepNumber == step
      ensures !store.lost ==> Tells(old(store.log), store.log, [StepStartOf(turn, step)])
      ensures old(CanRead()) ==> history == Derived(asked)
      ensures !store.lost ==> Tells(old(store.log), asked, [StepStartOf(turn, step)])
      ensures !store.lost ==>
                asked < store.log && store.log[|store.log| - 1].kind == OtherKnown("request/header")
    {
      hide Sound, Pending, Increasing, Contig, Tells, Derived;
      var _ := EmitEvent(StepStart, StepData(0, 0), None);
      asked := store.log;
      step := activeStep;
      history := RequestHistory();
      var _ := EmitEvent(OtherKnown("request/header"), OtherData(""), None);
      if !store.lost {
        TellsOn(old(store.log), asked, store.log, [StepStartOf(turn, step)], [], [StepStartOf(turn, step)]);
      }
    }

    /** One step of the loop, from step/start to whatever leaves it. */
    method RunStep(script: StepScript, turn: nat) returns (after: After, dead: bool)
      requires Valid() && activeTurn == turn && activeStep == 0 && turn != 0
      modifies this, store, cache
      ensures old(store.readFaults) == [] ==> store.readFaults == []
      ensures Valid() && Kept()
      ensures SameTurns()
      ensures after.TurnClosed? || after.NextTurn? || after.ActorExit? || (after.NextPass? && dead) ==> Idle()
      ensures after.TurnDone? || (after.NextPass? && !dead) ==> activeTurn == turn && activeStep == 0
      ensures (after.TurnDone? || after.NextPass?) && hasTools && old(Good()) && !store.lost ==>
                (script.end.Interrupt? ==> CountCalls(script.blocks) == 0) ==> Open() == old(Open())
      ensures dead ==> after.NextPass? && store.lost
      ensures after.TurnDone? || (after.NextPass? && !dead) ==> stepNumber == old(stepNumber) + 1
      ensures !store.lost ==>
                var story := StepStory(script, hasTools, turn, old(stepNumber) + 1);
                after == story.after && Tells(old(store.log), store.log, story.events)
    {
      hide Good, Open, Valid, Increasing, Contig, CountCalls, Tells, LeftBehind, ChunksOf, Closing;
      var step, history, _ := OpenStep(turn);
      ghost var started := store.log;
      var out := StreamStep(script, turn, step);
      ghost var streamed := store.log;
      after, dead := LeaveStep(script, out, turn, step);
      if !store.lost {
        ghost var failed := if Fatal(script.end) then Closing(turn, step, Failed) else [];
        ghost var left := LeftBehind(script, hasTools, turn, step);
        ghost var first := [StepStartOf(turn, step)];
        TellsOn(old(store.log), started, streamed, first, ChunksOf(turn, step, script.chunks) + failed,
                first + (ChunksOf(turn, step, script.chunks) + failed));
        TellsOn(old(store.log), streamed, store.log, first + (ChunksOf(turn, step, script.chunks) + failed), left.events,
                StepStory(script, hasTools, turn, step).events);
      }
    }

    /** What the loop does with the outcome of a stream. */
    method LeaveStep(script: StepScript, out: StreamOutcome, turn: nat, step: nat) returns (after: After, dead: bool)
      requires Valid() && turn != 0 && step != 0 && out == Outcome(script.end)
      requires if Fatal(script.end) then Idle() else activeTurn == turn && activeStep == step
      modifies this, store`log, store`seqCounter, store`faults, store`lost, cache`logCache, cache`lastCached
      ensures Valid() && Kept()
      ensures SameTurns()
      ensures after.TurnClosed? || after.NextTurn? || after.ActorExit? || (after.NextPass? && dead) ==> Idle()
      ensures after.TurnDone? || (after.NextPass? && !dead) ==> activeTurn == turn && activeStep == 0
      ensures (after.TurnDone? || after.NextPass?) && hasTools && old(Good()) && !store.lost ==>
                (script.end.Interrupt? ==> CountCalls(script.blocks) == 0) ==> Open() == old(Open())
      ensures dead ==> after.NextPass? && store.lost
      ensures after.TurnDone? || (after.NextPass? && !dead) ==> stepNumber == old(stepNumber) && !Fatal(script.end)
      ensures !store.lost ==>
                var story := LeftBehind(script, hasTools, turn, step);
                after == story.after && Tells(old(store.log), store.log, story.events)
    {
      hide Good, Open, Valid, Increasing, Contig, CountCalls, Tells, CompleteStory;
      TellsNothing(store.log);
      assert Closing(0, 0, Aborted) == [];
      dead := false;
      match out {
        case ActorStopped =>
          FinishTurnReason(Aborted);
          return ActorExit, false;
        case TurnAborted =>
          FinishTurnReason(Aborted);
          return NextTurn, false;
        case LlmFailed => return TurnClosed, false;
        case Interrupted(block) =>
          if |script.blocks| > 0 {
            EmitAssistant(turn, step, script.blocks);
          }
          ghost var replied := store.log;
          var ok := EmitBoundary(StepEnd, StepData(0, 0));
          if !ok {
            return TurnClosed, false;
          }
          ghost var ended := store.log;
          EmitUser(Message("user", [block]));
          if !store.lost {
            ghost var reply := if script.blocks != [] then [ReplyOf(turn, step, script.blocks)] else [];
            TellsOn(old(store.log), replied, ended, reply, [StepEndOf(turn, step)], reply + [StepEndOf(turn, step)]);
            TellsOn(old(store.log), ended, store.log, reply + [StepEndOf(turn, step)], [UserOf(Message("user", [block]))],
                    LeftBehind(script, hasTools, turn, step).events);
          }
          return NextPass, false;
        case Ended =>
          after, dead := CompleteStep(script, turn, step);
      }
    }

    /** The step loop of one turn. When the script of the world runs out the actor is stopped. */
    method StepLoop(passes: seq<Pass>, turn: nat) returns (after: After, sticky: bool)
      requires Valid() && activeTurn == turn && activeStep == 0 && turn != 0
      modifies this, store, cache
      ensures old(store.readFaults) == [] ==> store.readFaults == []
      ensures Valid() && Kept()
      ensures SameTurns()
      ensures after.TurnDone? && hasTools && old(Good()) && !store.lost && NoOrphans(passes) ==> Open() == old(Open())
      ensures after.TurnDone? ==> activeTurn == turn && activeStep == 0
      ensures !after.TurnDone? ==> Idle()
      ensures !after.NextPass?
      ensures !store.lost ==>
                var story := LoopStory(passes, hasTools, turn, old(stepNumber), false);
                after == story.after && sticky == story.sticky && Tells(old(store.log), store.log, story.events)
    {
      hide Good, Open, Valid, Increasing, Contig, CountCalls, Tells, StepStory, Closing;
      sticky := false;
      var turnCancelled := false;
      var i := 0;
      ghost var told: seq<Saying> := [];
      TellsNothing(store.log);
      assert passes[0..] == passes;
      while true
        invariant old(store.readFaults) == [] ==> store.readFaults == []
        invariant 0 <= i <= |passes|
        invariant Valid() && Kept()
        invariant SameTurns()
        invariant hasTools && old(Good()) && !store.lost && NoOrphans(passes) ==> Open() == old(Open())
        invariant turnCancelled ==> Idle() && store.lost
        invariant !turnCancelled ==> activeTurn == turn && activeStep == 0
        invariant !store.lost ==>
                    && Tells(old(store.log), store.log, told)
                    && Continues(LoopStory(passes, hasTools, turn, old(stepNumber), false), told,
                                 LoopStory(passes[i..], hasTools, turn, stepNumber, sticky))
        decreases |passes| - i
      {
        ghost var before, k, latched := store.log, stepNumber, sticky;
        var pass := if i < |passes| then passes[i] else Poll(true);
        if i < |passes| {
          assert passes[i..][0] == passes[i] && passes[i..][1..] == passes[i + 1..];
        }
        if pass.NextStep? {
          i := i + 1;
          var ok := EmitBoundary(StepEnd, StepData(0, 0));
          if !ok {
            return NextTurn, sticky;
          }
          ghost var between := store.log;
          EmitUser(Message("user", [pass.block]));
          if !store.lost {
            ghost var said := [UserOf(Message("user", [pass.block]))];
            TellsOn(before, between, store.log, [], said, said);
            TellsOn(old(store.log), before, store.log, told, said, told + said);
            ContinuesOn(LoopStory(passes, hasTools, turn, old(stepNumber), false), told,
                        LoopStory(passes[i - 1..], hasTools, turn, k, latched), said,
                        LoopStory(passes[i..], hasTools, turn, stepNumber, sticky));
            told := told + said;
          }
          continue;
        }
        if pass.Poll? || turnCancelled {
          FinishTurnReason(Aborted);
          if !store.lost {
            TellsOn(old(store.log), before, store.log, told, Closing(turn, 0, Aborted), told + Closing(turn, 0, Aborted));
          }
          return if pass.Poll? && pass.actor then ActorExit else NextTurn, sticky;
        }
        i := i + 1;
        sticky := sticky || (pass.script.finish.Length? && pass.script.end.Closed?);
        var dead;
        after, dead := RunStep(pass.script, turn);
        if !store.lost {
          ghost var step := StepStory(pass.script, hasTools, turn, k + 1);
          TellsOn(old(store.log), before, store.log, told, step.events, told + step.events);
          if after.NextPass? {
            ContinuesOn(LoopStory(passes, hasTools, turn, old(stepNumber), false), told,
                        LoopStory(passes[i - 1..], hasTools, turn, k, latched), step.events,
                        LoopStory(passes[i..], hasTools, turn, stepNumber, sticky));
          }
          told := told + step.events;
        }
        if !after.NextPass? {
          return after, sticky;
        }
        turnCancelled := dead;
      }
    }

    /** The next read of the log finds it: the mirror is warm, or the store answers. */
    ghost predicate CanRead()
      reads this, store, cache
    {
      cache.warm || store.readFaults == [] || !store.readFaults[0]
    }

    /** Reads the log and selects its head; a log that cannot be read counts as empty. */
    method PickHead() returns (log: seq<Envelope>, nodes: seq<int>, span: Option<SurfaceSpan>)
      requires Valid() && compactor.Some?
      modifies cache, store`readFaults
      ensures Valid()
      ensures old(store.readFaults) == [] ==> store.readFaults == []
      ensures span.Some? ==> log == store.log && Picked(log, nodes, span.value.start, span.value.end, compactor.value)
      ensures Paired(store.log) ==> (span.Some? <==> old(CanRead()) && Selects(store.log, compactor.value))
    {
      hide Selects, Picked, Increasing, Contig, Paired;
      log := cache.CachedSessionEvents();
      if |log| == 0 {
        NothingToSelect(compactor.value);
        return log, [], None;
      }
      nodes, span := PickSpan(log, compactor.value);
    }

    /** The idle-session compaction check after a completed turn: it compacts exactly when the log can be read
        and there is a head worth compacting. */
    method MaybeCompact(noise: Noise, summary: seq<Message> -> Option<seq<ContentBlock>>) returns (compacted: bool)
      requires Valid()
      modifies store, cache
      ensures old(store.readFaults) == [] ==> store.readFaults == []
      ensures Valid() && Kept() && M() == old(M())
      ensures old(Good()) && !store.lost ==> Open() == old(Open())
      ensures compacted ==> compactor.Some?
      ensures old(Good()) && !store.lost ==>
                (compacted <==> compactor.Some? && old(CanRead()) && Due(old(store.log), compactor.value, summary))
      ensures old(Good()) && !store.lost ==>
                if compacted then HeadCompacted(old(store.log), store.log, compactor.value, summary)
                else Fold(store.log, 0) == Fold(old(store.log), 0)
      ensures !store.lost ==> Tells(old(store.log), store.log, [])
    {
      hide Tells, Sound, Pending, Increasing, Contig, Fold, Deltas, Region, BracketOutcome, ErrorTail, Admitted, Due,
           Selects,
           HeadCompacted, Picked, WorldOf, Ours, Events, AnswerOf, Frames, Closes, Hindrance, RefusalOf, CanRead, Paired;
      TellsNothing(store.log);
      if compactor.None? {
        return false;
      }
      if old(Good()) && !store.lost {
        SoundIsPaired(store.log, M());
        DueSelects(store.log, compactor.value, summary);
      }
      var log, nodes, span := PickHead();
      if span.None? {
        return false;
      }
      compacted := CompactHead(log, nodes, span.value, noise, summary);
    }

    /** The transaction over a selected head; the mirror is stale whatever its outcome. */
    method CompactHead(log: seq<Envelope>, nodes: seq<int>, span: SurfaceSpan, noise: Noise,
                       summary: seq<Message> -> Option<seq<ContentBlock>>)
      returns (compacted: bool)
      requires Valid() && compactor.Some? && log == store.log && Picked(log, nodes, span.start, span.end, compactor.value)
      modifies store`log, store`seqCounter, store`faults, store`lost, cache
      ensures Valid() && Kept()
      ensures old(Good()) && !store.lost ==> Open() == old(Open())
      ensures old(Good()) && !store.lost ==> (compacted <==> Due(old(store.log), compactor.value, summary))
      ensures old(Good()) && !store.lost ==>
                if compacted then HeadCompacted(old(store.log), store.log, compactor.value, summary)
                else Fold(store.log, 0) == Fold(old(store.log), 0)
      ensures !store.lost ==> Tells(old(store.log), store.log, [])
    {
      hide Tells, Sound, Pending, Increasing, Contig, Fold, Deltas, Region, BracketOutcome, ErrorTail, Admitted, Due,
           HeadCompacted, Picked, WorldOf, Ours, Events, AnswerOf, Frames, Closes, Hindrance, RefusalOf, Paired;
      var options := Options(None, false, false, span.start, span.end, false, "");
      var world := WorldOf(noise, summary);
      WorldOfNeutral(noise, summary);
      var result, err, trace := CompactTransaction(store, log, nodes, compactor.value.meter, options, world);
      compacted := result.Some?;
      if old(Good()) && !store.lost {
        CompactsWhenDue(log, nodes, span, compactor.value, noise, summary, result, err, trace, M());
      }
      if old(Good()) && !store.lost && trace.start.Some? {
        ValidIsContig(store);
        CompactionEffect(log, nodes, compactor.value, options, OwnerOf(options, log), result, trace, M(), summary);
      }
      assert trace.start.None? ==> store.log == old(store.log);
      TellsNothing(log);
      if !store.lost && trace.start.Some? {
        TransactionUnvoiced(log, log, nodes, compactor.value.meter, options, result, trace);
      }
      cache.InvalidateLogCache();
    }

    /** Starts a turn and logs the message that drives it. */
    method BeginTurn(message: Message) returns (started: bool)
      requires Valid() && Idle()
      modifies this, store`log, store`seqCounter, store`faults, store`lost, cache`logCache, cache`lastCached
      ensures Valid() && Kept()
      ensures turnNumber == old(turnNumber) + 1
      ensures if started then activeTurn == turnNumber && activeStep == 0 else Idle() && store.lost
      ensures old(Good()) && !store.lost ==> Open() == old(Open())
      ensures !store.lost ==> |store.log| > |old(store.log)| && IsUser(store.log[|store.log| - 1], message)
      ensures !store.lost && InTurn(old(store.log)) ==> Scan(store.log).None?
      ensures !store.lost ==> stepNumber == 0
      ensures !store.lost ==>
                Tells(old(store.log), store.log, [Saying(TurnStart, TurnData(turnNumber), None)] + [UserOf(message)])
    {
      hide Good, Open, Valid, Increasing, Contig, InTurn, Scan, Tells;
      ResetStepNumber();
      started := EmitBoundary(TurnStart, TurnData(0));
      if started {
        ghost var inside := store.log;
        EmitUser(message);
        StaysBroken(inside, store.log);
        if !store.lost {
          TellsOn(old(store.log), inside, store.log, [Saying(TurnStart, TurnData(turnNumber), None)], [UserOf(message)],
                  [Saying(TurnStart, TurnData(turnNumber), None)] + [UserOf(message)]);
        }
      }
    }

    /** Ends a turn that ran to its end; then the idle-session work. */
    method EndTurn(reason: TurnEndReason, noise: Noise, summary: seq<Message> -> Option<seq<ContentBlock>>)
      returns (ghost idle: seq<Envelope>)
      requires Valid() && activeTurn != 0 && activeStep == 0
      modifies this, store, cache
      ensures old(store.readFaults) == [] ==> store.readFaults == []
      ensures Valid() && Idle() && Kept() && SameTurns()
      ensures old(Good()) && !store.lost ==> Open() == old(Open())
      ensures !store.lost ==> Tells(old(store.log), store.log, [TurnEndOf(old(activeTurn), reason)])
      // The idle work: the title, once, and over the log with it a compaction when one is due.
      ensures !store.lost ==>
                && Tells(old(store.log), idle, [TurnEndOf(old(activeTurn), reason)])
                && titleDone == (old(titleDone) || autoTitle)
      ensures !store.lost && old(store.readFaults) == [] && old(Good()) ==> Settled(idle, store.log, compactor, summary)
    {
      hide Good, Open, Valid, Increasing, Contig, HeadCompacted, Fold, Tells, Due;
      idle := store.log;
      var ok := EmitBoundary(TurnEnd, TurnEndData(0, reason));
      if ok {
        ghost var ended := store.log;
        AutoTitle();
        ghost var titled := store.log;
        idle := store.log;
        var _ := MaybeCompact(noise, summary);
        if !store.lost {
          TellsOn(ended, titled, store.log, [], [], []);
          TellsOn(old(store.log), ended, titled, [TurnEndOf(old(activeTurn), reason)], [],
                  [TurnEndOf(old(activeTurn), reason)]);
          TellsOn(old(store.log), ended, store.log, [TurnEndOf(old(activeTurn), reason)], [],
                  [TurnEndOf(old(activeTurn), reason)]);
        }
      }
    }

    /** One message from the inbox, up to the next read of the inbox; `exit` ends the actor. */
    method ActorTurn(script: TurnScript) returns (exit: bool, ghost idle: seq<Envelope>)
      requires Valid() && Idle()
      modifies this, store, cache
      ensures old(store.readFaults) == [] ==> store.readFaults == []
      ensures Valid() && Idle() && Kept()
      ensures turnNumber == old(turnNumber) + 1
      ensures !store.lost ==>
                exists i :: |old(store.log)| <= i < |store.log| && IsUser(store.log[i], script.message)
      ensures !store.lost && InTurn(old(store.log)) ==> Scan(store.log).None?
      ensures !store.lost ==>
                var story := TurnStory(script.message, script.passes, hasTools, turnNumber);
                exit == story.after.ActorExit? && Tells(old(store.log), store.log, story.events)
      // Behind a turn that ran to its end the session is titled, and compacted when that is due.
      ensures !store.lost && TurnStory(script.message, script.passes, hasTools, turnNumber).after.TurnDone? ==>
                && (autoTitle ==> titleDone)
                && Tells(old(store.log), idle, TurnStory(script.message, script.passes, hasTools, turnNumber).events)
                && (old(Good()) && old(store.readFaults) == [] ==> Settled(idle, store.log, compactor, script.summary))
    {
      hide Settled, Good, Open, Valid, Increasing, Contig, NoOrphans, IsUser, InTurn, Scan, Tells, LoopStory;
      idle := store.log;
      var started := BeginTurn(script.message);
      if !started {
        return false, idle;
      }
      ghost var at, begun := |store.log| - 1, store.log;
      var after, sticky := StepLoop(script.passes, activeTurn);
      if after.TurnDone? {
        ghost var looped := store.log;
        idle := EndTurn(if sticky then MaxTokens else Completed, script.noise, script.summary);
        if !store.lost {
          ghost var loop := LoopStory(script.passes, hasTools, turnNumber, 0, false);
          ghost var last := [TurnEndOf(turnNumber, if sticky then MaxTokens else Completed)];
          TellsOn(begun, looped, store.log, loop.events, last, loop.events + last);
          TellsOn(begun, looped, idle, loop.events, last, loop.events + last);
        }
      }
      if !store.lost {
        ghost var loop := LoopStory(script.passes, hasTools, turnNumber, 0, false);
        ghost var last := if after.TurnDone? then [TurnEndOf(turnNumber, if sticky then MaxTokens else Completed)] else [];
        ghost var first := [Saying(TurnStart, TurnData(turnNumber), None)] + [UserOf(script.message)];
        assert last == [] ==> loop.events + last == loop.events;
        TellsOn(old(store.log), begun, store.log, first, loop.events + last,
                TurnStory(script.message, script.passes, hasTools, turnNumber).events);
        if after.TurnDone? {
          TellsOn(old(store.log), begun, idle, first, loop.events + last,
                  TurnStory(script.message, script.passes, hasTools, turnNumber).events);
        }
      }
      StaysBroken(begun, store.log);
      assert !store.lost ==> IsUser(store.log[at], script.message);
      exit := after.ActorExit?;
    }

    /** One title event on the first completed turn. */
    method AutoTitle()
      requires Valid()
      modifies this, store`log, store`seqCounter, store`faults, store`lost, cache`logCache, cache`lastCached
      ensures Valid() && Kept() && M() == old(M())
      ensures old(Good()) && !store.lost ==> Open() == old(Open())
      ensures titleDone == (old(titleDone) || autoTitle)
      ensures autoTitle && !old(titleDone) && !store.lost ==>
                |store.log| > |old(store.log)| && store.log[|store.log| - 1].kind == OtherKnown("session/title")
      ensures !autoTitle || old(titleDone) ==> store.log == old(store.log)
      ensures !store.lost ==> Tells(old(store.log), store.log, [])
    {
      hide Sound, Pending, Increasing, Contig, Tells;
      TellsNothing(store.log);
      if autoTitle && !titleDone {
        titleDone := true;
        var _ := EmitEvent(OtherKnown("session/title"), OtherData(""), None);
      }
    }

    method ResetStepNumber()
      requires Valid() && Idle()
      modifies this`stepNumber
      ensures Valid() && stepNumber == 0 && M() == old(M()).(stepNumber := 0)
      ensures old(Good()) ==> Good()
      ensures Open() == old(Open())
    {
      hide Paired, Pending, Scan;
      stepNumber := 0;
    }

    /** The whole life of the actor: whatever the inbox, the model, the tools and the store do, it is
        idle whenever it comes back to its inbox, and as long as no append is lost the log stays sound
        and no orphaned tool call is ever closed. */
    method ActorLoop(inbox: seq<TurnScript>)
      requires Valid() && Idle()
      modifies this, store, cache
      ensures old(store.readFaults) == [] ==> store.readFaults == []
      ensures Valid() && Idle() && Kept()
      ensures inbox != [] && !store.lost && InTurn(old(store.log)) ==> Scan(store.log).None?
      ensures !store.lost ==> Tells(old(store.log), store.log, InboxStory(inbox, hasTools, old(turnNumber) + 1))
    {
      hide Good, Open, Sound, Pending, Increasing, Contig, InTurn, Scan, Tells, TurnStory, InboxStory;
      ghost var told: seq<Saying> := [];
      TellsNothing(store.log);
      InboxAll(inbox, hasTools, turnNumber + 1);
      for i := 0 to |inbox|
        invariant old(store.readFaults) == [] ==> store.readFaults == []
        invariant Valid() && Idle() && Kept()
        invariant turnNumber == old(turnNumber) + i
        invariant !store.lost ==>
                    && Tells(old(store.log), store.log, told)
                    && InboxStory(inbox, hasTools, old(turnNumber) + 1) == told + InboxStory(inbox[i..], hasTools, turnNumber + 1)
        invariant i == 0 ==> store.log == old(store.log)
        invariant i > 0 && !store.lost && InTurn(old(store.log)) ==> Scan(store.log).None?
      {
        ghost var before := store.log;
        InboxNext(inbox, hasTools, turnNumber + 1, i, told);
        var exit, _ := ActorTurn(inbox[i]);
        StaysBroken(before, store.log);
        if !store.lost {
          ghost var said := TurnStory(inbox[i].message, inbox[i].passes, hasTools, turnNumber).events;
          TellsOn(old(store.log), before, store.log, told, said, told + said);
          told := told + said;
        }
        if exit {
          return;
        }
      }
      InboxAll(inbox, hasTools, turnNumber + 1);
      assert told + [] == told;
    }
  }

  /** Reopens a stored session and runs it on some messages. As long as no append is lost, its log is bracketed
      afterwards exactly when the stored one ended outside every turn: a turn left open by a crash is never
      closed, and the next turn starts inside it. */
  method Reopen(store: EventStore, hasTools: bool, compactor: Option<Compactor>, autoTitle: bool,
                others: seq<seq<string>>, inbox: seq<TurnScript>) returns (agent: Agent)
    requires store.Valid() && Paired(store.log) && Scan(store.log).Some? && inbox != []
    modifies store
    ensures agent.store == store && agent.Valid() && agent.Idle()
    ensures !store.lost ==> (Scan(store.log).Some? <==> !InTurn(old(store.log)))
    ensures !store.lost && !InTurn(old(store.log)) ==> agent.Good()
  {
    hide Paired, Scan, Increasing, Contig;
    agent := new Agent(store, hasTools, compactor, autoTitle, others);
    agent.ActorLoop(inbox);
  }

  /** Such a log: one turn start is stored; the rebuilt machine numbers its first turn 2, and its start event
      is already outside the brackets. */
  lemma CrashedTurnReopens()
    ensures var stored := [NewEnvelope(0, TurnStart, TurnData(1))];
            && Paired(stored) && InTurn(stored) && LastTurn(stored) == 1
            && Scan(stored + [Emitted(1, Machine(0, 0, LastTurn(stored), 0), TurnStart, TurnData(0), None)]).None?
  {
    var e := NewEnvelope(0, TurnStart, TurnData(1));
    var stored := [e];
    assert [] + [e] == stored;
    assert Fold([], 0) == Some(FoldResult([], [], 0));
    FoldLogOnly([], e, 0);
    ScanSnoc([], e);
    assert stored[..0] == [];
    hide Scan, Fold;
    OpenTurnBreaks(stored, [], Emitted(1, Machine(0, 0, 1, 0), TurnStart, TurnData(0), None), []);
    assert stored + [] + [Emitted(1, Machine(0, 0, 1, 0), TurnStart, TurnData(0), None)] + [] ==
           stored + [Emitted(1, Machine(0, 0, 1, 0), TurnStart, TurnData(0), None)];
  }

  predicate IsUser(e: Envelope, message: Message) {
    e.kind.UserMessage? && e.data == UserData(message)
  }

  /** No interruption of these passes leaves a committed tool call without a result. */
  ghost predicate NoOrphans(passes: seq<Pass>) {
    forall i :: 0 <= i < |passes| && passes[i].Step? && passes[i].script.end.Interrupt? ==>
      CountCalls(passes[i].script.blocks) == 0
  }

  /** The head of the surface up to the selected cut is one checkpoint, which frames the answer to the messages
      of that head; the kept tail is untouched. */
  ghost predicate HeadCompacted(before: seq<Envelope>, after: seq<Envelope>, c: Compactor,
                                summary: seq<Message> -> Option<seq<ContentBlock>>)
  {
    && Fold(before, 0).Some?
    && Fold(after, 0).Some?
    && var nodes := Fold(before, 0).value.nodes;
    && var prices := Prices(c.meter, BySeq(before), nodes);
    && prices.Some?
    && var cut := Selected(Deltas(before), nodes, prices.value, c.retain);
    && 0 < cut < |nodes|
    && |Fold(after, 0).value.nodes| == 1 + |nodes| - cut
    && Fold(after, 0).value.nodes[1..] == nodes[cut..]
    && var x := Fold(after, 0).value.nodes[0];
    && |before| <= x < |after|
    && var answer := AnswerOf(before, nodes[..cut], summary);
    && answer.Some? && after[x].data.UserData? && after[x].data.message.role == "user"
    && Frames(after[x].data.message.content, answer.value)
  }

  function NoiseEvents(names: seq<string>): (r: seq<Envelope>)
    ensures AllNeutral(r)
  {
    if names == [] then [] else [NewEnvelope(0, OtherKnown(names[0]), OtherData(""))] + NoiseEvents(names[1..])
  }

  function WorldOf(n: Noise, summary: seq<Message> -> Option<seq<ContentBlock>>): World {
    World(false, summary, NoiseEvents(n.early), false, false, None, NoiseEvents(n.beforeSummary),
          NoiseEvents(n.beforeCheckpoint), NoiseEvents(n.beforeEnd), NoiseEvents(n.beforeErrorEnd))
  }

  lemma WorldOfNeutral(n: Noise, summary: seq<Message> -> Option<seq<ContentBlock>>)
    ensures WorldNeutral(WorldOf(n, summary)) && WorldOf(n, summary).summary == summary
  {
  }

  /** The span the selection names is the head up to the selected cut. */
  lemma SelectionSplices(log: seq<Envelope>, nodes: seq<int>, prices: seq<nat>, c: Compactor, x: int)
    requires Paired(log) && nodes == Fold(log, 0).value.nodes && nodes != []
    requires |prices| == |nodes| && Selected(Deltas(log), nodes, prices, c.retain) > 0
    ensures var cut := Selected(Deltas(log), nodes, prices, c.retain);
            && cut < |nodes|
            && Region(Deltas(log), nodes, nodes[0], nodes[cut - 1]) ==
               Some(SurfaceSelection(SurfaceSpan(nodes[0], nodes[cut - 1]), 0, cut - 1, nodes[..cut]))
            && Spliced(nodes, 0, cut - 1, x) == [x] + nodes[cut..]
  {
    hide Fold, Deltas, Clean, Balances;
    NodesDistinct(log, 0);
    SelectedIsValid(Deltas(log), nodes, prices, c.retain);
  }

  /** The fold of a log, and the span its own selection names. */
  ghost predicate Picked(log: seq<Envelope>, nodes: seq<int>, start: int, end: int, c: Compactor) {
    && Fold(log, 0).Some?
    && nodes == Fold(log, 0).value.nodes
    && nodes != []
    && var prices := Prices(c.meter, BySeq(log), nodes);
    && prices.Some?
    && var cut := Selected(Deltas(log), nodes, prices.value, c.retain);
    && 0 < cut <= |nodes|
    && start == nodes[0] && end == nodes[cut - 1]
  }

  /** After the idle check the head is compacted if that was due, and the surface as before otherwise. */
  ghost predicate Settled(before: seq<Envelope>, after: seq<Envelope>, c: Option<Compactor>,
                          summary: seq<Message> -> Option<seq<ContentBlock>>)
  {
    if c.Some? && Due(before, c.value, summary) then HeadCompacted(before, after, c.value, summary)
    else Fold(after, 0) == Fold(before, 0)
  }

  /** There is a head worth compacting: the selection finds one, no bracket holds the lock, and the summary of
      its messages, framed, costs less than the head. */
  ghost predicate Due(log: seq<Envelope>, c: Compactor, summary: seq<Message> -> Option<seq<ContentBlock>>) {
    && Selects(log, c)
    && var nodes := Fold(log, 0).value.nodes;
    && var prices := Prices(c.meter, BySeq(log), nodes).value;
    && var cut := Selected(Deltas(log), nodes, prices, c.retain);
    && Lock(log).None?
    && var answer := AnswerOf(log, nodes[..cut], summary);
    && answer.Some? && ContentTokens(FrameSummary(answer.value)) < Sum(prices[..cut])
  }

  /** The selection finds a head. */
  ghost predicate Selects(log: seq<Envelope>, c: Compactor) {
    && Fold(log, 0).Some?
    && var nodes := Fold(log, 0).value.nodes;
    && nodes != []
    && var prices := Prices(c.meter, BySeq(log), nodes);
    && prices.Some?
    && 0 < Selected(Deltas(log), nodes, prices.value, c.retain) <= |nodes|
  }

  lemma DueSelects(log: seq<Envelope>, c: Compactor, summary: seq<Message> -> Option<seq<ContentBlock>>)
    ensures Due(log, c, summary) ==> Selects(log, c)
  {
    hide Selects, AnswerOf, Fold, Prices, Selected, ContentTokens, FrameSummary, Sum, Lock;
  }

  lemma NothingToSelect(c: Compactor)
    ensures !Selects([], c)
  {
  }

  lemma SoundIsPaired(log: seq<Envelope>, m: Machine)
    requires Sound(log, m)
    ensures Paired(log)
  {
    hide Paired;
  }

  /** Over a picked span the transaction is admitted and goes through exactly when the compaction is due. */
  lemma DueIff(log: seq<Envelope>, nodes: seq<int>, start: int, end: int, c: Compactor, world: World, live: seq<Envelope>)
    requires Paired(log) && Increasing(log) && Picked(log, nodes, start, end, c)
    requires !world.cancelledBefore
    ensures var options := Options(None, false, false, start, end, false, "");
            var sel := Region(Deltas(log), nodes, start, end);
            && sel.Some? && sel.value.startIdx <= sel.value.endIdx < |nodes|
            && (Due(log, c, world.summary) <==>
                && Admitted(log, nodes, options, world.cancelledBefore)
                && Hindrance(c.meter, log, nodes, sel.value, options, world, live).None?)
  {
    hide Fold, Deltas, Prices, BySeq, AnswerOf, ContentTokens, Sum, FrameSummary, OpenTurn, LastBracket, LastEndSeed,
         Lock, Selected;
    var prices := Prices(c.meter, BySeq(log), nodes).value;
    var cut := Selected(Deltas(log), nodes, prices, c.retain);
    NodesDistinct(log, 0);
    SelectedIsValid(Deltas(log), nodes, prices, c.retain);
    ScanIsMachine(log);
    assert prices[0..cut] == prices[..cut];
  }

  lemma CompactsWhenDue(log: seq<Envelope>, nodes: seq<int>, span: SurfaceSpan, c: Compactor, noise: Noise,
                        summary: seq<Message> -> Option<seq<ContentBlock>>, result: Option<CompactionResult>,
                        err: Option<Failure>, trace: Trace, m: Machine)
    requires Sound(log, m) && Contig(log) && Picked(log, nodes, span.start, span.end, c)
    requires var options := Options(None, false, false, span.start, span.end, false, "");
             var sel := Region(Deltas(log), nodes, span.start, span.end);
             && (trace.start.None? ==> result.None? && !Admitted(log, nodes, options, WorldOf(noise, summary).cancelledBefore))
             && (trace.start.Some? ==>
                   && Admitted(log, nodes, options, WorldOf(noise, summary).cancelledBefore)
                   && sel.Some? && sel.value.startIdx <= sel.value.endIdx < |nodes|
                   && Closes(Hindrance(c.meter, log, nodes, sel.value, options, WorldOf(noise, summary), LiveLog(log, trace)), options,
                             result, err, trace, false))
    ensures result.Some? <==> Due(log, c, summary)
  {
    hide Sound, Due, Admitted, Hindrance, Region, Deltas, Picked, Paired;
    SoundIsPaired(log, m);
    ContigIncreasing(log);
    DueIff(log, nodes, span.start, span.end, c, WorldOf(noise, summary),
           if trace.start.Some? then LiveLog(log, trace) else log);
  }

  lemma ContigIncreasing(log: seq<Envelope>)
    requires Contig(log)
    ensures Increasing(log)
  {
  }

  method PickSpan(log: seq<Envelope>, c: Compactor) returns (nodes: seq<int>, span: Option<SurfaceSpan>)
    ensures span.Some? ==> Picked(log, nodes, span.value.start, span.value.end, c)
    ensures Paired(log) ==> (span.Some? <==> Selects(log, c))
  {
    hide Fold, Deltas, Prices, BySeq, Clean, Balances;
    var fold := FoldSurface(log, 0);
    if fold.None? {
      return [], None;
    }
    nodes := fold.value.nodes;
    var priced := MeasureNodes(c.meter, log, nodes);
    var r := SelectCompactableRange(log, nodes, priced, c.retain);
    return nodes, if r.Ok? then r.value else None;
  }

  /** What a transaction over a picked span does to a sound log. */
  lemma CompactionEffect(log: seq<Envelope>, nodes: seq<int>, c: Compactor, options: Options, owner: Option<nat>,
                         result: Option<CompactionResult>, trace: Trace, m: Machine,
                         summary: seq<Message> -> Option<seq<ContentBlock>>)
    requires Sound(log, m) && trace.start.Some? && Contig(log + TraceEvents(trace))
    requires AllNeutral(trace.noise) && OthersNeutral(trace.tail)
    requires Picked(log, nodes, options.start, options.end, c)
    requires Region(Deltas(log), nodes, options.start, options.end).Some?
    requires BracketOutcome(log, log, nodes, c.meter, Region(Deltas(log), nodes, options.start, options.end).value,
                            owner, options, result, trace)
    requires result.None? ==> |Ours(trace.tail)| == 1 && ErrorTail(Ours(trace.tail), options.compactionId, options.owner)
    requires result.Some? ==>
               var answer := AnswerOf(log, Region(Deltas(log), nodes, options.start, options.end).value.shadowed, summary);
               answer.Some? && Frames(result.value.summary, answer.value)
    ensures Sound(log + TraceEvents(trace), m)
    ensures Pending(log + TraceEvents(trace)) == Pending(log)
    ensures result.None? ==> Fold(log + TraceEvents(trace), 0) == Fold(log, 0)
    ensures result.Some? ==> HeadCompacted(log, log + TraceEvents(trace), c, summary)
  {
    hide Fold, Deltas, Prices, BySeq, Clean, Pending, Scan, Region, Selected, BracketOutcome, ErrorTail, Contig, Ours,
         Events, Frames, AnswerOf;
    var sel := Region(Deltas(log), nodes, options.start, options.end).value;
    TransactionKeepsSound(log, nodes, c.meter, sel, owner, options, result, trace, m);
    var x := |LiveLog(log, trace)| + if result.Some? then CheckpointAt(trace.tail) else 0;
    SelectionSplices(log, nodes, Prices(c.meter, BySeq(log), nodes).value, c, x);
  }

  /** A transaction adds nothing to the tale of the loop. */
  lemma TransactionUnvoiced(before: seq<Envelope>, events: seq<Envelope>, nodes: seq<int>, meter: Meter, options: Options,
                            result: Option<CompactionResult>, trace: Trace)
    requires trace.start.Some? && Region(Deltas(events), nodes, options.start, options.end).Some?
    requires BracketOutcome(before, events, nodes, meter, Region(Deltas(events), nodes, options.start, options.end).value,
                            OwnerOf(options, events), options, result, trace)
    requires AllNeutral(trace.noise) && OthersNeutral(trace.tail)
    ensures Tells(before, before + TraceEvents(trace), [])
  {
    hide Region, Deltas, Cheaper, StillOn, StillPriced, Ours, Events, FullCommit, BrokenCommit, Tells;
    var sel := Region(Deltas(events), nodes, options.start, options.end).value;
    var own, more := Ours(trace.tail), TraceEvents(trace);
    OwnUnvoiced(own, options, OwnerOf(options, events), sel, trace.start.value.seqNo, result);
    forall k | 0 <= k < |more| ensures !Voiced(more[k]) {
      if 0 < k <= |trace.noise| {
        assert more[k] == trace.noise[k - 1];
      } else if k > |trace.noise| {
        var e := trace.tail[k - 1 - |trace.noise|];
        assert more[k] == e.event;
        if e.ours {
          OurEntry(trace.tail, k - 1 - |trace.noise|);
        }
      }
    }
    TellsUnvoiced(before, more);
  }

  lemma OwnUnvoiced(own: seq<Envelope>, options: Options, owner: Option<nat>, sel: SurfaceSelection, startSeq: int,
                    r: Option<CompactionResult>)
    requires if r.Some? then FullCommit(own, options, owner, sel, r.value) else BrokenCommit(own, options, sel, startSeq)
    ensures forall k :: 0 <= k < |own| ==> !Voiced(own[k])
  {
    if r.None? && !ErrorTail(own, options.compactionId, options.owner) {
      if ErrorTail(own[1..], options.compactionId, options.owner) {
        assert |own| > 1 ==> own[1] == own[1..][0];
      } else {
        assert |own| > 2 ==> own[2] == own[2..][0];
      }
    }
  }

  lemma ValidIsContig(store: EventStore)
    requires store.Valid() && !store.lost
    ensures Contig(store.log)
  {
  }

  /** What an admitted emit adds to the tale. */
  function Said(m: Machine, kind: EventType, data: Data, op: Option<SurfaceOp>): seq<Saying> {
    var e := Emitted(0, m, kind, data, op);
    if Voiced(e) then [Saying(kind, Stamp(m, kind, data), op)] else []
  }

  lemma TellsEmitted(log: seq<Envelope>, before: seq<Envelope>, e: Envelope, m: Machine, kind: EventType, data: Data,
                     op: Option<SurfaceOp>)
    requires Tells(log, before, []) && e == Emitted(e.seqNo, m, kind, data, op)
    ensures Tells(log, before + [e], Said(m, kind, data, op)) && e.kind == kind
  {
    hide Stamp, Tells;
    TellsOne(before, e);
    TellsOn(log, before, before + [e], [], Said(m, kind, data, op), Said(m, kind, data, op));
  }

  lemma StartInTurn(log: seq<Envelope>, before: seq<Envelope>, e: Envelope)
    requires InTurn(log) && log <= before && AllNeutral(before[|log|..]) && e.kind.TurnStart?
    ensures Scan(before + [e]).None?
  {
    hide Scan;
    OpenTurnBreaks(log, before[|log|..], e, []);
    assert log + before[|log|..] + [e] + [] == before + [e];
  }

  lemma StaysBroken(log: seq<Envelope>, later: seq<Envelope>)
    requires log <= later
    ensures Scan(log).None? ==> Scan(later).None?
  {
    hide Scan;
    if Scan(log).None? {
      ScanBroken(log, later[|log|..]);
      assert later == log + later[|log|..];
    }
  }

  lemma NeutralOne(log: seq<Envelope>, e: Envelope, m: Machine)
    requires Sound(log, m) && e.seqNo == |log| && Neutral(e)
    ensures Sound(log + [e], m) && Pending(log + [e]) == Pending(log)
  {
    hide Fold, Deltas, Pending, Clean;
    FoldedBelow(log);
    NeutralKeepsSound(log, [e], m);
  }
}
