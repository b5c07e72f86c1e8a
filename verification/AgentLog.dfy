/** What a well-formed session log is: turns and steps properly bracketed and numbered, a surface
    that folds, and every tool result on it behind an open tool call. Stated over the log alone, so
    that the agent loop can be proved against it. */
module AgentLog {
  import opened Wrappers
  import opened SessionEvents
  import opened EventStores
  import opened Surface
  import opened ToolPairing
  import opened CompactionTheorems

  // ---------------------------------------------------------------- turn and step brackets

  /** Position in the bracket structure: 0 for "no turn" and "no step". */
  datatype Bracket = Bracket(turn: nat, step: nat, lastTurn: nat, lastStep: nat)

  /** The turn and step an event claims to belong to. */
  function ClaimOf(e: Envelope): Option<(nat, nat)> {
    match e.data
    case AssistantData(t, k, _) => Some((t, k))
    case ToolResultData(t, k, _, _) => Some((t, k))
    case ToolCallData(t, k, _) => Some((t, k))
    case ChunkData(t, k, _) => Some((t, k))
    case _ => None
  }

  predicate InStep(kind: EventType) {
    kind.AssistantMessage? || kind.AssistantChunk? || kind.ToolCall? || kind.ToolResult?
  }

  predicate IsBoundary(kind: EventType) {
    kind.TurnStart? || kind.TurnEnd? || kind.StepStart? || kind.StepEnd?
  }

  /** One event read against the brackets so far; `None` when it breaks them. */
  function ScanStep(b: Bracket, e: Envelope): Option<Bracket> {
    match e.kind
    case TurnStart =>
      if b.turn == 0 && e.data == TurnData(b.lastTurn + 1) then Some(Bracket(b.lastTurn + 1, 0, b.lastTurn + 1, 0)) else None
    case StepStart =>
      if b.turn != 0 && b.step == 0 && e.data == StepData(b.turn, b.lastStep + 1)
      then Some(b.(step := b.lastStep + 1, lastStep := b.lastStep + 1)) else None
    case StepEnd =>
      if b.step != 0 && e.data == StepData(b.turn, b.step) then Some(b.(step := 0)) else None
    case TurnEnd =>
      if b.turn != 0 && b.step == 0 && e.data.TurnEndData? && e.data.turn == b.turn then Some(b.(turn := 0)) else None
    case UserMessage =>
      if e.surfaceOp != Some(Append) || (b.turn != 0 && b.step == 0) then Some(b) else None
    case _ =>
      if InStep(e.kind) && !(b.step != 0 && ClaimOf(e) == Some((b.turn, b.step))) then None else Some(b)
  }

  function Scan(log: seq<Envelope>): Option<Bracket> {
    if log == [] then Some(Bracket(0, 0, 0, 0))
    else
      var b := Scan(log[..|log| - 1]);
      if b.None? then None else ScanStep(b.value, log[|log| - 1])
  }

  lemma ScanSnoc(log: seq<Envelope>, e: Envelope)
    ensures Scan(log + [e]) == if Scan(log).None? then None else ScanStep(Scan(log).value, e)
  {
    assert (log + [e])[..|log|] == log;
  }

  lemma {:induction false} ScanPrefix(log: seq<Envelope>, n: nat)
    requires Scan(log).Some? && n <= |log|
    ensures Scan(log[..n]).Some?
    decreases |log|
  {
    if n == |log| {
      assert log[..n] == log;
    } else {
      assert log[..|log| - 1][..n] == log[..n];
      ScanPrefix(log[..|log| - 1], n);
    }
  }

  /** The position of the start of the step that is open. */
  lemma {:induction false} OpenStepStart(log: seq<Envelope>) returns (j: nat)
    requires Scan(log).Some? && Scan(log).value.step != 0
    ensures j < |log| && log[j].kind.StepStart?
    ensures log[j].data == StepData(Scan(log).value.turn, Scan(log).value.step)
    ensures forall m :: j < m < |log| ==> !IsBoundary(log[m].kind)
    decreases |log|
  {
    var n := |log| - 1;
    if log[n].kind.StepStart? {
      j := n;
    } else {
      assert !IsBoundary(log[n].kind);
      j := OpenStepStart(log[..n]);
    }
  }

  /** Every assistant and tool event of a bracketed log lies inside the step it names: that step was
      started before it and no boundary lies between. */
  lemma InsideItsStep(log: seq<Envelope>, i: nat) returns (j: nat)
    requires Scan(log).Some? && i < |log| && InStep(log[i].kind)
    ensures j < i && log[j].kind.StepStart? && ClaimOf(log[i]).Some?
    ensures log[j].data == StepData(ClaimOf(log[i]).value.0, ClaimOf(log[i]).value.1)
    ensures forall m :: j < m < i ==> !IsBoundary(log[m].kind)
  {
    ScanPrefix(log, i + 1);
    assert log[..i + 1][..i] == log[..i];
    j := OpenStepStart(log[..i]);
  }

  function CountStarts(log: seq<Envelope>, t: nat): nat {
    if log == [] then 0
    else
      var e := log[|log| - 1];
      CountStarts(log[..|log| - 1], t) + if e.kind.TurnStart? && e.data == TurnData(t) then 1 else 0
  }

  function CountEnds(log: seq<Envelope>, t: nat): nat {
    if log == [] then 0
    else
      var e := log[|log| - 1];
      CountEnds(log[..|log| - 1], t) + if e.kind.TurnEnd? && e.data.TurnEndData? && e.data.turn == t then 1 else 0
  }

  /** Turns are numbered consecutively from 1, each started once, and ended once unless it is the
      one still open. */
  lemma {:induction false} TurnCounts(log: seq<Envelope>, t: nat)
    requires Scan(log).Some?
    ensures var b := Scan(log).value;
            && (b.turn != 0 ==> b.turn == b.lastTurn)
            && (b.step != 0 ==> b.turn != 0 && b.step == b.lastStep)
            && CountStarts(log, t) == (if 1 <= t <= b.lastTurn then 1 else 0)
            && CountEnds(log, t) == (if 1 <= t <= b.lastTurn && t != b.turn then 1 else 0)
    decreases |log|
  {
    if log != [] {
      TurnCounts(log[..|log| - 1], t);
    }
  }

  function CountSteps(log: seq<Envelope>, t: nat, k: nat): nat {
    if log == [] then 0
    else
      var e := log[|log| - 1];
      CountSteps(log[..|log| - 1], t, k) + if e.kind.StepStart? && e.data == StepData(t, k) then 1 else 0
  }

  function CountStepEnds(log: seq<Envelope>, t: nat, k: nat): nat {
    if log == [] then 0
    else
      var e := log[|log| - 1];
      CountStepEnds(log[..|log| - 1], t, k) + if e.kind.StepEnd? && e.data == StepData(t, k) then 1 else 0
  }

  /** How many steps a turn started. */
  function StepTotal(log: seq<Envelope>, t: nat): nat {
    if log == [] then 0
    else
      var e := log[|log| - 1];
      StepTotal(log[..|log| - 1], t) + if e.kind.StepStart? && e.data.StepData? && e.data.turn == t then 1 else 0
  }

  /** The steps of every turn are numbered consecutively from 1, each started once, and ended once unless it
      is the one still open; the last turn's count is the one the scan carries. */
  lemma {:induction false} StepCounts(log: seq<Envelope>, t: nat, k: nat)
    requires Scan(log).Some?
    ensures var b := Scan(log).value;
            && CountSteps(log, t, k) == (if 1 <= k <= StepTotal(log, t) then 1 else 0)
            && CountStepEnds(log, t, k) ==
               (if 1 <= k <= StepTotal(log, t) && !(b.step != 0 && t == b.turn && k == b.step) then 1 else 0)
            && (t > b.lastTurn ==> StepTotal(log, t) == 0)
            && (t == b.lastTurn && t > 0 ==> StepTotal(log, t) == b.lastStep)
            && (t == 0 ==> StepTotal(log, t) == 0)
    decreases |log|
  {
    if log != [] {
      var n := |log| - 1;
      TurnCounts(log[..n], 0);
      StepCounts(log[..n], t, k);
    }
  }

  /** A stored log that ends inside a turn cannot be continued by a new one: the next turn start breaks the
      brackets, and nothing appended later mends them. */
  lemma OpenTurnBreaks(log: seq<Envelope>, noise: seq<Envelope>, e: Envelope, more: seq<Envelope>)
    requires Scan(log).Some? && Scan(log).value.turn != 0 && AllNeutral(noise) && e.kind.TurnStart?
    ensures Scan(log + noise + [e] + more).None?
  {
    hide Scan;
    ScanNeutral(log, noise);
    ScanSnoc(log + noise, e);
    ScanBroken(log + noise + [e], more);
  }

  lemma {:induction false} ScanBroken(log: seq<Envelope>, more: seq<Envelope>)
    requires Scan(log).None?
    ensures Scan(log + more).None?
    decreases |more|
  {
    if more == [] {
      assert log + more == log;
    } else {
      var n := |more| - 1;
      ScanBroken(log, more[..n]);
      ScanSnoc(log + more[..n], more[n]);
      assert log + more == (log + more[..n]) + [more[n]];
    }
  }

  lemma {:induction false} ScanNeutral(log: seq<Envelope>, noise: seq<Envelope>)
    requires AllNeutral(noise)
    ensures Scan(log + noise) == Scan(log)
    decreases |noise|
  {
    hide Scan;
    if noise == [] {
      assert log + noise == log;
    } else {
      var n := |noise| - 1;
      ScanNeutral(log, noise[..n]);
      ScanSnoc(log + noise[..n], noise[n]);
      assert log + noise == (log + noise[..n]) + [noise[n]];
    }
  }

  // ---------------------------------------------------------------- surface and pairing

  /** The log folds and its surface is clean. */
  ghost predicate Paired(log: seq<Envelope>) {
    Fold(log, 0).Some? && Clean(Deltas(log), Fold(log, 0).value.nodes)
  }

  /** Tool calls on the surface that have no result yet. */
  ghost function Pending(log: seq<Envelope>): int {
    if Fold(log, 0).Some? then Depth(Deltas(log), Fold(log, 0).value.nodes) else 0
  }

  lemma DepthGrows(d: map<int, int>, d': map<int, int>, nodes: seq<int>)
    requires Clean(d, nodes) && Extends(d, d')
    ensures Clean(d', nodes)
    ensures forall k :: 0 <= k <= |nodes| ==> Depth(d', nodes[..k]) == Depth(d, nodes[..k])
    ensures Depth(d', nodes) == Depth(d, nodes)
  {
    forall k | 0 <= k < |nodes| ensures nodes[k] in d && nodes[k] in d' && d'[nodes[k]] == d[nodes[k]] {
      var q := nodes[k];
      assert q in d.Keys;
    }
    forall k | 0 <= k <= |nodes| ensures Depth(d', nodes[..k]) == Depth(d, nodes[..k]) {
      DepthSame(d, d', nodes[..k]);
    }
    assert nodes[..|nodes|] == nodes;
  }

  lemma CleanSnoc(d: map<int, int>, nodes: seq<int>, x: int)
    requires Clean(d, nodes) && x in d && Depth(d, nodes) + d[x] >= 0
    ensures Clean(d, nodes + [x])
    ensures Depth(d, nodes + [x]) == Depth(d, nodes) + d[x]
  {
    var s := nodes + [x];
    assert s[..|s| - 1] == nodes;
    forall k | 0 <= k <= |s| ensures Depth(d, s[..k]) >= 0 {
      if k <= |nodes| {
        assert s[..k] == nodes[..k];
      } else {
        assert s[..k] == s;
      }
    }
  }

  /** An event that stays off the surface changes neither the fold nor the pairing. */
  lemma AppendLogOnly(log: seq<Envelope>, e: Envelope)
    requires Paired(log) && e.seqNo == |log|
    requires !Eligible(e.kind) && e.surfaceOp.None? && e.sources.None?
    ensures Paired(log + [e]) && Pending(log + [e]) == Pending(log)
    ensures Fold(log + [e], 0) == Fold(log, 0)
    ensures Extends(Deltas(log), Deltas(log + [e]))
  {
    hide Fold, Deltas, Clean;
    FoldedBelow(log);
    FoldLogOnly(log, e, 0);
    DeltasGrow(log, e);
    DepthGrows(Deltas(log), Deltas(log + [e]), Fold(log, 0).value.nodes);
  }

  /** A decodable message appended to the surface keeps the log paired when it closes no more calls
      than are open. */
  lemma AppendSurface(log: seq<Envelope>, e: Envelope)
    requires Paired(log) && e.seqNo == |log|
    requires Eligible(e.kind) && e.surfaceOp == Some(Append) && e.sources.None?
    requires ToolDelta(e).Some? && Pending(log) + ToolDelta(e).value >= 0
    ensures Paired(log + [e]) && Pending(log + [e]) == Pending(log) + ToolDelta(e).value
    ensures Fold(log + [e], 0).value.nodes == Fold(log, 0).value.nodes + [|log|]
    ensures Extends(Deltas(log), Deltas(log + [e]))
  {
    hide Fold, Deltas, Clean, ToolDelta;
    FoldedBelow(log);
    FoldSnoc(log, e, 0);
    DeltasGrow(log, e);
    var nodes := Fold(log, 0).value.nodes;
    DepthGrows(Deltas(log), Deltas(log + [e]), nodes);
    CleanSnoc(Deltas(log + [e]), nodes, |log|);
  }

  /** What the agent loop itself appends: plain surface appends and events that stay off the surface. */
  predicate Plain(e: Envelope) {
    e.sources == None && e.surfaceOp == if Eligible(e.kind) then Some(Append) else None
  }

  /** A log of plain events folds exactly when its seqs are 0, 1, 2, ... with no gap: a seq consumed by an
      append that failed makes every later event unfoldable. */
  lemma {:induction false} PlainFoldsIff(log: seq<Envelope>)
    requires forall i :: 0 <= i < |log| ==> Plain(log[i])
    ensures Fold(log, 0).Some? <==> Contig(log)
    decreases |log|
  {
    if log != [] {
      var n := |log| - 1;
      PlainFoldsIff(log[..n]);
      assert log == log[..n] + [log[n]];
      if Contig(log) {
        assert Contig(log[..n]);
      }
      if Fold(log, 0).Some? {
        assert log[n].seqNo == n;
        assert forall i :: 0 <= i < n ==> log[..n][i] == log[i];
      }
    }
  }

  /** The whole surface is a balanced cut exactly when no tool call is open; so a call left open by an
      aborted turn keeps every later tail unbalanced. */
  lemma TailBalancedIff(log: seq<Envelope>)
    requires Paired(log)
    ensures var nodes := Fold(log, 0).value.nodes;
            Balances(Deltas(log), nodes)[|nodes|] <==> Pending(log) == 0
  {
    hide Fold, Deltas, Depth;
    var nodes := Fold(log, 0).value.nodes;
    assert nodes[..|nodes|] == nodes;
  }

  // ---------------------------------------------------------------- the agent's machine against its log

  /** The counters and the open turn and step an agent keeps in memory; 0 is "none open". */
  datatype Machine = Machine(turn: nat, step: nat, turnNumber: nat, stepNumber: nat)

  predicate Admits(m: Machine, kind: EventType) {
    match kind
    case TurnStart => m.turn == 0
    case TurnEnd => m.turn != 0 && m.step == 0
    case StepStart => m.turn != 0 && m.step == 0
    case StepEnd => m.step != 0
    case _ => true
  }

  function Advance(m: Machine, kind: EventType): Machine {
    match kind
    case TurnStart => m.(turn := m.turnNumber + 1, turnNumber := m.turnNumber + 1, step := 0)
    case TurnEnd => m.(turn := 0)
    case StepStart => m.(step := m.stepNumber + 1, stepNumber := m.stepNumber + 1)
    case StepEnd => m.(step := 0)
    case _ => m
  }

  /** The payload a boundary event really carries: start events the numbers just assigned, end events
      the numbers just closed. */
  function Stamp(m: Machine, kind: EventType, data: Data): Data {
    match kind
    case TurnStart => TurnData(Advance(m, kind).turn)
    case StepStart => StepData(Advance(m, kind).turn, Advance(m, kind).step)
    case StepEnd => StepData(m.turn, m.step)
    case TurnEnd => if data.TurnEndData? then TurnEndData(m.turn, data.reason) else data
    case _ => data
  }

  ghost predicate InSync(b: Bracket, m: Machine) {
    && b.turn == m.turn && b.step == m.step && b.lastTurn == m.turnNumber
    && (m.turn != 0 ==> b.lastStep == m.stepNumber)
  }

  /** The log is bracketed, paired and says exactly what the machine believes. */
  ghost predicate Sound(log: seq<Envelope>, m: Machine) {
    Paired(log) && Scan(log).Some? && InSync(Scan(log).value, m)
  }

  /** Events an agent may emit where it stands: messages for the human between steps, model and tool
      events inside the step they name, a result only while a call is open. */
  ghost predicate Suits(m: Machine, kind: EventType, data: Data, op: Option<SurfaceOp>, pending: int) {
    match kind
    case TurnStart => op.None? && m.stepNumber == 0
    case StepStart => op.None?
    case StepEnd => op.None?
    case TurnEnd => op.None? && data.TurnEndData?
    case UserMessage => op == Some(Append) && data.UserData? && m.turn != 0 && m.step == 0
    case AssistantMessage =>
      op == Some(Append) && data.AssistantData? && m.step != 0 && data.turn == m.turn && data.step == m.step
    case ToolResult =>
      && op == Some(Append) && data.ToolResultData? && m.step != 0 && data.turn == m.turn && data.step == m.step
      && pending >= 1
    case ToolCall => op.None? && data.ToolCallData? && m.step != 0 && data.turn == m.turn && data.step == m.step
    case AssistantChunk => op.None? && data.ChunkData? && m.step != 0 && data.turn == m.turn && data.step == m.step
    case _ => op.None?
  }

  function EmitDelta(kind: EventType, data: Data): int {
    if kind.ToolResult? then -1
    else if kind.AssistantMessage? && data.AssistantData? then CountCalls(data.message.content)
    else 0
  }

  function Emitted(seqNo: int, m: Machine, kind: EventType, data: Data, op: Option<SurfaceOp>): Envelope {
    Envelope(seqNo, kind, Stamp(m, kind, data), None, op, false)
  }

  lemma EmitScans(m: Machine, b: Bracket, kind: EventType, data: Data, op: Option<SurfaceOp>, pending: int, seqNo: int)
    requires InSync(b, m) && Admits(m, kind) && Suits(m, kind, data, op, pending)
    ensures ScanStep(b, Emitted(seqNo, m, kind, data, op)).Some?
    ensures InSync(ScanStep(b, Emitted(seqNo, m, kind, data, op)).value, Advance(m, kind))
  {
  }

  /** One admitted, well-placed emit keeps log and machine sound and moves the number of open calls by
      its own share. */
  lemma EmitKeepsSound(log: seq<Envelope>, m: Machine, kind: EventType, data: Data, op: Option<SurfaceOp>)
    requires Sound(log, m) && Admits(m, kind) && Suits(m, kind, data, op, Pending(log))
    ensures Sound(log + [Emitted(|log|, m, kind, data, op)], Advance(m, kind))
    ensures Pending(log + [Emitted(|log|, m, kind, data, op)]) == Pending(log) + EmitDelta(kind, data)
  {
    hide Paired, Pending, Scan, ScanStep, InSync, Advance, CountCalls;
    var e := Emitted(|log|, m, kind, data, op);
    ScanSnoc(log, e);
    EmitScans(m, Scan(log).value, kind, data, op, Pending(log), |log|);
    PendingNonNegative(log);
    if Eligible(kind) {
      AppendSurface(log, e);
    } else {
      AppendLogOnly(log, e);
    }
  }

  lemma PendingNonNegative(log: seq<Envelope>)
    requires Paired(log)
    ensures Pending(log) >= 0
  {
    hide Fold, Deltas, Depth;
    var nodes := Fold(log, 0).value.nodes;
    assert nodes[..|nodes|] == nodes;
  }

  lemma {:induction false} NeutralKeepsSound(log: seq<Envelope>, events: seq<Envelope>, m: Machine)
    requires Sound(log, m) && Contig(log + events)
    requires AllNeutral(events)
    ensures Sound(log + events, m) && Pending(log + events) == Pending(log)
    ensures Fold(log + events, 0) == Fold(log, 0)
    ensures Extends(Deltas(log), Deltas(log + events))
    decreases |events|
  {
    hide Fold, Deltas, Pending, Clean;
    if events == [] {
      assert log + events == log;
    } else {
      var n := |events| - 1;
      var before := log + events[..n];
      assert log + events == before + [events[n]];
      assert Contig(before) by {
        assert forall i :: 0 <= i < |before| ==> before[i] == (log + events)[i];
      }
      assert events[n] == (log + events)[|before|];
      NeutralKeepsSound(log, events[..n], m);
      AppendLogOnly(before, events[n]);
      ScanSnoc(before, events[n]);
      var d0, d1, d2 := Deltas(log), Deltas(before), Deltas(log + events);
      forall q | q in d0.Keys ensures q in d2.Keys && d2[q] == d0[q] {
        assert q in d1.Keys;
      }
    }
  }
}
