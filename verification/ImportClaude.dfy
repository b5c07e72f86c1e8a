/** Importing a foreign transcript (backend/pkg/importcc/claude.go): the log it writes always folds, and
    exactly which imported logs the compaction can work on.

    Timestamps, ids, working directory and the counts by kind are left out; a decoded line is a datatype. */
module ImportClaude {
  import opened Wrappers
  import opened SessionEvents
  import opened EventStores
  import opened Surface
  import opened ToolPairing
  import opened CompactionTheorems
  import opened AgentLog
  import Toml

  datatype SourceBlock =
    | TextPart(text: string)
    | Thinking(text: string)
    | ToolUse(id: string)
    | ToolResultPart(useId: string, isError: bool, content: seq<ContentBlock>)
    | OtherPart

  /** A line of the transcript; `None` blocks mean the message does not decode. */
  datatype SourceLine =
    | Torn
    | Sidechain
    | UserLine(hidden: bool, blocks: Option<seq<SourceBlock>>)
    | AssistantLine(blocks: Option<seq<SourceBlock>>)
    | CustomTitle(title: string)
    | AiTitle(title: string)
    | OtherLine

  predicate HasText(s: string) {
    Toml.Trim(s) != ""
  }

  lemma HasTextIff(s: string)
    ensures HasText(s) <==> exists i :: 0 <= i < |s| && !Toml.IsSpace(s[i])
  {
    Toml.TrimLeftShape(s);
    Toml.TrimRightShape(Toml.TrimLeft(s));
  }

  /** The tool results of a line, in order. */
  function Results(blocks: seq<SourceBlock>): seq<ContentBlock> {
    if blocks == [] then []
    else
      var b := blocks[|blocks| - 1];
      Results(blocks[..|blocks| - 1]) + if b.ToolResultPart? then [ToolResultBlock(b.useId, b.isError, b.content)] else []
  }

  /** The texts of a line that are not blank, in order. */
  function Texts(blocks: seq<SourceBlock>): seq<string> {
    if blocks == [] then []
    else
      var b := blocks[|blocks| - 1];
      Texts(blocks[..|blocks| - 1]) + if b.TextPart? && HasText(b.text) then [b.text] else []
  }

  /** What an assistant line says: text and reasoning, in order. */
  function Spoken(blocks: seq<SourceBlock>): seq<ContentBlock> {
    if blocks == [] then []
    else
      var b := blocks[|blocks| - 1];
      Spoken(blocks[..|blocks| - 1]) +
      if b.TextPart? && HasText(b.text) then [TextBlock(b.text)]
      else if b.Thinking? && HasText(b.text) then [ReasoningBlock(b.text)] else []
  }

  function CallIds(blocks: seq<SourceBlock>): seq<string> {
    if blocks == [] then []
    else CallIds(blocks[..|blocks| - 1]) + if blocks[|blocks| - 1].ToolUse? then [blocks[|blocks| - 1].id] else []
  }

  /** What the converter appends: plain decodable events, none of whose messages holds a tool call. */
  predicate Imported(e: Envelope) {
    && Plain(e)
    && (e.kind.AssistantMessage? ==> e.data.AssistantData? && CountCalls(e.data.message.content) == 0)
    && !e.ignorable && (e.kind.UserMessage? ==> e.data.UserData?)
    && (e.kind.ToolResult? ==> e.data.ToolResultData?)
    && !IsBoundary(e.kind)
  }

  ghost predicate ImportedLog(log: seq<Envelope>) {
    Contig(log) && forall i :: 0 <= i < |log| ==> Imported(log[i])
  }

  function CountKind(log: seq<Envelope>, kind: EventType): nat {
    if log == [] then 0
    else CountKind(log[..|log| - 1], kind) + if log[|log| - 1].kind == kind then 1 else 0
  }

  lemma CountKindSnoc(log: seq<Envelope>, e: Envelope, kind: EventType)
    ensures CountKind(log + [e], kind) == CountKind(log, kind) + if e.kind == kind then 1 else 0
  {
    assert (log + [e])[..|log|] == log;
  }

  // ---------------------------------------------------------------- the log always folds

  /** Every imported log folds, and nothing imported ever leaves the surface. */
  lemma {:induction false} ImportedFolds(log: seq<Envelope>)
    requires ImportedLog(log)
    ensures Fold(log, 0).Some?
    ensures forall x :: x in Fold(log, 0).value.nodes <==> 0 <= x < |log| && Eligible(log[x].kind)
    decreases |log|
  {
    PlainFoldsIff(log);
    if log != [] {
      var n := |log| - 1;
      ImportedFolds(log[..n]);
      assert log == log[..n] + [log[n]];
      FoldSnoc(log[..n], log[n], 0);
      assert Plain(log[n]) && log[n].seqNo == n;
    }
  }

  lemma ImportedDelta(e: Envelope)
    requires Imported(e)
    ensures ToolDelta(e) == Some(if e.kind.ToolResult? then -1 else 0)
  {
  }

  // ---------------------------------------------------------------- which imported logs are paired

  lemma {:induction false} NoResultsPaired(log: seq<Envelope>)
    requires ImportedLog(log) && CountKind(log, ToolResult) == 0
    ensures Paired(log) && Pending(log) == 0
    decreases |log|
  {
    hide Fold, Deltas, Depth, Paired, Pending, ToolDelta;
    if log == [] {
      EmptyPaired();
    } else {
      var n := |log| - 1;
      assert log == log[..n] + [log[n]];
      NoResultsPaired(log[..n]);
      ImportedDelta(log[n]);
      assert Plain(log[n]) && log[n].seqNo == n;
      if Eligible(log[n].kind) {
        AppendSurface(log[..n], log[n]);
      } else {
        AppendLogOnly(log[..n], log[n]);
      }
    }
  }

  lemma EmptyPaired()
    ensures Paired([]) && Pending([]) == 0
  {
  }

  /** Surface nodes of an imported log all have a known delta. */
  lemma NodesKnown(log: seq<Envelope>, x: int)
    requires ImportedLog(log) && 0 <= x < |log|
    ensures x in Deltas(log) && Deltas(log)[x] == if log[x].kind.ToolResult? then -1 else 0
    decreases |log|
  {
    var n := |log| - 1;
    assert log == log[..n] + [log[n]];
    ImportedDelta(log[n]);
    DeltasGrow(log[..n], log[n]);
    if x < n {
      NodesKnown(log[..n], x);
      var q := x;
      assert q in Deltas(log[..n]).Keys;
    }
  }

  /** The running balance only ever falls: at the tail it is minus the number of imported results. */
  lemma {:induction false} TailDepth(log: seq<Envelope>)
    requires ImportedLog(log)
    ensures Fold(log, 0).Some?
    ensures Depth(Deltas(log), Fold(log, 0).value.nodes) + CountKind(log, ToolResult) == 0
    decreases |log|
  {
    hide Fold, Deltas, ToolDelta, Step;
    ImportedFolds(log);
    if log == [] {
      EmptyFold();
    } else {
      var n := |log| - 1;
      var before := log[..n];
      assert log == before + [log[n]];
      TailDepth(before);
      FoldSnoc(before, log[n], 0);
      FoldPlain(before, log[n]);
      ImportedDelta(log[n]);
      DeltasGrow(before, log[n]);
      var nodes := Fold(before, 0).value.nodes;
      ImportedFolds(before);
      forall k | 0 <= k < |nodes|
        ensures nodes[k] in Deltas(before) && nodes[k] in Deltas(log) && Deltas(log)[nodes[k]] == Deltas(before)[nodes[k]] {
        assert nodes[k] in nodes;
        NodesKnown(before, nodes[k]);
        var q := nodes[k];
        assert q in Deltas(before).Keys;
      }
      DepthSame(Deltas(before), Deltas(log), nodes);
      DepthSnoc(Deltas(log), nodes, n);
      CountKindSnoc(before, log[n], ToolResult);
      if !Eligible(log[n].kind) {
        assert nodes + [] == nodes;
      }
    }
  }

  lemma DepthSnoc(d: map<int, int>, nodes: seq<int>, x: int)
    ensures Depth(d, nodes + [x]) == Depth(d, nodes) + if x in d then d[x] else 0
  {
    assert (nodes + [x])[..|nodes|] == nodes;
  }

  lemma EmptyFold()
    ensures Fold([], 0) == Some(FoldResult([], [], 0))
  {
  }

  lemma FoldPlain(log: seq<Envelope>, e: Envelope)
    requires Fold(log, 0).Some? && Plain(e) && e.seqNo == |log|
    ensures Fold(log + [e], 0).Some?
    ensures Fold(log + [e], 0).value.nodes == Fold(log, 0).value.nodes + if Eligible(e.kind) then [|log|] else []
  {
    hide Fold;
    FoldSnoc(log, e, 0);
  }

  /** The surface of an imported log is in order exactly when it holds no tool result: the transcript's
      calls are imported as log-only events, so every imported result lacks its call and the pairing
      check reports a corrupt surface. */
  lemma ImportedPairedIff(log: seq<Envelope>)
    requires ImportedLog(log)
    ensures Fold(log, 0).Some?
    ensures Clean(Deltas(log), Fold(log, 0).value.nodes) <==> CountKind(log, ToolResult) == 0
  {
    hide Fold, Deltas, Depth;
    TailDepth(log);
    var nodes := Fold(log, 0).value.nodes;
    assert nodes[..|nodes|] == nodes;
    if CountKind(log, ToolResult) == 0 {
      NoResultsPaired(log);
    }
  }

  // ---------------------------------------------------------------- the converter

  /** An envelope as the converter writes it: on the surface by a plain append, or log-only. */
  function Stamped(seqNo: int, kind: EventType, data: Data): Envelope {
    Envelope(seqNo, kind, data, None, if Eligible(kind) then Some(Append) else None, false)
  }

  /** One tool result per message. */
  function ResultEvents(start: nat, turn: nat, step: nat, results: seq<ContentBlock>): seq<Envelope> {
    if results == [] then []
    else
      var n := |results| - 1;
      ResultEvents(start, turn, step, results[..n]) +
      [Stamped(start + n, ToolResult, ToolResultData(turn, step, Message("user", [results[n]]), ""))]
  }

  function CallEvents(start: nat, turn: nat, step: nat, ids: seq<string>): seq<Envelope> {
    if ids == [] then []
    else
      var n := |ids| - 1;
      CallEvents(start, turn, step, ids[..n]) + [Stamped(start + n, ToolCall, ToolCallData(turn, step, ids[n]))]
  }

  /** What a user line becomes: its results, then one message joining its texts. */
  function UserEvents(start: nat, turn: nat, step: nat, blocks: seq<SourceBlock>): seq<Envelope> {
    ResultEvents(start, turn, step, Results(blocks)) +
    if Texts(blocks) == [] then []
    else [Stamped(start + |Results(blocks)|, UserMessage, UserData(Message("user", [TextBlock(JoinLines(Texts(blocks)))])))]
  }

  /** What an assistant line becomes: at most one message, then one log-only event for each call. */
  function AssistantEvents(start: nat, turn: nat, step: nat, blocks: seq<SourceBlock>): seq<Envelope> {
    var said := Spoken(blocks);
    if said == [] then CallEvents(start, turn, step, CallIds(blocks))
    else
      [Stamped(start, AssistantMessage, AssistantData(turn, step, Message("assistant", said)))] +
      CallEvents(start + 1, turn, step, CallIds(blocks))
  }

  /** A transcript that starts in the middle belongs to turn 1. */
  function TurnFrom(turn: nat): nat {
    if turn == 0 then 1 else turn
  }

  lemma BlocksSnoc(blocks: seq<SourceBlock>, b: SourceBlock)
    ensures Results(blocks + [b]) ==
            if b.ToolResultPart? then Results(blocks) + [ToolResultBlock(b.useId, b.isError, b.content)] else Results(blocks)
    ensures Texts(blocks + [b]) == if b.TextPart? && HasText(b.text) then Texts(blocks) + [b.text] else Texts(blocks)
    ensures Spoken(blocks + [b]) ==
            if b.TextPart? && HasText(b.text) then Spoken(blocks) + [TextBlock(b.text)]
            else if b.Thinking? && HasText(b.text) then Spoken(blocks) + [ReasoningBlock(b.text)] else Spoken(blocks)
    ensures CallIds(blocks + [b]) == if b.ToolUse? then CallIds(blocks) + [b.id] else CallIds(blocks)
  {
    hide HasText;
    assert (blocks + [b])[..|blocks|] == blocks;
  }

  lemma BlocksNone()
    ensures Results([]) == [] && Texts([]) == [] && Spoken([]) == [] && CallIds([]) == []
    ensures forall start, turn, step :: ResultEvents(start, turn, step, []) == []
    ensures forall start, turn, step :: CallEvents(start, turn, step, []) == []
  {
  }

  lemma ResultsSnoc(start: nat, turn: nat, step: nat, results: seq<ContentBlock>, r: ContentBlock)
    ensures ResultEvents(start, turn, step, results + [r]) ==
            ResultEvents(start, turn, step, results) +
            [Stamped(start + |results|, ToolResult, ToolResultData(turn, step, Message("user", [r]), ""))]
  {
    assert (results + [r])[..|results|] == results;
  }

  lemma CallsSnoc(start: nat, turn: nat, step: nat, ids: seq<string>, id: string)
    ensures CallEvents(start, turn, step, ids + [id]) ==
            CallEvents(start, turn, step, ids) + [Stamped(start + |ids|, ToolCall, ToolCallData(turn, step, id))]
  {
    assert (ids + [id])[..|ids|] == ids;
  }

  class ClaudeConverter {
    var seqNo: nat
    var turn: nat
    var step: nat
    var title: string
    var haveTitle: bool
    var envelopes: seq<Envelope>
    var skipped: nat

    ghost predicate Valid()
      reads this
    {
      ImportedLog(envelopes) && seqNo == |envelopes|
    }

    constructor ()
      ensures Valid() && envelopes == [] && title == "" && !haveTitle && turn == 0 && step == 0 && skipped == 0
    {
      seqNo, turn, step, title, haveTitle, envelopes, skipped := 0, 0, 0, "", false, [], 0;
    }

    /** Numbers and appends one envelope. */
    method Add(kind: EventType, data: Data)
      requires Valid() && Imported(Stamped(seqNo, kind, data))
      modifies this`envelopes, this`seqNo
      ensures Valid() && envelopes == old(envelopes) + [Stamped(old(seqNo), kind, data)]
      ensures CountKind(envelopes, ToolResult) == CountKind(old(envelopes), ToolResult) + if kind == ToolResult then 1 else 0
    {
      hide Imported;
      var e := Stamped(seqNo, kind, data);
      CountKindSnoc(envelopes, e, ToolResult);
      envelopes := envelopes + [e];
      seqNo := seqNo + 1;
    }

    /** Opens turn 1 for a transcript that starts in the middle. */
    method EffectiveTurn() returns (t: nat)
      modifies this`turn
      ensures t == turn == TurnFrom(old(turn))
    {
      if turn == 0 {
        turn := 1;
      }
      t := turn;
    }

    /** A user line: every tool result first, then one message that joins its texts and opens a new turn. */
    method TranslateUser(hidden: bool, message: Option<seq<SourceBlock>>)
      requires Valid()
      modifies this
      ensures Valid() && title == old(title) && haveTitle == old(haveTitle)
      ensures hidden || message == None ==>
                envelopes == old(envelopes) && skipped == old(skipped) + 1 && turn == old(turn) && step == old(step)
      ensures !hidden && message.Some? ==>
                && envelopes == old(envelopes) + UserEvents(old(seqNo), TurnFrom(old(turn)), old(step), message.value)
                && CountKind(envelopes, ToolResult) == CountKind(old(envelopes), ToolResult) + |Results(message.value)|
                && step == (if Texts(message.value) == [] then old(step) else 0)
                && turn == (if Results(message.value) == [] then old(turn) else TurnFrom(old(turn))) +
                           (if Texts(message.value) == [] then 0 else 1)
                && skipped == old(skipped) + if Results(message.value) == [] && Texts(message.value) == [] then 1 else 0
    {
      hide ImportedLog, CountKind, Results, Texts, ResultEvents;
      if hidden || message == None {
        skipped := skipped + 1;
        return;
      }
      var blocks := message.value;
      var parts := AddResults(blocks);
      if parts == [] {
        if Results(blocks) == [] {
          skipped := skipped + 1;
        }
        return;
      }
      turn := turn + 1;
      step := 0;
      Add(UserMessage, UserData(Message("user", [TextBlock(JoinLines(parts))])));
    }

    method AddResult(r: ContentBlock)
      requires Valid()
      modifies this`envelopes, this`seqNo, this`turn
      ensures Valid() && turn == TurnFrom(old(turn)) && seqNo == old(seqNo) + 1
      ensures envelopes == old(envelopes) + [Stamped(old(seqNo), ToolResult, ToolResultData(turn, step, Message("user", [r]), ""))]
      ensures CountKind(envelopes, ToolResult) == CountKind(old(envelopes), ToolResult) + 1
    {
      hide ImportedLog, CountKind;
      var t := EffectiveTurn();
      Add(ToolResult, ToolResultData(t, step, Message("user", [r]), ""));
    }

    /** The blocks of a user line: results are appended as they come, texts are collected. */
    method AddResults(blocks: seq<SourceBlock>) returns (parts: seq<string>)
      requires Valid()
      modifies this`envelopes, this`seqNo, this`turn
      ensures Valid() && parts == Texts(blocks) && seqNo == old(seqNo) + |Results(blocks)|
      ensures envelopes == old(envelopes) + ResultEvents(old(seqNo), TurnFrom(old(turn)), step, Results(blocks))
      ensures CountKind(envelopes, ToolResult) == CountKind(old(envelopes), ToolResult) + |Results(blocks)|
      ensures turn == if Results(blocks) == [] then old(turn) else TurnFrom(old(turn))
    {
      hide Valid, CountKind, HasText, Results, Texts, ResultEvents, Stamped;
      parts := [];
      BlocksNone();
      for i := 0 to |blocks|
        invariant Valid() && parts == Texts(blocks[..i]) && seqNo == old(seqNo) + |Results(blocks[..i])|
        invariant envelopes == old(envelopes) + ResultEvents(old(seqNo), TurnFrom(old(turn)), step, Results(blocks[..i]))
        invariant CountKind(envelopes, ToolResult) == CountKind(old(envelopes), ToolResult) + |Results(blocks[..i])|
        invariant turn == if Results(blocks[..i]) == [] then old(turn) else TurnFrom(old(turn))
      {
        assert blocks[..i + 1] == blocks[..i] + [blocks[i]];
        BlocksSnoc(blocks[..i], blocks[i]);
        match blocks[i] {
          case TextPart(text) =>
            if HasText(text) {
              parts := parts + [text];
            }
          case ToolResultPart(useId, isError, content) =>
            var r := ToolResultBlock(useId, isError, content);
            ResultsSnoc(old(seqNo), TurnFrom(old(turn)), step, Results(blocks[..i]), r);
            AddResult(r);
          case _ =>
        }
      }
      assert blocks[..|blocks|] == blocks;
    }

    /** An assistant line: one message from its text and reasoning, then its tool calls as log-only events. */
    method TranslateAssistant(message: Option<seq<SourceBlock>>)
      requires Valid()
      modifies this
      ensures Valid() && title == old(title) && haveTitle == old(haveTitle)
      ensures CountKind(envelopes, ToolResult) == CountKind(old(envelopes), ToolResult)
      ensures message == None ==> envelopes == old(envelopes) && step == old(step) && turn == old(turn)
      ensures skipped == old(skipped) + if envelopes == old(envelopes) then 1 else 0
      ensures message.Some? ==>
                && step == old(step) + (if Spoken(message.value) == [] then 0 else 1)
                && envelopes == old(envelopes) + AssistantEvents(old(seqNo), TurnFrom(old(turn)), step, message.value)
    {
      hide ImportedLog, CountKind, Spoken, CallIds, CallEvents;
      if message == None {
        skipped := skipped + 1;
        return;
      }
      var content, calls := Sort(message.value);
      BlocksNone();
      if |content| > 0 {
        step := step + 1;
        var t := EffectiveTurn();
        Add(AssistantMessage, AssistantData(t, step, Message("assistant", content)));
      }
      AddCalls(calls);
      if |content| == 0 && |calls| == 0 {
        skipped := skipped + 1;
      }
    }

    /** The blocks of an assistant line: what is said, and the tool calls. */
    static method Sort(blocks: seq<SourceBlock>) returns (content: seq<ContentBlock>, calls: seq<string>)
      ensures content == Spoken(blocks) && calls == CallIds(blocks) && CountCalls(content) == 0
    {
      hide HasText, Spoken, CallIds, CountCalls;
      content, calls := [], [];
      BlocksNone();
      NoCallsNone();
      for i := 0 to |blocks|
        invariant content == Spoken(blocks[..i]) && calls == CallIds(blocks[..i]) && CountCalls(content) == 0
      {
        assert blocks[..i + 1] == blocks[..i] + [blocks[i]];
        BlocksSnoc(blocks[..i], blocks[i]);
        match blocks[i] {
          case TextPart(text) =>
            if HasText(text) {
              NoCallsSnoc(content, TextBlock(text));
              content := content + [TextBlock(text)];
            }
          case Thinking(text) =>
            if HasText(text) {
              NoCallsSnoc(content, ReasoningBlock(text));
              content := content + [ReasoningBlock(text)];
            }
          case ToolUse(id) =>
            calls := calls + [id];
          case _ =>
        }
      }
      assert blocks[..|blocks|] == blocks;
    }

    method AddCalls(calls: seq<string>)
      requires Valid()
      modifies this`envelopes, this`seqNo, this`turn
      ensures Valid() && seqNo == old(seqNo) + |calls|
      ensures envelopes == old(envelopes) + CallEvents(old(seqNo), TurnFrom(old(turn)), step, calls)
      ensures CountKind(envelopes, ToolResult) == CountKind(old(envelopes), ToolResult)
    {
      hide ImportedLog, CountKind, CallEvents;
      BlocksNone();
      for i := 0 to |calls|
        invariant Valid() && seqNo == old(seqNo) + i && (i == 0 ==> turn == old(turn)) &&
                  (i > 0 ==> turn == TurnFrom(old(turn)))
        invariant envelopes == old(envelopes) + CallEvents(old(seqNo), TurnFrom(old(turn)), step, calls[..i])
        invariant CountKind(envelopes, ToolResult) == CountKind(old(envelopes), ToolResult)
      {
        assert calls[..i + 1] == calls[..i] + [calls[i]];
        var t := EffectiveTurn();
        CallsSnoc(old(seqNo), t, step, calls[..i], calls[i]);
        Add(ToolCall, ToolCallData(t, step, calls[i]));
      }
      assert calls[..|calls|] == calls;
    }

    /** One line; what is not understood is counted and skipped, never fatal. */
    method ConvertLine(line: SourceLine)
      requires Valid()
      modifies this
      ensures Valid() && old(envelopes) <= envelopes
      ensures CountKind(envelopes, ToolResult) == CountKind(old(envelopes), ToolResult) + LineResults(line)
      ensures envelopes == old(envelopes) + LineEvents(line, old(seqNo), old(turn), old(step))
      ensures title == match line
                       case CustomTitle(t) => (if HasText(t) then Toml.Trim(t) else old(title))
                       case AiTitle(t) => (if !old(haveTitle) && HasText(t) then Toml.Trim(t) else old(title))
                       case _ => old(title)
      ensures haveTitle == (old(haveTitle) || match line
                                              case CustomTitle(t) => HasText(t)
                                              case AiTitle(t) => HasText(t)
                                              case _ => false)
      ensures line.Torn? || line.Sidechain? || line.OtherLine? ==> skipped == old(skipped) + 1
    {
      match line {
        case UserLine(hidden, blocks) => TranslateUser(hidden, blocks);
        case AssistantLine(blocks) => TranslateAssistant(blocks);
        case CustomTitle(t) =>
          if HasText(t) {
            title, haveTitle := Toml.Trim(t), true;
          }
        case AiTitle(t) =>
          if !haveTitle && HasText(t) {
            title, haveTitle := Toml.Trim(t), true;
          }
        case _ => skipped := skipped + 1;
      }
    }

    /** The title snapshot closes the log. */
    method Finish()
      requires Valid()
      modifies this
      ensures Valid() && CountKind(envelopes, ToolResult) == CountKind(old(envelopes), ToolResult)
      ensures envelopes == old(envelopes) +
                           if HasText(old(title)) then
                             [Stamped(old(seqNo), OtherKnown("session/title"), OtherData(Toml.Trim(old(title))))]
                           else []
    {
      if HasText(title) {
        Add(OtherKnown("session/title"), OtherData(Toml.Trim(title)));
      }
    }
  }

  /** What one line becomes. */
  function LineEvents(line: SourceLine, start: nat, turn: nat, step: nat): seq<Envelope> {
    match line
    case UserLine(hidden, Some(blocks)) => if hidden then [] else UserEvents(start, TurnFrom(turn), step, blocks)
    case AssistantLine(Some(blocks)) =>
      AssistantEvents(start, TurnFrom(turn), step + (if Spoken(blocks) == [] then 0 else 1), blocks)
    case _ => []
  }

  function LineResults(line: SourceLine): nat {
    if line.UserLine? && !line.hidden && line.blocks.Some? then |Results(line.blocks.value)| else 0
  }

  function AllResults(lines: seq<SourceLine>): nat {
    if lines == [] then 0 else AllResults(lines[..|lines| - 1]) + LineResults(lines[|lines| - 1])
  }

  /** Converts a transcript. The log is contiguous and folds, and its surface is one the compaction accepts
      exactly when no visible user line carried a tool result. */
  method ConvertClaude(lines: seq<SourceLine>) returns (log: seq<Envelope>)
    ensures ImportedLog(log) && Fold(log, 0).Some?
    ensures Clean(Deltas(log), Fold(log, 0).value.nodes) <==> AllResults(lines) == 0
  {
    hide Fold, Deltas, Clean;
    var c := new ClaudeConverter();
    for i := 0 to |lines|
      invariant c.Valid() && CountKind(c.envelopes, ToolResult) == AllResults(lines[..i])
    {
      assert lines[..i + 1][..i] == lines[..i];
      c.ConvertLine(lines[i]);
    }
    assert lines[..|lines|] == lines;
    c.Finish();
    log := c.envelopes;
    ImportedPairedIff(log);
  }

  lemma NoCallsNone()
    ensures CountCalls([]) == 0
  {
  }

  lemma NoCallsSnoc(content: seq<ContentBlock>, b: ContentBlock)
    requires CountCalls(content) == 0 && !b.ToolCallBlock?
    ensures CountCalls(content + [b]) == 0
  {
    assert (content + [b])[..|content|] == content;
  }
}
