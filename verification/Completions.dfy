/** Translating interleaved completion deltas into stream chunks
    (backend/pkg/llm/openai_completions.go), and the agreement between what the adapter accumulates
    and what the assembler rebuilds from its chunks. */
module Completions {
  import opened Wrappers
  import opened BlockAssembly

  datatype ToolFragment = ToolFragment(index: int, id: string, name: string, arguments: string)

  /** One choice of a wire chunk; an empty string is an absent field. */
  datatype Delta = Delta(reasoning: string, content: string, tools: seq<ToolFragment>, finish: Option<string>)

  /** The piece of one block that a delta carries. */
  datatype Fragment = Fragment(key: Key, text: string, id: string, name: string)

  // ---------------------------------------------------------------- what a stream means

  function ToolFragments(tools: seq<ToolFragment>): seq<Fragment> {
    if tools == [] then []
    else
      var t := tools[|tools| - 1];
      ToolFragments(tools[..|tools| - 1]) + [Fragment(ToolKey(t.index), t.arguments, t.id, t.name)]
  }

  function FragmentsOf(d: Delta): seq<Fragment> {
    (if d.reasoning == "" then [] else [Fragment(ReasoningKey, d.reasoning, "", "")]) +
    (if d.content == "" then [] else [Fragment(TextKey, d.content, "", "")]) +
    ToolFragments(d.tools)
  }

  /** The keys of a stream in first-seen order. */
  function Seen(frs: seq<Fragment>): seq<Key> {
    if frs == [] then []
    else
      var before, key := Seen(frs[..|frs| - 1]), frs[|frs| - 1].key;
      if key in before then before else before + [key]
  }

  function KindOf(key: Key): BlockKind {
    match key
    case TextKey => TextKind
    case ReasoningKey => ReasoningKind
    case _ => ToolCallKind
  }

  function Extended(b: Block, f: Fragment): Block {
    if f.key.TextKey? || f.key.ReasoningKey? then AppendText(b, f.text) else AddCall(b, f.id, f.name, f.text)
  }

  /** The block a key stands for after a run of fragments. */
  function Built(frs: seq<Fragment>, key: Key): Block {
    if frs == [] then EMPTY_BLOCK.(kind := KindOf(key))
    else
      var before, f := Built(frs[..|frs| - 1], key), frs[|frs| - 1];
      if f.key == key then Extended(before, f) else before
  }

  function Concat(frs: seq<Fragment>, key: Key): string {
    if frs == [] then ""
    else (if frs[0].key == key then frs[0].text else "") + Concat(frs[1..], key)
  }

  function FirstId(frs: seq<Fragment>, key: Key): string {
    if frs == [] then ""
    else if frs[0].key == key && frs[0].id != "" then frs[0].id
    else FirstId(frs[1..], key)
  }

  function FirstName(frs: seq<Fragment>, key: Key): string {
    if frs == [] then ""
    else if frs[0].key == key && frs[0].name != "" then frs[0].name
    else FirstName(frs[1..], key)
  }

  lemma {:induction false} FirstSnoc(frs: seq<Fragment>, f: Fragment, key: Key)
    ensures Concat(frs + [f], key) == Concat(frs, key) + if f.key == key then f.text else ""
    ensures FirstId(frs + [f], key) == if FirstId(frs, key) == "" && f.key == key then f.id else FirstId(frs, key)
    ensures FirstName(frs + [f], key) == if FirstName(frs, key) == "" && f.key == key then f.name else FirstName(frs, key)
    decreases |frs|
  {
    if frs != [] {
      FirstSnoc(frs[1..], f, key);
      assert (frs + [f])[1..] == frs[1..] + [f];
    }
  }

  /** A block is the concatenation of its key's fragments, with the first non-empty id and name. */
  lemma {:induction false} BuiltMeaning(frs: seq<Fragment>, key: Key)
    ensures Built(frs, key) ==
            if key.TextKey? || key.ReasoningKey? then Block(KindOf(key), Concat(frs, key), "", "", "")
            else Block(ToolCallKind, "", FirstId(frs, key), FirstName(frs, key), Concat(frs, key))
    decreases |frs|
  {
    if frs != [] {
      var n := |frs| - 1;
      BuiltMeaning(frs[..n], key);
      assert frs == frs[..n] + [frs[n]];
      FirstSnoc(frs[..n], frs[n], key);
    }
  }

  // ---------------------------------------------------------------- the chunks of a stream

  function DeltaChunk(f: Fragment, b: Block): Chunk {
    match f.key
    case TextKey => TextDelta(Some(TextKey), f.text)
    case ReasoningKey => ReasoningDelta(Some(ReasoningKey), f.text)
    case _ => ToolCallDelta(Some(f.key), b.id, b.name, f.text)
  }

  function StartChunks(frs: seq<Fragment>, f: Fragment): seq<Chunk> {
    if f.key in Seen(frs) then [] else [BlockStart(Some(f.key), KindOf(f.key), "", "")]
  }

  /** The chunks emitted for a run of fragments. */
  function Emitted(frs: seq<Fragment>): seq<Chunk> {
    if frs == [] then []
    else
      var n := |frs| - 1;
      Emitted(frs[..n]) + StartChunks(frs[..n], frs[n]) + [DeltaChunk(frs[n], Built(frs, frs[n].key))]
  }

  /** The deferred block ends of the first `n` keys, each carrying its finished block. */
  function Ends(frs: seq<Fragment>, n: nat): seq<Chunk>
    requires n <= |Seen(frs)|
  {
    if n == 0 then [] else Ends(frs, n - 1) + [BlockEnd(Some(Seen(frs)[n - 1]), Some(Built(frs, Seen(frs)[n - 1])))]
  }

  function Blocks(frs: seq<Fragment>, n: nat): seq<Block>
    requires n <= |Seen(frs)|
  {
    if n == 0 then [] else Blocks(frs, n - 1) + [Built(frs, Seen(frs)[n - 1])]
  }

  function MapFinishReason(r: string): string {
    if r == "stop" then "stop"
    else if r == "tool_calls" then "tool-calls"
    else if r == "length" then "max-tokens"
    else "error"
  }

  function ReasonOf(frs: seq<Fragment>, finish: Option<string>): string {
    var reason := if finish.None? then "stop" else MapFinishReason(finish.value);
    if reason == "stop" && Seen(frs) == [] then "error" else reason
  }

  function Closing(frs: seq<Fragment>, usage: Option<int>, finish: Option<string>): seq<Chunk> {
    Ends(frs, |Seen(frs)|) + (if usage.Some? then [Usage(usage)] else []) + [Finish(ReasonOf(frs, finish))]
  }

  // ---------------------------------------------------------------- the assembler on those chunks

  function IngestAll(a: Assembly, chunks: seq<Chunk>): (r: Assembly)
    requires WellFormed(a)
    ensures WellFormed(r)
  {
    if chunks == [] then a
    else
      var n := |chunks| - 1;
      var before := IngestAll(a, chunks[..n]);
      IngestWellFormed(before, chunks[n]);
      Ingest(before, chunks[n])
  }

  lemma IngestSnoc(a: Assembly, chunks: seq<Chunk>, c: Chunk)
    requires WellFormed(a)
    ensures IngestAll(a, chunks + [c]) == Ingest(IngestAll(a, chunks), c)
  {
    hide Ingest, WellFormed;
    assert (chunks + [c])[..|chunks|] == chunks;
  }

  lemma {:induction false} SeenFacts(frs: seq<Fragment>)
    ensures forall i, j :: 0 <= i < j < |Seen(frs)| ==> Seen(frs)[i] != Seen(frs)[j]
    ensures forall k :: k in Seen(frs) <==> exists i :: 0 <= i < |frs| && frs[i].key == k
    decreases |frs|
  {
    if frs != [] {
      var n := |frs| - 1;
      SeenFacts(frs[..n]);
      forall k ensures k in Seen(frs) <==> exists i :: 0 <= i < |frs| && frs[i].key == k {
        if k in Seen(frs[..n]) {
          var i :| 0 <= i < n && frs[..n][i].key == k;
          assert frs[i].key == k;
        }
        if i :| 0 <= i < |frs| && frs[i].key == k {
          if i < n {
            assert frs[..n][i].key == k;
          }
        }
      }
    }
  }

  /** Every key already seen is open, with the block built so far. */
  function Tracking(frs: seq<Fragment>): Assembly {
    EMPTY.(openOrder := Seen(frs), active := map k | k in Seen(frs) :: Built(frs, k))
  }

  lemma BuiltFresh(frs: seq<Fragment>, key: Key)
    requires key !in Seen(frs)
    ensures Built(frs, key) == EMPTY_BLOCK.(kind := KindOf(key))
    decreases |frs|
  {
    if frs != [] {
      BuiltFresh(frs[..|frs| - 1], key);
    }
  }

  /** The block start of a key not seen before. */
  lemma StartStep(before: seq<Fragment>, f: Fragment)
    requires WellFormed(Tracking(before)) && f.key !in Seen(before)
    ensures var b := Ingest(Tracking(before), BlockStart(Some(f.key), KindOf(f.key), "", ""));
            && b.openOrder == Seen(before + [f])
            && (forall k :: k in b.active <==> k in b.openOrder)
            && (forall k :: k in b.active ==> b.active[k] == Built(before, k))
            && b == EMPTY.(openOrder := b.openOrder, active := b.active)
  {
    assert (before + [f])[..|before|] == before;
    BuiltFresh(before, f.key);
    hide Built, Seen;
  }

  /** Both accumulations coincide chunk by chunk. */
  lemma {:induction false} AssemblerTracks(frs: seq<Fragment>)
    requires forall i :: 0 <= i < |frs| ==> !frs[i].key.OtherKey?
    ensures IngestAll(EMPTY, Emitted(frs)) == Tracking(frs)
    decreases |frs|
  {
    hide Ingest, WellFormed, Built, Seen;
    assert WellFormed(EMPTY) by {
      EmptyWellFormed();
    }
    if frs == [] {
      TrackingEmpty();
    } else {
      var n := |frs| - 1;
      var f, before := frs[n], frs[..n];
      assert frs == before + [f];
      AssemblerTracks(before);
      TrackingWellFormed(before);
      var chunks, start := Emitted(before), StartChunks(before, f);
      var b := if f.key in Seen(before) then Tracking(before)
               else Ingest(Tracking(before), BlockStart(Some(f.key), KindOf(f.key), "", ""));
      if f.key in Seen(before) {
        assert chunks + start == chunks;
        Grow(before, f);
      } else {
        IngestSnoc(EMPTY, chunks, start[0]);
        StartStep(before, f);
      }
      IngestSnoc(EMPTY, chunks + start, DeltaChunk(f, Built(frs, f.key)));
      DeltaStep(before, f, b);
    }
  }

  lemma TrackingEmpty()
    ensures Tracking([]) == EMPTY
  {
    assert Tracking([]).active == map[];
  }

  lemma DeltaStep(before: seq<Fragment>, f: Fragment, b: Assembly)
    requires !f.key.OtherKey? && WellFormed(b)
    requires b.openOrder == Seen(before + [f]) && b.legacy.None? && b.blocks == [] && b.usage.None? && b.finishReason == ""
    requires forall k :: k in b.active <==> k in b.openOrder
    requires forall k :: k in b.active ==> b.active[k] == Built(before, k)
    ensures Ingest(b, DeltaChunk(f, Built(before + [f], f.key))) == Tracking(before + [f])
  {
    var frs := before + [f];
    assert frs[..|frs| - 1] == before;
    assert f.key in Seen(frs);
    var r := Ingest(b, DeltaChunk(f, Built(frs, f.key)));
    assert r.active.Keys == Tracking(frs).active.Keys;
    forall k | k in r.active ensures r.active[k] == Built(frs, k) {
    }
    assert r.active == Tracking(frs).active;
  }

  /** The assembly after the first `n` deferred block ends. */
  function Closed(frs: seq<Fragment>, n: nat): Assembly
    requires n <= |Seen(frs)|
  {
    EMPTY.(openOrder := Seen(frs)[n..], active := map k | k in Seen(frs)[n..] :: Built(frs, k), blocks := Blocks(frs, n))
  }

  lemma ClosedWellFormed(frs: seq<Fragment>, n: nat)
    requires n <= |Seen(frs)|
    ensures WellFormed(Closed(frs, n))
  {
    SeenFacts(frs);
  }

  /** Each block end commits the first open block, so the blocks come out in first-seen order. */
  lemma {:induction false} EndsCommitInOrder(frs: seq<Fragment>, n: nat)
    requires n <= |Seen(frs)| && WellFormed(Tracking(frs))
    ensures IngestAll(Tracking(frs), Ends(frs, n)) == Closed(frs, n)
    decreases n
  {
    hide WellFormed, Ingest, Built;
    var seen := Seen(frs);
    if n == 0 {
      assert seen[0..] == seen;
    } else {
      EndsCommitInOrder(frs, n - 1);
      IngestSnoc(Tracking(frs), Ends(frs, n - 1), BlockEnd(Some(seen[n - 1]), Some(Built(frs, seen[n - 1]))));
      ClosedWellFormed(frs, n - 1);
      EndStep(frs, n);
    }
  }

  /** A block end for the first open key commits it. */
  lemma CommitHead(a: Assembly, block: Block)
    requires WellFormed(a) && a.openOrder != []
    ensures a.openOrder[0] in a.active
    ensures Ingest(a, BlockEnd(Some(a.openOrder[0]), Some(block))) ==
            a.(openOrder := a.openOrder[1..], active := a.active - {a.openOrder[0]},
               blocks := a.blocks + [a.active[a.openOrder[0]]])
  {
    hide WellFormed, Without, AddText, AddToolCall, FlushOpen;
    OpenIsActive(a, 0);
    WithoutHead(a.openOrder);
  }

  lemma EndStep(frs: seq<Fragment>, n: nat)
    requires 0 < n <= |Seen(frs)| && WellFormed(Closed(frs, n - 1))
    ensures Ingest(Closed(frs, n - 1), BlockEnd(Some(Seen(frs)[n - 1]), Some(Built(frs, Seen(frs)[n - 1])))) == Closed(frs, n)
  {
    hide Built, Seen, Ingest, WellFormed, Closed, Blocks;
    var rest := Seen(frs)[n - 1..];
    ClosedShape(frs, n - 1);
    ClosedShape(frs, n);
    CommitHead(Closed(frs, n - 1), Built(frs, rest[0]));
    RestShrinks(frs, n, rest);
  }

  lemma ClosedShape(frs: seq<Fragment>, n: nat)
    requires n <= |Seen(frs)|
    ensures var a := Closed(frs, n);
            && a.openOrder == Seen(frs)[n..] && a.legacy.None? && a.usage.None? && a.finishReason == ""
            && a.blocks == Blocks(frs, n)
            && (n > 0 ==> a.blocks == Blocks(frs, n - 1) + [Built(frs, Seen(frs)[n - 1])])
  {
    hide Built, Seen;
  }

  lemma RestShrinks(frs: seq<Fragment>, n: nat, rest: seq<Key>)
    requires 0 < n <= |Seen(frs)| && rest == Seen(frs)[n - 1..]
    ensures rest[0] == Seen(frs)[n - 1] && rest[1..] == Seen(frs)[n..]
    ensures Closed(frs, n - 1).active - {rest[0]} == Closed(frs, n).active
    ensures rest[0] in Closed(frs, n - 1).active
    ensures Closed(frs, n - 1).active[rest[0]] == Built(frs, rest[0])
  {
    SeenFacts(frs);
    hide Built, Seen;
    assert rest[0] == Seen(frs)[n - 1] && rest[1..] == Seen(frs)[n..];
    TailMembers(rest);
  }

  lemma TailMembers(s: seq<Key>)
    requires s != []
    requires forall i, j :: 0 <= i < j < |s| ==> s[i] != s[j]
    ensures forall k :: k in s[1..] <==> k in s && k != s[0]
  {
    assert s == [s[0]] + s[1..];
  }

  lemma {:induction false} IngestConcat(a: Assembly, x: seq<Chunk>, y: seq<Chunk>)
    requires WellFormed(a)
    ensures IngestAll(a, x + y) == IngestAll(IngestAll(a, x), y)
    decreases |y|
  {
    hide WellFormed, Ingest;
    if y == [] {
      assert x + y == x;
    } else {
      var n := |y| - 1;
      assert x + y == (x + y[..n]) + [y[n]];
      IngestConcat(a, x, y[..n]);
      IngestSnoc(a, x + y[..n], y[n]);
    }
  }

  lemma TrackingWellFormed(frs: seq<Fragment>)
    ensures WellFormed(Tracking(frs))
  {
    SeenFacts(frs);
  }

  /** For every stream of deltas ended by the terminator, what the assembler holds at the end is what
      the adapter carries on its block ends: one block per key, in first-seen order, nothing open. */
  lemma StreamsAgree(frs: seq<Fragment>, usage: Option<int>, finish: Option<string>)
    requires forall i :: 0 <= i < |frs| ==> !frs[i].key.OtherKey?
    ensures WellFormed(EMPTY)
    ensures IngestAll(EMPTY, Emitted(frs) + Closing(frs, usage, finish)) ==
            Assembly([], map[], None, Blocks(frs, |Seen(frs)|), usage, ReasonOf(frs, finish))
  {
    hide WellFormed, Ingest, Built, Emitted, Seen;
    assert WellFormed(EMPTY) by {
      EmptyWellFormed();
    }
    var n := |Seen(frs)|;
    AssemblerTracks(frs);
    TrackingWellFormed(frs);
    EndsCommitInOrder(frs, n);
    ClosedWellFormed(frs, n);
    var tail := (if usage.Some? then [Usage(usage)] else []) + [Finish(ReasonOf(frs, finish))];
    assert Closing(frs, usage, finish) == Ends(frs, n) + tail;
    IngestConcat(EMPTY, Emitted(frs), Closing(frs, usage, finish));
    IngestConcat(Tracking(frs), Ends(frs, n), tail);
    FinishStep(Closed(frs, n), usage, ReasonOf(frs, finish));
  }

  lemma EmptyWellFormed()
    ensures WellFormed(EMPTY)
  {
  }

  lemma NothingActive(a: Assembly)
    requires WellFormed(a) && a.openOrder == []
    ensures a.active == map[]
  {
    assert a.active.Keys == {};
  }

  lemma IngestUsage(a: Assembly, usage: Option<int>)
    requires WellFormed(a) && a.usage.None?
    ensures Ingest(a, Usage(usage)) == a.(usage := usage) && WellFormed(a.(usage := usage))
  {
    hide AddText, AddToolCall, FlushOpen, Commit;
  }

  lemma IngestFinish(a: Assembly, reason: string)
    requires WellFormed(a) && a.openOrder == [] && a.legacy.None?
    ensures Ingest(a, Finish(reason)) == a.(finishReason := reason)
  {
    hide AddText, AddToolCall, Commit;
  }

  lemma FinishStep(a: Assembly, usage: Option<int>, reason: string)
    requires WellFormed(a) && a.openOrder == [] && a.legacy.None? && a.usage.None?
    ensures IngestAll(a, (if usage.Some? then [Usage(usage)] else []) + [Finish(reason)]) ==
            Assembly([], map[], None, a.blocks, usage, reason)
  {
    NothingActive(a);
    var first := if usage.Some? then [Usage(usage)] else [];
    var b := a.(usage := usage);
    IngestUsage(a, usage);
    IngestFinish(b, reason);
    hide WellFormed, Ingest;
    if usage.Some? {
      assert [] + [Usage(usage)] == first;
      IngestSnoc(a, [], Usage(usage));
    }
    assert IngestAll(a, first) == b;
    IngestSnoc(a, first, Finish(reason));
  }

  lemma {:induction false} BlocksAt(frs: seq<Fragment>, n: nat, i: nat)
    requires i < n <= |Seen(frs)|
    ensures |Blocks(frs, n)| == n && Blocks(frs, n)[i] == Built(frs, Seen(frs)[i])
    decreases n
  {
    BlocksLength(frs, n);
    BlocksLength(frs, n - 1);
    if i < n - 1 {
      BlocksAt(frs, n - 1, i);
    }
  }

  lemma {:induction false} BlocksLength(frs: seq<Fragment>, n: nat)
    requires n <= |Seen(frs)|
    ensures |Blocks(frs, n)| == n
    decreases n
  {
    if n > 0 {
      BlocksLength(frs, n - 1);
    }
  }

  // ---------------------------------------------------------------- the adapter

  datatype OpenTool = OpenTool(callId: string, name: string, args: string)

  /** The stateful delta handler of one completions stream. */
  class CompletionsStream {
    var textOpen: bool
    var reasoningOpen: bool
    var textBuf: string
    var reasoningBuf: string
    var openTools: map<int, OpenTool>
    var order: seq<Key>
    var pendingUsage: Option<int>
    var pendingFinish: Option<string>
    var finished: bool
    var chunks: seq<Chunk>
    /** Every fragment taken in so far. */
    ghost var frs: seq<Fragment>

    ghost predicate Tracks()
      reads this`textOpen, this`reasoningOpen, this`textBuf, this`reasoningBuf, this`openTools, this`order, this`frs
    {
      && order == Seen(frs)
      && (textOpen <==> TextKey in order)
      && (reasoningOpen <==> ReasoningKey in order)
      && textBuf == Built(frs, TextKey).text
      && reasoningBuf == Built(frs, ReasoningKey).text
      && (forall n :: n in openTools <==> ToolKey(n) in order)
      && (forall n :: n in openTools ==> openTools[n] == ToolOf(Built(frs, ToolKey(n))))
      && (forall i :: 0 <= i < |frs| ==> !frs[i].key.OtherKey?)
    }

    ghost predicate Valid()
      reads this
    {
      Tracks() && (!finished ==> chunks == Emitted(frs))
    }

    constructor ()
      ensures Valid() && frs == [] && !finished && pendingUsage.None? && pendingFinish.None?
    {
      textOpen, reasoningOpen, textBuf, reasoningBuf := false, false, "", "";
      openTools, order, pendingUsage, pendingFinish, finished, chunks, frs := map[], [], None, None, false, [], [];
    }

    method OnReasoning(text: string)
      requires Valid() && !finished
      modifies this
      ensures Valid() && !finished && frs == old(frs) + [Fragment(ReasoningKey, text, "", "")]
      ensures pendingUsage == old(pendingUsage) && pendingFinish == old(pendingFinish)
    {
      hide Built, Seen, Emitted;
      ghost var f := Fragment(ReasoningKey, text, "", "");
      Grow(frs, f);
      frs := frs + [f];
      if !reasoningOpen {
        reasoningOpen := true;
        order := order + [ReasoningKey];
        chunks := chunks + [BlockStart(Some(ReasoningKey), ReasoningKind, "", "")];
      }
      reasoningBuf := reasoningBuf + text;
      chunks := chunks + [ReasoningDelta(Some(ReasoningKey), text)];
    }

    method OnContent(text: string)
      requires Valid() && !finished
      modifies this
      ensures Valid() && !finished && frs == old(frs) + [Fragment(TextKey, text, "", "")]
      ensures pendingUsage == old(pendingUsage) && pendingFinish == old(pendingFinish)
    {
      hide Built, Seen, Emitted;
      ghost var f := Fragment(TextKey, text, "", "");
      Grow(frs, f);
      frs := frs + [f];
      if !textOpen {
        textOpen := true;
        order := order + [TextKey];
        chunks := chunks + [BlockStart(Some(TextKey), TextKind, "", "")];
      }
      textBuf := textBuf + text;
      chunks := chunks + [TextDelta(Some(TextKey), text)];
    }

    method OnToolCall(tc: ToolFragment)
      requires Valid() && !finished
      modifies this
      ensures Valid() && !finished && frs == old(frs) + [Fragment(ToolKey(tc.index), tc.arguments, tc.id, tc.name)]
      ensures pendingUsage == old(pendingUsage) && pendingFinish == old(pendingFinish)
    {
      hide Built, Seen, Emitted;
      ghost var f := Fragment(ToolKey(tc.index), tc.arguments, tc.id, tc.name);
      Grow(frs, f);
      ghost var known := f.key in order;
      if !known {
        BuiltFresh(frs, f.key);
      }
      frs := frs + [f];
      var t: OpenTool;
      if tc.index !in openTools {
        t := OpenTool(tc.id, tc.name, "");
        order := order + [ToolKey(tc.index)];
        chunks := chunks + [BlockStart(Some(ToolKey(tc.index)), ToolCallKind, "", "")];
      } else {
        t := openTools[tc.index];
        if tc.id != "" && t.callId == "" {
          t := t.(callId := tc.id);
        }
        if tc.name != "" && t.name == "" {
          t := t.(name := tc.name);
        }
      }
      t := t.(args := t.args + tc.arguments);
      openTools := openTools[tc.index := t];
      chunks := chunks + [ToolCallDelta(Some(ToolKey(tc.index)), t.callId, t.name, tc.arguments)];
    }

    /** One choice of a wire chunk: reasoning before text before tool calls. */
    method OnDelta(d: Delta)
      requires Valid() && !finished
      modifies this
      ensures Valid() && !finished
      ensures frs == old(frs) + FragmentsOf(d)
      ensures pendingFinish == if d.finish.Some? then d.finish else old(pendingFinish)
      ensures pendingUsage == old(pendingUsage)
    {
      hide Built, Seen, Emitted, Tracks, ToolFragments;
      if d.reasoning != "" {
        OnReasoning(d.reasoning);
      }
      if d.content != "" {
        OnContent(d.content);
      }
      ghost var mid := frs;
      ToolsNone();
      for i := 0 to |d.tools|
        invariant Valid() && !finished
        invariant frs == mid + ToolFragments(d.tools[..i])
        invariant pendingUsage == old(pendingUsage) && pendingFinish == old(pendingFinish)
      {
        ToolsNext(d.tools, i);
        OnToolCall(d.tools[i]);
      }
      assert d.tools[..|d.tools|] == d.tools;
      if d.finish.Some? {
        pendingFinish := d.finish;
      }
    }

    method OnUsage(usage: int)
      requires Valid() && !finished
      modifies this`pendingUsage
      ensures Valid() && pendingUsage == Some(usage)
    {
      pendingUsage := Some(usage);
    }

    /** The block an end chunk carries. */
    function CarriedBlock(key: Key): Option<Block>
      reads this`textBuf, this`reasoningBuf, this`openTools
    {
      match key
      case TextKey => Some(Block(TextKind, textBuf, "", "", ""))
      case ReasoningKey => Some(Block(ReasoningKind, reasoningBuf, "", "", ""))
      case ToolKey(n) =>
        if n in openTools then Some(Block(ToolCallKind, "", openTools[n].callId, openTools[n].name, openTools[n].args)) else None
      case OtherKey(_) => None
    }

    /** The deferred finish at the terminator; a second call emits nothing. */
    method FinishStream()
      requires Valid()
      modifies this`finished, this`chunks
      ensures Valid() && finished
      ensures old(finished) ==> chunks == old(chunks)
      ensures !old(finished) ==> chunks == Emitted(frs) + Closing(frs, pendingUsage, pendingFinish)
      ensures !old(finished) ==>
                && chunks != [] && chunks[|chunks| - 1].Finish?
                && var reason := chunks[|chunks| - 1].reason;
                && (reason == "stop" <==> (pendingFinish == None || pendingFinish == Some("stop")) && order != [])
                && (reason == "tool-calls" <==> pendingFinish == Some("tool_calls"))
                && (reason == "max-tokens" <==> pendingFinish == Some("length"))
                && (reason in ["stop", "tool-calls", "max-tokens", "error"])
    {
      hide Built, Seen, Emitted, Ends, Tracks, CarriedBlock;
      if finished {
        return;
      }
      finished := true;
      ghost var before := chunks;
      EndsStart(frs);
      OrderIsSeen();
      for i := 0 to |order|
        invariant finished && Tracks() && chunks == before + Ends(frs, i)
      {
        CarriedIsBuilt(order[i]);
        EndsNext(frs, i);
        chunks := chunks + [BlockEnd(Some(order[i]), CarriedBlock(order[i]))];
      }
      if pendingUsage.Some? {
        chunks := chunks + [Usage(pendingUsage)];
      }
      var reason := "stop";
      if pendingFinish.Some? {
        reason := MapFinishReason(pendingFinish.value);
      }
      if reason == "stop" && |order| == 0 {
        reason := "error";
      }
      chunks := chunks + [Finish(reason)];
      assert chunks == before + Closing(frs, pendingUsage, pendingFinish);
    }

    lemma OrderIsSeen()
      requires Tracks()
      ensures order == Seen(frs)
    {
    }

    lemma CarriedIsBuilt(key: Key)
      requires Tracks() && key in order
      ensures CarriedBlock(key) == Some(Built(frs, key))
    {
      hide Built, Seen;
      BuiltMeaning(frs, key);
      SeenFacts(frs);
    }
  }

  lemma ToolsNone()
    ensures ToolFragments([]) == []
  {
  }

  lemma ToolsNext(tools: seq<ToolFragment>, i: nat)
    requires i < |tools|
    ensures var t := tools[i];
            ToolFragments(tools[..i + 1]) == ToolFragments(tools[..i]) + [Fragment(ToolKey(t.index), t.arguments, t.id, t.name)]
  {
    assert tools[..i + 1][..i] == tools[..i];
  }

  lemma EndsStart(frs: seq<Fragment>)
    ensures Ends(frs, 0) == []
  {
  }

  lemma EndsNext(frs: seq<Fragment>, i: nat)
    requires i < |Seen(frs)|
    ensures Ends(frs, i + 1) == Ends(frs, i) + [BlockEnd(Some(Seen(frs)[i]), Some(Built(frs, Seen(frs)[i])))]
  {
  }

  function ToolOf(b: Block): OpenTool {
    OpenTool(b.id, b.name, b.arguments)
  }

  /** What one more fragment does to keys, blocks and chunks. */
  lemma Grow(frs: seq<Fragment>, f: Fragment)
    ensures Seen(frs + [f]) == if f.key in Seen(frs) then Seen(frs) else Seen(frs) + [f.key]
    ensures forall k :: Built(frs + [f], k) == if f.key == k then Extended(Built(frs, k), f) else Built(frs, k)
    ensures Emitted(frs + [f]) == Emitted(frs) + StartChunks(frs, f) + [DeltaChunk(f, Built(frs + [f], f.key))]
  {
    assert (frs + [f])[..|frs|] == frs;
  }
}
