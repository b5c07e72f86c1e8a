/** Folding stream chunks into content blocks (backend/pkg/llm/stream.go). */
module BlockAssembly {
  import opened Wrappers

  /** Block ids: the three families the completions adapter uses, and any other. An id-less chunk
      carries `None`. */
  datatype Key = TextKey | ReasoningKey | ToolKey(index: int) | OtherKey(id: string)

  datatype BlockKind = Untyped | TextKind | ReasoningKind | ToolCallKind | OtherKind(name: string)

  datatype Block = Block(kind: BlockKind, text: string, id: string, name: string, arguments: string)

  datatype Chunk =
    | BlockStart(key: Option<Key>, kind: BlockKind, id: string, name: string)
    | TextDelta(key: Option<Key>, text: string)
    | ReasoningDelta(key: Option<Key>, text: string)
    | ToolCallDelta(key: Option<Key>, id: string, name: string, arguments: string)
    | BlockEnd(key: Option<Key>, block: Option<Block>)
    | Usage(usage: Option<int>)
    | Finish(reason: string)

  const EMPTY_BLOCK := Block(Untyped, "", "", "", "")

  // ---------------------------------------------------------------- specification

  /** The assembler's state as a value. */
  datatype Assembly = Assembly(
    openOrder: seq<Key>, active: map<Key, Block>, legacy: Option<Block>, blocks: seq<Block>,
    usage: Option<int>, finishReason: string)

  const EMPTY := Assembly([], map[], None, [], None, "")

  /** The sequence without the first occurrence of `x`. */
  function Without(s: seq<Key>, x: Key): seq<Key> {
    var i := IndexOf(s, x);
    if i == |s| then s else s[..i] + s[i + 1..]
  }

  /** Open keys are distinct and are exactly the active ones. */
  ghost predicate WellFormed(a: Assembly) {
    && (forall i, j :: 0 <= i < j < |a.openOrder| ==> a.openOrder[i] != a.openOrder[j])
    && (forall i :: 0 <= i < |a.openOrder| ==> a.openOrder[i] in a.active.Keys)
    && (forall k <- a.active.Keys :: k in a.openOrder)
  }

  function Open(a: Assembly, key: Key, b: Block): Assembly {
    a.(openOrder := a.openOrder + [key], active := a.active[key := b])
  }

  function Commit(a: Assembly, key: Key): Assembly {
    if key !in a.active then a
    else a.(openOrder := Without(a.openOrder, key), active := a.active - {key}, blocks := a.blocks + [a.active[key]])
  }

  function CommitLegacy(a: Assembly): Assembly {
    if a.legacy.None? then a else a.(legacy := None, blocks := a.blocks + [a.legacy.value])
  }

  function AppendText(b: Block, text: string): Block {
    b.(text := b.text + text)
  }

  function AddCall(b: Block, id: string, name: string, arguments: string): Block {
    b.(id := if id != "" && b.id == "" then id else b.id,
       name := if name != "" && b.name == "" then name else b.name,
       arguments := b.arguments + arguments)
  }

  /** The open block a chunk without a block of its own goes to: the most recent one. */
  function Target(a: Assembly, key: Option<Key>): Option<Key> {
    match key
    case Some(k) => if k in a.active then Some(k) else None
    case None => if a.openOrder == [] then None else Some(a.openOrder[|a.openOrder| - 1])
  }

  function AddText(a: Assembly, key: Option<Key>, kind: BlockKind, text: string): Assembly
    requires WellFormed(a)
  {
    var target := Target(a, key);
    if target.Some? then a.(active := a.active[target.value := AppendText(a.active[target.value], text)])
    else if key.Some? then Open(a, key.value, EMPTY_BLOCK.(kind := kind, text := text))
    else if a.legacy.Some? then a.(legacy := Some(AppendText(a.legacy.value, text)))
    else a.(legacy := Some(EMPTY_BLOCK.(kind := kind, text := text)))
  }

  function AddToolCall(a: Assembly, key: Option<Key>, id: string, name: string, arguments: string): Assembly
    requires WellFormed(a)
  {
    var target := Target(a, key);
    var empty := EMPTY_BLOCK.(kind := ToolCallKind);
    if target.Some? then
      a.(active := a.active[target.value := AddCall(a.active[target.value], id, name, arguments)])
    else if key.Some? then Open(a, key.value, AddCall(empty, id, name, arguments))
    else
      var legacy := if a.legacy.Some? then a.legacy.value else empty;
      a.(legacy := Some(AddCall(legacy, id, name, arguments)))
  }

  /** The finish flush ranges over the slice it commits from: `backing` is the shared array, whose
      head is the order still open and whose tail is what earlier removals left behind. */
  function FlushOpen(a: Assembly, backing: seq<Key>, k: nat): Assembly
    requires k <= |backing|
    decreases |backing| - k
  {
    if k == |backing| then a
    else if backing[k] !in a.active then FlushOpen(a, backing, k + 1)
    else
      var b := Commit(a, backing[k]);
      if |b.openOrder| > |backing| then b
      else FlushOpen(b, b.openOrder + backing[|b.openOrder|..], k + 1)
  }

  function Ingest(a: Assembly, c: Chunk): Assembly
    requires WellFormed(a)
  {
    match c
    case BlockStart(Some(k), kind, id, name) =>
      if k in a.active then a else Open(a, k, Block(kind, "", id, name, ""))
    case BlockStart(None, kind, id, name) =>
      var b := if a.legacy.Some? then CommitLegacy(a)
               else if a.openOrder != [] then Commit(a, a.openOrder[|a.openOrder| - 1]) else a;
      b.(legacy := Some(Block(kind, "", id, name, "")))
    case TextDelta(key, text) => AddText(a, key, TextKind, text)
    case ReasoningDelta(key, text) => AddText(a, key, ReasoningKind, text)
    case ToolCallDelta(key, id, name, arguments) => AddToolCall(a, key, id, name, arguments)
    case BlockEnd(Some(k), block) =>
      if k !in a.active && block.Some? then a.(blocks := a.blocks + [block.value]) else Commit(a, k)
    case BlockEnd(None, Some(block)) => a.(blocks := a.blocks + [block])
    case BlockEnd(None, None) =>
      if a.openOrder != [] then Commit(a, a.openOrder[|a.openOrder| - 1]) else CommitLegacy(a)
    case Usage(usage) => if usage.Some? then a.(usage := usage) else a
    case Finish(reason) => CommitLegacy(FlushOpen(a.(finishReason := reason), a.openOrder, 0))
  }

  // ---------------------------------------------------------------- invariant

  lemma OpenWellFormed(a: Assembly, key: Key, b: Block)
    requires WellFormed(a) && key !in a.active
    ensures WellFormed(Open(a, key, b))
  {
    var o := Open(a, key, b);
    forall k <- o.active.Keys ensures k in o.openOrder {
      if k == key {
        assert o.openOrder[|a.openOrder|] == key;
      } else {
        var i :| 0 <= i < |a.openOrder| && a.openOrder[i] == k;
        assert o.openOrder[i] == k;
      }
    }
  }

  lemma WithoutFacts(s: seq<Key>, x: Key)
    requires forall i, j :: 0 <= i < j < |s| ==> s[i] != s[j]
    ensures x !in Without(s, x)
    ensures forall i, j :: 0 <= i < j < |Without(s, x)| ==> Without(s, x)[i] != Without(s, x)[j]
    ensures forall k :: k in s && k != x ==> k in Without(s, x)
    ensures forall k :: k in Without(s, x) ==> k in s
    ensures x in s ==> |Without(s, x)| == |s| - 1
    ensures x in s && x != s[0] ==> Without(s, x) != [] && Without(s, x)[0] == s[0]
  {
    var i := IndexOf(s, x);
    if i < |s| {
      SliceOut(s, i);
    }
  }

  /** Leaving out one position of a sequence without repetitions. */
  lemma SliceOut(s: seq<Key>, i: nat)
    requires Distinct(s) && i < |s|
    ensures var t := s[..i] + s[i + 1..];
            && |t| == |s| - 1 && Distinct(t) && s[i] !in t
            && (forall k :: k in s && k != s[i] ==> k in t) && (forall k :: k in t ==> k in s)
            && (i > 0 ==> t[0] == s[0])
  {
    var t := s[..i] + s[i + 1..];
    forall k | k in s && k != s[i] ensures k in t {
      var j :| 0 <= j < |s| && s[j] == k;
      assert t[if j < i then j else j - 1] == k;
    }
  }

  lemma WithoutHead(s: seq<Key>)
    requires s != []
    ensures Without(s, s[0]) == s[1..]
  {
    assert IndexOf(s, s[0]) == 0;
  }

  lemma CommitWellFormed(a: Assembly, key: Key)
    requires WellFormed(a)
    ensures WellFormed(Commit(a, key))
  {
    if key in a.active {
      WithoutFacts(a.openOrder, key);
    }
  }

  lemma {:induction false} FlushWellFormed(a: Assembly, backing: seq<Key>, k: nat)
    requires WellFormed(a) && k <= |backing|
    ensures WellFormed(FlushOpen(a, backing, k))
    decreases |backing| - k
  {
    if k < |backing| {
      if backing[k] !in a.active {
        FlushWellFormed(a, backing, k + 1);
      } else {
        var b := Commit(a, backing[k]);
        CommitWellFormed(a, backing[k]);
        if |b.openOrder| <= |backing| {
          FlushWellFormed(b, b.openOrder + backing[|b.openOrder|..], k + 1);
        }
      }
    }
  }

  /** Only the open keys matter. */
  lemma SameOpen(a: Assembly, b: Assembly)
    requires WellFormed(a) && b.openOrder == a.openOrder && b.active.Keys == a.active.Keys
    ensures WellFormed(b)
  {
  }

  /** Every chunk keeps the open keys distinct and exactly the active ones. */
  lemma IngestWellFormed(a: Assembly, c: Chunk)
    requires WellFormed(a)
    ensures WellFormed(Ingest(a, c))
  {
    hide WellFormed, AddText, AddToolCall, FlushOpen, Without;
    match c {
      case BlockStart(Some(k), kind, id, name) =>
        if k !in a.active {
          OpenWellFormed(a, k, Block(kind, "", id, name, ""));
        }
      case BlockStart(None, kind, id, name) =>
        var b := if a.legacy.Some? then CommitLegacy(a)
                 else if a.openOrder != [] then Commit(a, a.openOrder[|a.openOrder| - 1]) else a;
        if a.legacy.Some? {
          SameOpen(a, b);
        } else if a.openOrder != [] {
          CommitWellFormed(a, a.openOrder[|a.openOrder| - 1]);
        }
        SameOpen(b, b.(legacy := Some(Block(kind, "", id, name, ""))));
      case TextDelta(key, text) =>
        AddTextWellFormed(a, key, TextKind, text);
      case ReasoningDelta(key, text) =>
        AddTextWellFormed(a, key, ReasoningKind, text);
      case ToolCallDelta(key, id, name, arguments) =>
        AddCallWellFormed(a, key, id, name, arguments);
      case BlockEnd(Some(k), _) =>
        CommitWellFormed(a, k);
        if k !in a.active {
          SameOpen(a, Ingest(a, c));
        }
      case BlockEnd(None, block) =>
        if block.None? && a.openOrder != [] {
          CommitWellFormed(a, a.openOrder[|a.openOrder| - 1]);
        } else {
          SameOpen(a, Ingest(a, c));
        }
      case Usage(_) =>
        SameOpen(a, Ingest(a, c));
      case Finish(reason) =>
        var b := a.(finishReason := reason);
        SameOpen(a, b);
        FlushWellFormed(b, a.openOrder, 0);
        var d := FlushOpen(b, a.openOrder, 0);
        SameOpen(d, CommitLegacy(d));
    }
  }

  lemma AddCallWellFormed(a: Assembly, key: Option<Key>, id: string, name: string, arguments: string)
    requires WellFormed(a)
    ensures WellFormed(AddToolCall(a, key, id, name, arguments))
  {
    if Target(a, key).None? && key.Some? {
      OpenWellFormed(a, key.value, AddCall(EMPTY_BLOCK.(kind := ToolCallKind), id, name, arguments));
    }
  }

  lemma AddTextWellFormed(a: Assembly, key: Option<Key>, kind: BlockKind, text: string)
    requires WellFormed(a)
    ensures WellFormed(AddText(a, key, kind, text))
  {
    if Target(a, key).None? && key.Some? {
      OpenWellFormed(a, key.value, EMPTY_BLOCK.(kind := kind, text := text));
    }
  }

  // ---------------------------------------------------------------- the finish flush

  lemma CommitShape(a: Assembly, key: Key)
    requires WellFormed(a) && key in a.active
    ensures var b := Commit(a, key);
            && WellFormed(b)
            && |b.openOrder| == |a.openOrder| - 1
            && (a.openOrder[0] != key ==> b.openOrder != [] && b.openOrder[0] == a.openOrder[0])
            && (a.openOrder[0] == key ==> b.openOrder == a.openOrder[1..])
            && (forall p :: 1 <= p < |b.openOrder| ==> b.openOrder[p] != b.openOrder[0])
  {
    CommitWellFormed(a, key);
    WithoutFacts(a.openOrder, key);
    assert key in a.openOrder;
  }

  lemma {:induction false} FlushKeepsHead(a: Assembly, backing: seq<Key>, k: nat)
    requires WellFormed(a) && 1 <= k <= |backing| && a.openOrder != [] && |a.openOrder| <= |backing|
    requires forall p :: 1 <= p < |backing| ==> backing[p] != a.openOrder[0]
    ensures FlushOpen(a, backing, k).openOrder != []
    decreases |backing| - k
  {
    hide WellFormed, Commit;
    if k < |backing| {
      if backing[k] !in a.active {
        FlushKeepsHead(a, backing, k + 1);
      } else {
        var b := Commit(a, backing[k]);
        CommitShape(a, backing[k]);
        var backing' := b.openOrder + backing[|b.openOrder|..];
        assert forall p :: 1 <= p < |backing'| ==> backing'[p] != a.openOrder[0];
        FlushKeepsHead(b, backing', k + 1);
      }
    }
  }

  /** The source promises that finish flushes every block still open. It does so exactly when at most
      two are: the loop ranges over the very slice the commits shift, so from three on it skips the
      second one. */
  lemma FlushDrainsIff(a: Assembly)
    requires WellFormed(a)
    ensures FlushOpen(a, a.openOrder, 0).openOrder == [] <==> |a.openOrder| <= 2
  {
    hide WellFormed, Commit, FlushOpen;
    var order := a.openOrder;
    if |order| == 0 {
      FlushStep(a, order, 0);
    } else {
      OpenIsActive(a, 0);
      CommitShape(a, order[0]);
      var b := Commit(a, order[0]);
      var backing := order[1..] + order[|order| - 1..];
      FlushStep(a, order, 0);
      assert b.openOrder + order[|b.openOrder|..] == backing;
      if |order| == 1 {
        FlushStep(b, backing, 1);
      } else if |order| == 2 {
        assert backing == [order[1], order[1]];
        FlushLast(b, order[1]);
      } else {
        OpenDistinct(a);
        FlushSkips(b, order, backing);
      }
    }
  }

  lemma FlushLast(b: Assembly, last: Key)
    requires WellFormed(b) && b.openOrder == [last]
    ensures FlushOpen(b, [last, last], 1).openOrder == []
  {
    hide WellFormed, Commit, FlushOpen;
    OpenIsActive(b, 0);
    CommitShape(b, last);
    var c := Commit(b, last);
    var backing := [last, last];
    assert c.openOrder + backing[0..] == backing;
    FlushStep(b, backing, 1);
    FlushStep(c, backing, 2);
  }

  lemma FlushSkips(b: Assembly, order: seq<Key>, backing: seq<Key>)
    requires WellFormed(b) && |order| > 2 && b.openOrder == order[1..] && backing == order[1..] + order[|order| - 1..]
    requires forall i, j :: 0 <= i < j < |order| ==> order[i] != order[j]
    ensures FlushOpen(b, backing, 1).openOrder != []
  {
    hide WellFormed, Commit, FlushOpen;
    assert forall p :: 1 <= p < |backing| ==> backing[p] == order[if p < |order| - 1 then p + 1 else |order| - 1];
    FlushKeepsHead(b, backing, 1);
  }

  /** One turn of the finish flush. */
  lemma FlushStep(a: Assembly, backing: seq<Key>, k: nat)
    requires k <= |backing|
    ensures k == |backing| ==> FlushOpen(a, backing, k) == a
    ensures k < |backing| && backing[k] !in a.active ==> FlushOpen(a, backing, k) == FlushOpen(a, backing, k + 1)
    ensures k < |backing| && backing[k] in a.active ==>
              var b := Commit(a, backing[k]);
              FlushOpen(a, backing, k) ==
              if |b.openOrder| > |backing| then b else FlushOpen(b, b.openOrder + backing[|b.openOrder|..], k + 1)
  {
    hide Commit;
  }

  lemma CommitShrinks(a: Assembly, key: Key)
    requires WellFormed(a) && key in a.active
    ensures |Commit(a, key).openOrder| == |a.openOrder| - 1
  {
    WithoutFacts(a.openOrder, key);
  }

  lemma OpenIsActive(a: Assembly, i: nat)
    requires WellFormed(a) && i < |a.openOrder|
    ensures a.openOrder[i] in a.active
  {
  }

  lemma OpenDistinct(a: Assembly)
    requires WellFormed(a)
    ensures forall i, j :: 0 <= i < j < |a.openOrder| ==> a.openOrder[i] != a.openOrder[j]
  {
  }

  // ---------------------------------------------------------------- the assembler

  class BlockAssembler {
    var openOrder: seq<Key>
    var active: map<Key, Block>
    var legacyActive: Option<Block>
    var blocks: seq<Block>
    var usage: Option<int>
    var finishReason: string

    function State(): Assembly
      reads this
    {
      Assembly(openOrder, active, legacyActive, blocks, usage, finishReason)
    }

    constructor ()
      ensures State() == EMPTY
    {
      openOrder, active, legacyActive, blocks, usage, finishReason := [], map[], None, [], None, "";
    }

    method OpenBlock(key: Key, b: Block)
      modifies this`openOrder, this`active
      ensures State() == Open(old(State()), key, b)
    {
      active := active[key := b];
      openOrder := openOrder + [key];
    }

    method CommitBlock(key: Key)
      modifies this`openOrder, this`active, this`blocks
      ensures State() == Commit(old(State()), key)
    {
      if key !in active {
        return;
      }
      var b := active[key];
      active := active - {key};
      ghost var order := openOrder;
      for i := 0 to |openOrder|
        invariant openOrder == order
        invariant forall j :: 0 <= j < i ==> order[j] != key
      {
        if openOrder[i] == key {
          openOrder := openOrder[..i] + openOrder[i + 1..];
          break;
        }
      }
      blocks := blocks + [b];
    }

    method CommitAnonymous()
      modifies this`legacyActive, this`blocks
      ensures State() == CommitLegacy(old(State()))
    {
      if legacyActive.Some? {
        blocks := blocks + [legacyActive.value];
        legacyActive := None;
      }
    }

    method IngestText(key: Option<Key>, kind: BlockKind, text: string)
      requires WellFormed(State())
      modifies this`openOrder, this`active, this`legacyActive
      ensures State() == AddText(old(State()), key, kind, text)
    {
      if key.Some? {
        if key.value in active {
          active := active[key.value := AppendText(active[key.value], text)];
        } else {
          OpenBlock(key.value, EMPTY_BLOCK.(kind := kind, text := text));
        }
      } else if |openOrder| > 0 {
        var last := openOrder[|openOrder| - 1];
        active := active[last := AppendText(active[last], text)];
      } else if legacyActive.Some? {
        legacyActive := Some(AppendText(legacyActive.value, text));
      } else {
        legacyActive := Some(EMPTY_BLOCK.(kind := kind, text := text));
      }
    }

    method IngestToolCall(key: Option<Key>, id: string, name: string, arguments: string)
      requires WellFormed(State())
      modifies this`openOrder, this`active, this`legacyActive
      ensures State() == AddToolCall(old(State()), key, id, name, arguments)
    {
      if key.Some? {
        if key.value in active {
          active := active[key.value := AddCall(active[key.value], id, name, arguments)];
        } else {
          OpenBlock(key.value, AddCall(EMPTY_BLOCK.(kind := ToolCallKind), id, name, arguments));
        }
      } else if |openOrder| > 0 {
        var last := openOrder[|openOrder| - 1];
        active := active[last := AddCall(active[last], id, name, arguments)];
      } else {
        if legacyActive.None? {
          legacyActive := Some(EMPTY_BLOCK.(kind := ToolCallKind));
        }
        legacyActive := Some(AddCall(legacyActive.value, id, name, arguments));
      }
    }

    /** The finish flush over the shared backing array. */
    method FlushRemainders()
      requires WellFormed(State())
      modifies this`openOrder, this`active, this`blocks
      ensures State() == FlushOpen(old(State()), old(openOrder), 0)
    {
      hide Without, Commit, FlushOpen;
      var backing := openOrder;
      for k := 0 to |openOrder|
        invariant k <= |backing| == |old(openOrder)|
        invariant WellFormed(State()) && |openOrder| <= |backing|
        invariant FlushOpen(old(State()), old(openOrder), 0) == FlushOpen(State(), backing, k)
      {
        var key := backing[k];
        FlushStep(State(), backing, k);
        if key in active {
          CommitWellFormed(State(), key);
          CommitShrinks(State(), key);
          CommitBlock(key);
          backing := openOrder + backing[|openOrder|..];
        }
      }
      FlushStep(State(), backing, |backing|);
    }

    method IngestChunk(c: Chunk)
      requires WellFormed(State())
      modifies this
      ensures WellFormed(State())
      ensures State() == Ingest(old(State()), c)
    {
      hide WellFormed, AddText, AddToolCall, FlushOpen, Without;
      IngestWellFormed(State(), c);
      match c {
        case BlockStart(Some(k), kind, id, name) =>
          if k !in active {
            OpenBlock(k, Block(kind, "", id, name, ""));
          }
        case BlockStart(None, kind, id, name) =>
          if legacyActive.Some? {
            CommitAnonymous();
          } else if |openOrder| > 0 {
            CommitBlock(openOrder[|openOrder| - 1]);
          }
          legacyActive := Some(Block(kind, "", id, name, ""));
        case TextDelta(key, text) =>
          IngestText(key, TextKind, text);
        case ReasoningDelta(key, text) =>
          IngestText(key, ReasoningKind, text);
        case ToolCallDelta(key, id, name, arguments) =>
          IngestToolCall(key, id, name, arguments);
        case BlockEnd(Some(k), block) =>
          if k !in active && block.Some? {
            blocks := blocks + [block.value];
          } else {
            CommitBlock(k);
          }
        case BlockEnd(None, Some(block)) =>
          blocks := blocks + [block];
        case BlockEnd(None, None) =>
          if |openOrder| > 0 {
            CommitBlock(openOrder[|openOrder| - 1]);
          } else {
            CommitAnonymous();
          }
        case Usage(u) =>
          if u.Some? {
            usage := u;
          }
        case Finish(reason) =>
          finishReason := reason;
          assert WellFormed(State()) by {
            FinishReasonIrrelevant(old(State()), reason);
          }
          FlushRemainders();
          CommitAnonymous();
      }
    }
  }

  lemma FinishReasonIrrelevant(a: Assembly, reason: string)
    requires WellFormed(a)
    ensures WellFormed(a.(finishReason := reason))
  {
  }
}
