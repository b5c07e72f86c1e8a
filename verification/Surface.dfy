/** The canonical surface fold and its incremental form (backend/pkg/session/surface.go). */
module Surface {
  import opened Wrappers
  import opened SessionEvents

  /** `shadowed` are the surface entries a replacement removed, in surface order. */
  datatype Replacement = Replacement(seqNo: int, start: int, end: int, shadowed: seq<int>)

  datatype FoldResult = FoldResult(nodes: seq<int>, replacements: seq<Replacement>, generation: nat)

  datatype SurfacePlan =
    | AppendPlan(seqNo: int)
    | ReplacePlan(seqNo: int, start: int, end: int, startIdx: nat, endIdx: nat, shadowed: seq<int>)

  /** `Accept(None)` is the nil plan of an event that does not touch the surface. */
  datatype Verdict = Reject | Accept(plan: Option<SurfacePlan>)

  ghost predicate InWindow(nodes: seq<int>, base: int, size: nat) {
    forall i :: 0 <= i < |nodes| ==> base <= nodes[i] < base + size
  }

  // ---------------------------------------------------------------- specification

  /** What a legal `sourceEventSeqs` list is, stated without the scan that checks it. */
  ghost predicate ProvenanceOk(e: Envelope, shadowed: seq<int>) {
    match e.sources
    case None => shadowed == []
    case Some(src) =>
      && (src == [] ==> e.kind.AssistantMessage?)
      && Distinct(src)
      && (forall i :: 0 <= i < |src| ==> 0 <= src[i] < e.seqNo)
      && (forall i :: 0 <= i < |shadowed| ==> shadowed[i] in src)
  }

  function BlankContent(b: ContentBlock): ContentBlock {
    if b.ToolResultBlock? then b.(content := []) else b
  }

  function BlankAll(bs: seq<ContentBlock>): (r: seq<ContentBlock>)
    ensures |r| == |bs|
  {
    if bs == [] then [] else [BlankContent(bs[0])] + BlankAll(bs[1..])
  }

  /** A tool result with the content of every block blanked out; `None` when it does not decode. */
  function Normalized(e: Envelope): Option<Data> {
    match e.data
    case ToolResultData(turn, step, message, rest) =>
      Some(ToolResultData(turn, step, message.(content := BlankAll(message.content)), rest))
    case _ => None
  }

  predicate RewriteEqual(original: Envelope, replacement: Envelope) {
    var a, b := Normalized(original), Normalized(replacement);
    a.Some? && a == b
  }

  /** `events[seq - base]`; `None` where that index would be out of bounds. */
  function Lookup(events: seq<Envelope>, base: int, x: int): Option<Envelope> {
    if base <= x < base + |events| then Some(events[x - base]) else None
  }

  /** A tool result may replace exactly one current tool result and change only its content. */
  predicate ToolRewriteOk(e: Envelope, shadowed: seq<int>, events: seq<Envelope>, base: int) {
    e.kind.ToolResult? ==>
      && |shadowed| == 1
      && var original := Lookup(events, base, shadowed[0]);
      && original.Some?
      && original.value.kind.ToolResult?
      && RewriteEqual(original.value, e)
  }

  /** Two blocks differ in the content of a tool result at most. */
  predicate SameFrame(a: ContentBlock, b: ContentBlock) {
    if a.ToolResultBlock? then b.ToolResultBlock? && b.callId == a.callId && b.isError == a.isError else b == a
  }

  lemma {:induction false} BlankAllIff(a: seq<ContentBlock>, b: seq<ContentBlock>)
    ensures BlankAll(a) == BlankAll(b) <==> |a| == |b| && forall i :: 0 <= i < |a| ==> SameFrame(a[i], b[i])
    decreases |a|
  {
    if a != [] && b != [] {
      BlankAllIff(a[1..], b[1..]);
      assert BlankAll(a) == BlankAll(b) <==> BlankContent(a[0]) == BlankContent(b[0]) && BlankAll(a[1..]) == BlankAll(b[1..]) by {
        assert BlankAll(a)[0] == BlankContent(a[0]) && BlankAll(b)[0] == BlankContent(b[0]);
        assert BlankAll(a)[1..] == BlankAll(a[1..]) && BlankAll(b)[1..] == BlankAll(b[1..]);
      }
      assert forall i :: 1 <= i < |a| ==> a[i] == a[1..][i - 1];
      assert forall i :: 1 <= i < |b| ==> b[i] == b[1..][i - 1];
    }
  }

  /** A tool result is accepted in place of surface entries exactly when there is one, it is a tool result of
      the log, and the two agree in everything but the content of their blocks: turn, step, role, the number
      and kind of blocks, call ids, error flags and all other fields. */
  lemma ToolRewriteIff(e: Envelope, shadowed: seq<int>, events: seq<Envelope>, base: int)
    requires e.kind.ToolResult?
    ensures ToolRewriteOk(e, shadowed, events, base) <==>
            && |shadowed| == 1 && base <= shadowed[0] < base + |events|
            && var o := events[shadowed[0] - base];
            && o.kind.ToolResult? && o.data.ToolResultData? && e.data.ToolResultData?
            && e.data.turn == o.data.turn && e.data.step == o.data.step && e.data.rest == o.data.rest
            && e.data.message.role == o.data.message.role
            && |e.data.message.content| == |o.data.message.content|
            && forall i :: 0 <= i < |o.data.message.content| ==>
               SameFrame(o.data.message.content[i], e.data.message.content[i])
  {
    hide BlankAll, SameFrame;
    if |shadowed| == 1 && base <= shadowed[0] < base + |events| {
      var o := events[shadowed[0] - base];
      if o.data.ToolResultData? && e.data.ToolResultData? {
        BlankAllIff(o.data.message.content, e.data.message.content);
      }
    }
  }

  /** A plan that can be applied to a surface of this shape. */
  predicate Fits(plan: Option<SurfacePlan>, nodes: seq<int>) {
    plan.Some? && plan.value.ReplacePlan? ==> plan.value.startIdx <= plan.value.endIdx < |nodes|
  }

  /** The transition one event asks for over the current surface, or `Reject`. */
  ghost function Plan(nodes: seq<int>, e: Envelope, expected: int, events: seq<Envelope>, base: int): (v: Verdict)
    ensures v.Accept? ==> Fits(v.plan, nodes) && e.seqNo == expected && (v.plan.Some? <==> Eligible(e.kind))
    ensures v.Accept? && v.plan.Some? ==> v.plan.value.seqNo == expected
  {
    if e.seqNo != expected then Reject
    else if !Eligible(e.kind) then
      if e.surfaceOp.None? && e.sources.None? then Accept(None) else Reject
    else match e.surfaceOp
      case None => Reject
      case Some(Malformed) => Reject
      case Some(Append) => if ProvenanceOk(e, []) then Accept(Some(AppendPlan(e.seqNo))) else Reject
      case Some(Replace(start, end)) =>
        var i, j := IndexOf(nodes, start), IndexOf(nodes, end);
        if start < 0 || end < 0 || i == |nodes| || j == |nodes| || i > j then Reject
        else
          var shadowed := nodes[i..j + 1];
          if ProvenanceOk(e, shadowed) && ToolRewriteOk(e, shadowed, events, base)
          then Accept(Some(ReplacePlan(e.seqNo, start, end, i, j, shadowed)))
          else Reject
  }

  function Apply(f: FoldResult, plan: Option<SurfacePlan>): FoldResult
    requires Fits(plan, f.nodes)
  {
    match plan
    case None => f
    case Some(AppendPlan(x)) => f.(nodes := f.nodes + [x])
    case Some(ReplacePlan(x, start, end, i, j, _)) =>
      FoldResult(f.nodes[..i] + [x] + f.nodes[j + 1..],
                 f.replacements + [Replacement(x, start, end, f.nodes[i..j + 1])],
                 f.generation + 1)
  }

  ghost function Step(f: FoldResult, e: Envelope, expected: int, events: seq<Envelope>, base: int): Option<FoldResult> {
    match Plan(f.nodes, e, expected, events, base)
    case Reject => None
    case Accept(plan) => Some(Apply(f, plan))
  }

  /** The batch fold of a whole log, by its last event. */
  ghost function Fold(log: seq<Envelope>, base: int): Option<FoldResult>
    decreases |log|
  {
    if log == [] then Some(FoldResult([], [], 0))
    else
      var n := |log| - 1;
      match Fold(log[..n], base)
      case None => None
      case Some(f) => Step(f, log[n], base + n, log[..n], base)
  }

  /** Folding one more event is one step over the fold so far. */
  lemma FoldSnoc(log: seq<Envelope>, e: Envelope, base: int)
    ensures Fold(log + [e], base) ==
            match Fold(log, base)
            case None => None
            case Some(f) => Step(f, e, base + |log|, log, base)
  {
    hide Step;
    assert (log + [e])[..|log|] == log;
  }

  /** A log that folds folds at every prefix. */
  lemma {:induction false} FoldPrefix(log: seq<Envelope>, base: int, n: nat)
    requires n <= |log| && Fold(log, base).Some?
    ensures Fold(log[..n], base).Some?
    decreases |log|
  {
    hide Step;
    if n < |log| {
      var m := |log| - 1;
      FoldPrefix(log[..m], base, n);
      assert log[..m][..n] == log[..n];
    } else {
      assert log[..n] == log;
    }
  }

  /** Events are looked up at surface seqs only, so planning over the whole log and planning over
      the prefix before the event give the same verdict. */
  lemma PlanPrefix(nodes: seq<int>, e: Envelope, expected: int, events: seq<Envelope>, base: int, n: nat)
    requires n <= |events| && InWindow(nodes, base, n)
    ensures Plan(nodes, e, expected, events, base) == Plan(nodes, e, expected, events[..n], base)
  {
    hide ProvenanceOk;
  }

  /** The surface only ever holds seqs of events already in the log. */
  lemma {:induction false} FoldInWindow(log: seq<Envelope>, base: int)
    requires Fold(log, base).Some?
    ensures InWindow(Fold(log, base).value.nodes, base, |log|)
    decreases |log|
  {
    hide Step;
    if log != [] {
      var n := |log| - 1;
      FoldInWindow(log[..n], base);
      StepWindow(Fold(log[..n], base).value, log[n], base + n, log[..n], base);
    }
  }

  /** What every accepted step has in common: the event has the expected seq, and what the surface
      held is either still there or recorded as shadowed. */
  lemma StepShape(f: FoldResult, e: Envelope, expected: int, events: seq<Envelope>, base: int)
    requires Step(f, e, expected, events, base).Some?
    ensures e.seqNo == expected
    ensures var g := Step(f, e, expected, events, base).value;
            && f.replacements <= g.replacements
            && multiset(g.nodes) + Shadowed(g.replacements) ==
               multiset(f.nodes) + Shadowed(f.replacements) +
               (if Eligible(e.kind) then multiset{e.seqNo} else multiset{})
  {
    hide Plan, Shadowed;
    ApplyConserves(f, Plan(f.nodes, e, expected, events, base).plan);
  }

  lemma StepWindow(f: FoldResult, e: Envelope, expected: int, events: seq<Envelope>, base: int)
    requires Step(f, e, expected, events, base).Some?
    requires InWindow(f.nodes, base, |events|) && expected == base + |events|
    ensures InWindow(Step(f, e, expected, events, base).value.nodes, base, |events| + 1)
  {
    hide ProvenanceOk, ToolRewriteOk;
  }

  lemma ApplyConserves(f: FoldResult, plan: Option<SurfacePlan>)
    requires Fits(plan, f.nodes)
    ensures multiset(Apply(f, plan).nodes) + Shadowed(Apply(f, plan).replacements) ==
            multiset(f.nodes) + Shadowed(f.replacements) +
            (if plan.Some? then multiset{plan.value.seqNo} else multiset{})
  {
    hide Shadowed;
    match plan
    case None =>
      assert multiset(f.nodes) + Shadowed(f.replacements) == multiset(f.nodes) + Shadowed(f.replacements) + multiset{};
    case Some(AppendPlan(x)) =>
      assert multiset(f.nodes + [x]) == multiset(f.nodes) + multiset{x};
      Regroup(multiset(f.nodes + [x]), multiset{}, multiset(f.nodes), multiset{x}, Shadowed(f.replacements));
    case Some(ReplacePlan(x, start, end, i, j, _)) =>
      var cut := f.nodes[i..j + 1];
      ReplaceMultiset(f.nodes, i, j, x);
      ShadowedSnoc(f.replacements, Replacement(x, start, end, cut));
      assert Apply(f, plan).nodes == f.nodes[..i] + [x] + f.nodes[j + 1..];
      Regroup(multiset(Apply(f, plan).nodes), multiset(cut), multiset(f.nodes), multiset{x}, Shadowed(f.replacements));
  }

  lemma Regroup(a: multiset<int>, b: multiset<int>, c: multiset<int>, d: multiset<int>, s: multiset<int>)
    requires a + b == c + d
    ensures a + (s + b) == c + s + d
    ensures b == multiset{} ==> a + s == c + s + d
  {
    forall x ensures (a + (s + b))[x] == (c + s + d)[x] {
      assert (a + b)[x] == (c + d)[x];
    }
  }

  lemma ReplaceMultiset(nodes: seq<int>, i: nat, j: nat, x: int)
    requires i <= j < |nodes|
    ensures multiset(nodes[..i] + [x] + nodes[j + 1..]) + multiset(nodes[i..j + 1]) ==
            multiset(nodes) + multiset{x}
  {
    assert nodes == nodes[..i] + nodes[i..j + 1] + nodes[j + 1..];
  }

  // ---------------------------------------------------------------- the scans of the source

  method FindSeq(nodes: seq<int>, x: int) returns (idx: int)
    ensures idx == if IndexOf(nodes, x) < |nodes| then IndexOf(nodes, x) else -1
  {
    idx := -1;
    for i := 0 to |nodes|
      invariant x !in nodes[..i]
      invariant idx == -1
    {
      if nodes[i] == x {
        return i;
      }
    }
  }

  method AssertProvenance(e: Envelope, shadowed: seq<int>) returns (ok: bool)
    ensures ok <==> ProvenanceOk(e, shadowed)
  {
    var sources: set<int> := {};
    if e.sources.Some? {
      var src := e.sources.value;
      if |src| == 0 && !e.kind.AssistantMessage? {
        return false;
      }
      for i := 0 to |src|
        invariant forall x :: x in sources <==> x in src[..i]
        invariant Distinct(src[..i])
        invariant forall k :: 0 <= k < i ==> 0 <= src[k] < e.seqNo
      {
        if src[i] < 0 || src[i] in sources || src[i] >= e.seqNo {
          assert src[i] in sources ==> exists k :: 0 <= k < i && src[k] == src[i];
          return false;
        }
        sources := sources + {src[i]};
      }
      assert src[..|src|] == src;
    }
    assert forall x :: x in sources <==> e.sources.Some? && x in e.sources.value;
    for i := 0 to |shadowed|
      invariant forall k :: 0 <= k < i ==> shadowed[k] in sources
    {
      if shadowed[i] !in sources {
        return false;
      }
    }
    assert |shadowed| > 0 ==> shadowed[0] in sources;
    return true;
  }

  method PlanSurfaceEvent(nodes: seq<int>, e: Envelope, expected: int, events: seq<Envelope>, base: int)
    returns (v: Verdict)
    requires InWindow(nodes, base, |events|)
    ensures v == Plan(nodes, e, expected, events, base)
  {
    if e.seqNo != expected {
      return Reject;
    }
    if !Eligible(e.kind) {
      return if e.surfaceOp.None? && e.sources.None? then Accept(None) else Reject;
    }
    match e.surfaceOp {
      case None => return Reject;
      case Some(Malformed) => return Reject;
      case Some(Append) =>
        var ok := AssertProvenance(e, []);
        return if ok then Accept(Some(AppendPlan(e.seqNo))) else Reject;
      case Some(Replace(start, end)) =>
        if start < 0 || end < 0 {
          return Reject;
        }
        var i := FindSeq(nodes, start);
        if i == -1 {
          return Reject;
        }
        var j := FindSeq(nodes, end);
        if j == -1 || i > j {
          return Reject;
        }
        var shadowed := nodes[i..j + 1];
        var ok := AssertProvenance(e, shadowed);
        // The source indexes `events` directly here; the window makes that safe.
        if !ok || !ToolRewriteOk(e, shadowed, events, base) {
          return Reject;
        }
        return Accept(Some(ReplacePlan(e.seqNo, start, end, i, j, shadowed)));
    }
  }

  method FoldSurface(events: seq<Envelope>, base: int) returns (r: Option<FoldResult>)
    ensures r == Fold(events, base)
  {
    hide Fold, Plan, Apply;
    var f := FoldResult([], [], 0);
    FoldEmpty(events, base);
    for index := 0 to |events|
      invariant Fold(events[..index], base) == Some(f)
    {
      var e := events[index];
      FoldExtend(events, base, index);
      var v := PlanSurfaceEvent(f.nodes, e, base + index, events, base);
      if v.Reject? {
        return None;
      }
      f := Apply(f, v.plan);
    }
    assert events[..|events|] == events;
    return Some(f);
  }

  lemma FoldEmpty(events: seq<Envelope>, base: int)
    ensures Fold(events[..0], base) == Some(FoldResult([], [], 0))
  {
  }

  /** One turn of the replay loop, over the whole log as the source has it. */
  lemma FoldExtend(events: seq<Envelope>, base: int, index: nat)
    requires index < |events| && Fold(events[..index], base).Some?
    ensures var f := Fold(events[..index], base).value;
            var v := Plan(f.nodes, events[index], base + index, events, base);
            && InWindow(f.nodes, base, |events|)
            && (v.Reject? ==> Fold(events, base).None? && Fold(events[..index + 1], base).None?)
            && (v.Accept? ==> Fold(events[..index + 1], base) == Some(Apply(f, v.plan)))
  {
    hide Fold, Plan, Apply;
    var f := Fold(events[..index], base).value;
    FoldInWindow(events[..index], base);
    PlanPrefix(f.nodes, events[index], base + index, events, base, index);
    assert events[..index + 1] == events[..index] + [events[index]];
    FoldSnoc(events[..index], events[index], base);
    if Fold(events, base).Some? {
      FoldPrefix(events, base, index + 1);
    }
  }

  // ---------------------------------------------------------------- conservation

  /** The seqs of the surface events of a log, in log order. */
  function SurfaceSeqs(log: seq<Envelope>): seq<int> {
    if log == [] then []
    else
      var n := |log| - 1;
      SurfaceSeqs(log[..n]) + if Eligible(log[n].kind) then [log[n].seqNo] else []
  }

  function Shadowed(rs: seq<Replacement>): multiset<int> {
    if rs == [] then multiset{} else Shadowed(rs[..|rs| - 1]) + multiset(rs[|rs| - 1].shadowed)
  }

  lemma ShadowedSnoc(rs: seq<Replacement>, r: Replacement)
    ensures Shadowed(rs + [r]) == Shadowed(rs) + multiset(r.shadowed)
  {
    assert (rs + [r])[..|rs|] == rs;
  }

  lemma {:induction false} Contiguous(log: seq<Envelope>, base: int, i: nat)
    requires Fold(log, base).Some? && i < |log|
    ensures log[i].seqNo == base + i
    decreases |log|
  {
    hide Step;
    var n := |log| - 1;
    if i < n {
      Contiguous(log[..n], base, i);
    } else {
      StepShape(Fold(log[..n], base).value, log[n], base + n, log[..n], base);
    }
  }

  lemma {:induction false} SurfaceSeqsFacts(log: seq<Envelope>, base: int, q: int)
    requires Fold(log, base).Some?
    ensures multiset(SurfaceSeqs(log))[q] <= 1
    ensures q in SurfaceSeqs(log) <==> base <= q < base + |log| && Eligible(log[q - base].kind)
    decreases |log|
  {
    hide Fold;
    if log != [] {
      var n := |log| - 1;
      FoldPrefix(log, base, n);
      SurfaceSeqsFacts(log[..n], base, q);
      Contiguous(log, base, n);
    }
  }

  /** Nothing is lost and nothing is invented: the current nodes together with everything every
      replacement shadowed are exactly the surface events of the log. */
  lemma {:induction false} Conservation(log: seq<Envelope>, base: int)
    requires Fold(log, base).Some?
    ensures multiset(Fold(log, base).value.nodes) + Shadowed(Fold(log, base).value.replacements) ==
            multiset(SurfaceSeqs(log))
    decreases |log|
  {
    hide Step;
    if log != [] {
      var n := |log| - 1;
      Conservation(log[..n], base);
      StepShape(Fold(log[..n], base).value, log[n], base + n, log[..n], base);
    }
  }

  lemma {:induction false} ShadowedOnce(rs: seq<Replacement>, i: nat, q: int)
    requires i < |rs|
    ensures multiset(rs[i].shadowed)[q] <= Shadowed(rs)[q]
    ensures forall j :: 0 <= j < i ==> multiset(rs[j].shadowed)[q] + multiset(rs[i].shadowed)[q] <= Shadowed(rs)[q]
    decreases |rs|
  {
    var n := |rs| - 1;
    if i < n {
      ShadowedOnce(rs[..n], i, q);
    } else {
      forall j | 0 <= j < i ensures multiset(rs[j].shadowed)[q] <= Shadowed(rs[..n])[q] {
        ShadowedOnce(rs[..n], j, q);
      }
    }
  }

  lemma {:induction false} ShadowedSomewhere(rs: seq<Replacement>, q: int) returns (i: nat)
    requires q in Shadowed(rs)
    ensures i < |rs| && q in rs[i].shadowed
    decreases |rs|
  {
    var n := |rs| - 1;
    if q in rs[n].shadowed {
      i := n;
    } else {
      i := ShadowedSomewhere(rs[..n], q);
    }
  }

  lemma DistinctByCount(s: seq<int>)
    requires forall q :: multiset(s)[q] <= 1
    ensures Distinct(s)
  {
    forall i, j | 0 <= i < j < |s| ensures s[i] != s[j] {
      assert s == s[..i] + [s[i]] + s[i + 1..j] + [s[j]] + s[j + 1..];
      assert multiset(s)[s[i]] >= if s[i] == s[j] then 2 else 1;
    }
  }

  lemma NodesDistinct(log: seq<Envelope>, base: int)
    requires Fold(log, base).Some?
    ensures Distinct(Fold(log, base).value.nodes)
    ensures forall q :: q in Fold(log, base).value.nodes ==>
              base <= q < base + |log| && Eligible(log[q - base].kind) && log[q - base].seqNo == q
  {
    hide Fold, Shadowed;
    var nodes := Fold(log, base).value.nodes;
    Conservation(log, base);
    forall q ensures multiset(nodes)[q] <= 1 {
      SurfaceSeqsFacts(log, base, q);
    }
    DistinctByCount(nodes);
    forall q | q in nodes
      ensures base <= q < base + |log| && Eligible(log[q - base].kind) && log[q - base].seqNo == q
    {
      assert q in multiset(nodes);
      assert q in multiset(SurfaceSeqs(log));
      SurfaceSeqsFacts(log, base, q);
      Contiguous(log, base, q - base);
    }
  }

  /** Every surface event of the log is in exactly one place: among the current nodes, or in the
      shadowed list of one single replacement, and there only once. */
  lemma ExactlyOnePlace(log: seq<Envelope>, base: int, q: int)
    requires Fold(log, base).Some?
    requires base <= q < base + |log| && Eligible(log[q - base].kind)
    ensures var f := Fold(log, base).value;
            (q in f.nodes) != (exists i :: 0 <= i < |f.replacements| && q in f.replacements[i].shadowed)
    ensures var rs := Fold(log, base).value.replacements;
            forall i, j :: 0 <= i < j < |rs| && q in rs[i].shadowed ==> q !in rs[j].shadowed
  {
    var f := Fold(log, base).value;
    Conservation(log, base);
    SurfaceSeqsFacts(log, base, q);
    assert multiset(f.nodes)[q] + Shadowed(f.replacements)[q] == 1;
    forall i | 0 <= i < |f.replacements|
      ensures multiset(f.replacements[i].shadowed)[q] <= Shadowed(f.replacements)[q]
      ensures forall j :: 0 <= j < i ==>
                multiset(f.replacements[j].shadowed)[q] + multiset(f.replacements[i].shadowed)[q] <= 1
    {
      ShadowedOnce(f.replacements, i, q);
    }
    if q in f.nodes {
      assert multiset(f.nodes)[q] >= 1;
    } else {
      assert multiset(f.nodes)[q] == 0;
      var i := ShadowedSomewhere(f.replacements, q);
    }
    forall i, j | 0 <= i < j < |f.replacements| && q in f.replacements[i].shadowed
      ensures q !in f.replacements[j].shadowed
    {
      assert multiset(f.replacements[i].shadowed)[q] >= 1;
    }
  }

  /** A shadowed event never comes back, however the log goes on. */
  lemma {:induction false} ShadowedStays(log: seq<Envelope>, more: seq<Envelope>, base: int, q: int)
    requires Fold(log + more, base).Some?
    requires Fold(log, base).Some? && q in Shadowed(Fold(log, base).value.replacements)
    ensures q in Shadowed(Fold(log + more, base).value.replacements)
    ensures q !in Fold(log + more, base).value.nodes
    decreases |more|
  {
    hide Fold, Step;
    var full := log + more;
    if more == [] {
      assert full == log;
    } else {
      var n := |more| - 1;
      assert full == (log + more[..n]) + [more[n]];
      FoldSnoc(log + more[..n], more[n], base);
      ShadowedStays(log, more[..n], base, q);
      var f := Fold(log + more[..n], base).value;
      StepShape(f, more[n], base + |full| - 1, log + more[..n], base);
      ShadowedMonotone(f.replacements, Fold(full, base).value.replacements, q);
    }
    ShadowedGone(full, base, q);
  }

  lemma {:induction false} ShadowedMonotone(rs: seq<Replacement>, more: seq<Replacement>, q: int)
    requires rs <= more && q in Shadowed(rs)
    ensures q in Shadowed(more)
    decreases |more|
  {
    if |rs| < |more| {
      assert rs <= more[..|more| - 1];
      ShadowedMonotone(rs, more[..|more| - 1], q);
    } else {
      assert rs == more;
    }
  }

  lemma ShadowedGone(log: seq<Envelope>, base: int, q: int)
    requires Fold(log, base).Some? && q in Shadowed(Fold(log, base).value.replacements)
    ensures q !in Fold(log, base).value.nodes
  {
    hide Fold, Shadowed;
    Conservation(log, base);
    SurfaceSeqsFacts(log, base, q);
    assert multiset(Fold(log, base).value.nodes)[q] == 0;
  }

  // ---------------------------------------------------------------- model history

  predicate AllSupported(events: seq<Envelope>) {
    forall i :: 0 <= i < |events| ==> Supported(events[i])
  }

  /** The messages of a run of surface seqs, in order; `Err` when one of them does not decode or is
      not a seq of the log. */
  function ProjectAll(events: seq<Envelope>, base: int, nodes: seq<int>): Result<seq<Message>, ()> {
    if nodes == [] then Ok([])
    else
      var n := |nodes| - 1;
      match ProjectAll(events, base, nodes[..n])
      case Err(_) => Err(())
      case Ok(ms) =>
        match Lookup(events, base, nodes[n])
        case None => Err(())
        case Some(e) =>
          match ProjectEventMessage(e)
          case Err(_) => Err(())
          case Ok(None) => Ok(ms)
          case Ok(Some(m)) => Ok(ms + [m])
  }

  ghost function Derived(events: seq<Envelope>): Result<seq<Message>, ()> {
    if !AllSupported(events) then Err(())
    else match Fold(events, 0)
      case None => Err(())
      case Some(f) => ProjectAll(events, 0, f.nodes)
  }

  lemma {:induction false} ProjectAllErr(events: seq<Envelope>, base: int, nodes: seq<int>, n: nat)
    requires n <= |nodes| && ProjectAll(events, base, nodes[..n]).Err?
    ensures ProjectAll(events, base, nodes).Err?
    decreases |nodes|
  {
    if n == |nodes| {
      assert nodes[..n] == nodes;
    } else {
      assert nodes[..|nodes| - 1][..n] == nodes[..n];
      ProjectAllErr(events, base, nodes[..|nodes| - 1], n);
    }
  }

  /** The events of some nodes. */
  function Pick(events: seq<Envelope>, nodes: seq<int>): (es: seq<Envelope>)
    requires forall i :: 0 <= i < |nodes| ==> 0 <= nodes[i] < |events|
    ensures |es| == |nodes| && forall i :: 0 <= i < |nodes| ==> es[i] == events[nodes[i]]
  {
    seq(|nodes|, i requires 0 <= i < |nodes| => events[nodes[i]])
  }

  lemma {:induction false} ProjectAllMeaning(events: seq<Envelope>, nodes: seq<int>)
    requires forall i :: 0 <= i < |nodes| ==> 0 <= nodes[i] < |events|
    ensures ProjectAll(events, 0, nodes) ==
            if exists i :: 0 <= i < |nodes| && Misshapen(events[nodes[i]]) then Err(()) else Ok(MessagesOf(Pick(events, nodes)))
    decreases |nodes|
  {
    hide ProjectEventMessage;
    if nodes != [] {
      var n := |nodes| - 1;
      ProjectAllMeaning(events, nodes[..n]);
      ProjectMeaning(events[nodes[n]]);
      var es := Pick(events, nodes);
      assert es[..n] == Pick(events, nodes[..n]) && es[n] == events[nodes[n]];
      if i :| 0 <= i < n && Misshapen(events[nodes[..n][i]]) {
        assert Misshapen(events[nodes[i]]);
      } else {
        forall i | 0 <= i < n ensures !Misshapen(events[nodes[i]]) {
          assert nodes[..n][i] == nodes[i];
        }
        var before := MessagesOf(es[..n]);
        assert ProjectAll(events, 0, nodes[..n]) == Ok(before) && before + [] == before;
        if Misshapen(events[nodes[n]]) {
          assert ProjectAll(events, 0, nodes).Err?;
        } else {
          assert MessagesOf(es) == before + if Speaks(es[n]) then [es[n].data.message] else [];
        }
      }
    }
  }

  /** Model history in terms of the events: every surface node's own message, in node order, word for word,
      but for assistant messages without content. There is none exactly when an event is of an unknown kind and
      not ignorable, the log does not fold, or a node's payload is not the one of its kind. */
  lemma DerivedMeaning(events: seq<Envelope>)
    ensures Derived(events).Ok? <==>
            && (forall i :: 0 <= i < |events| && events[i].kind.Unknown? ==> events[i].ignorable)
            && Fold(events, 0).Some?
            && forall q :: q in Fold(events, 0).value.nodes ==> 0 <= q < |events| && !Misshapen(events[q])
    ensures Derived(events).Ok? ==>
              var nodes := Fold(events, 0).value.nodes;
              && (forall i :: 0 <= i < |nodes| ==> 0 <= nodes[i] < |events| && Eligible(events[nodes[i]].kind))
              && Derived(events).value == MessagesOf(Pick(events, nodes))
  {
    hide Fold, ProjectAll, Misshapen;
    if Fold(events, 0).Some? {
      var nodes := Fold(events, 0).value.nodes;
      NodesDistinct(events, 0);
      forall i | 0 <= i < |nodes| ensures 0 <= nodes[i] < |events| && Eligible(events[nodes[i]].kind) {
        assert nodes[i] in nodes;
      }
      ProjectAllMeaning(events, nodes);
    }
  }

  /** `pointers[seq]` is always in bounds: the fold only ever holds seqs of events of the log. */
  method DeriveMessages(events: seq<Envelope>) returns (r: Result<seq<Message>, ()>)
    ensures r == Derived(events)
    ensures r.Ok? <==>
            && (forall i :: 0 <= i < |events| && events[i].kind.Unknown? ==> events[i].ignorable)
            && Fold(events, 0).Some?
            && forall q :: q in Fold(events, 0).value.nodes ==> 0 <= q < |events| && !Misshapen(events[q])
    ensures r.Ok? ==>
              var nodes := Fold(events, 0).value.nodes;
              && (forall i :: 0 <= i < |nodes| ==> 0 <= nodes[i] < |events| && Eligible(events[nodes[i]].kind))
              && r.value == MessagesOf(Pick(events, nodes))
  {
    hide Fold, Misshapen;
    DerivedMeaning(events);
    for i := 0 to |events|
      invariant forall k :: 0 <= k < i ==> Supported(events[k])
    {
      if !Supported(events[i]) {
        return Err(());
      }
    }
    var fold := FoldSurface(events, 0);
    if fold.None? {
      return Err(());
    }
    var nodes := fold.value.nodes;
    FoldInWindow(events, 0);
    var messages: seq<Message> := [];
    for k := 0 to |nodes|
      invariant ProjectAll(events, 0, nodes[..k]) == Ok(messages)
    {
      assert nodes[..k + 1][..k] == nodes[..k];
      var message := ProjectEventMessage(events[nodes[k]]);
      if message.Err? {
        ProjectAllErr(events, 0, nodes, k + 1);
        return Err(());
      }
      if message.value.Some? {
        messages := messages + [message.value.value];
      }
    }
    assert nodes[..|nodes|] == nodes;
    return Ok(messages);
  }

  // ---------------------------------------------------------------- the incremental surface

  method ApplySurfacePlan(nodes: seq<int>, generation: nat, plan: Option<SurfacePlan>)
    returns (nodes': seq<int>, generation': nat)
    requires Fits(plan, nodes)
    ensures forall rs :: var g := Apply(FoldResult(nodes, rs, generation), plan);
                         g.nodes == nodes' && g.generation == generation'
  {
    match plan {
      case None =>
        return nodes, generation;
      case Some(AppendPlan(x)) =>
        return nodes + [x], generation;
      case Some(ReplacePlan(x, _, _, i, j, _)) =>
        return nodes[..i] + ([x] + nodes[j + 1..]), generation + 1;
    }
  }

  /** `SurfaceManager`: an incremental view of a log its owner keeps growing. The log slice is
      shared, so growth is the owner's step `Grow`, not a method of the source. The pending
      candidate is compared by value where the source compares pointers. */
  class SurfaceManager {
    var nodes: seq<int>
    var generation: nat
    var log: seq<Envelope>
    const base: int
    var lastProcessed: int
    var pendingEvent: Option<Envelope>
    var pendingPlan: Option<SurfacePlan>

    /** Number of log events already folded in. */
    ghost function Done(): int
      reads this
    {
      lastProcessed + 1 - base
    }

    /** The processed part of the log is folded, and a cached plan is exactly the plan that would
        be made again for the next event. */
    ghost predicate Valid()
      reads this
    {
      && 0 <= Done() <= |log|
      && Fold(log[..Done()], base).Some?
      && Fold(log[..Done()], base).value.nodes == nodes
      && Fold(log[..Done()], base).value.generation == generation
      && (pendingPlan.Some? ==>
            && pendingEvent.Some?
            && pendingPlan.value.seqNo == lastProcessed + 1
            && Plan(nodes, pendingEvent.value, lastProcessed + 1, log[..Done()], base) == Accept(pendingPlan))
    }

    constructor (log: seq<Envelope>, base: int)
      ensures Valid() && this.log == log && this.base == base
    {
      this.log := log;
      this.base := base;
      nodes, generation := [], 0;
      lastProcessed := base - 1;
      pendingEvent, pendingPlan := None, None;
    }

    /** The owner appends one event to the shared log, validated or not. */
    method Grow(e: Envelope)
      requires Valid()
      modifies this`log
      ensures Valid() && log == old(log) + [e]
    {
      hide Fold, Plan;
      assert (log + [e])[..Done()] == log[..Done()];
      log := log + [e];
    }

    method ProcessDelta() returns (ok: bool)
      requires Valid()
      modifies this`nodes, this`generation, this`lastProcessed, this`pendingEvent, this`pendingPlan
      ensures Valid()
      ensures ok <==> Fold(log, base).Some?
      ensures ok ==> Done() == |log|
      ensures ok ==> nodes == Fold(log, base).value.nodes && generation == Fold(log, base).value.generation
    {
      hide Fold, Plan;
      var tail := base + |log| - 1;
      while lastProcessed < tail
        invariant Valid()
        decreases tail - lastProcessed
      {
        var next := lastProcessed + 1;
        var index := next - base;
        var e := log[index];
        var pending := pendingPlan;
        FoldExtend(log, base, index);
        FoldInWindow(log[..index], base);
        PlanPrefix(nodes, e, next, log, base, index);
        var plan: Option<SurfacePlan>;
        if pending.Some? && pendingEvent == Some(e) && pending.value.seqNo == next {
          plan := pending;
        } else {
          var v := PlanSurfaceEvent(nodes, e, next, log, base);
          if v.Reject? {
            return false;
          }
          plan := v.plan;
        }
        nodes, generation := ApplySurfacePlan(nodes, generation, plan);
        if pending.Some? && pending.value.seqNo <= next {
          pendingEvent, pendingPlan := None, None;
        }
        lastProcessed := next;
      }
      assert log[..|log|] == log;
      return true;
    }

    /** Admits exactly the candidates the batch fold of the extended log accepts, and neither
        outcome changes what later reads return. */
    method ValidateNext(e: Envelope) returns (ok: bool)
      requires Valid()
      modifies this`nodes, this`generation, this`lastProcessed, this`pendingEvent, this`pendingPlan
      ensures Valid()
      ensures ok <==> Fold(log + [e], base).Some?
      ensures ok ==> pendingEvent == Some(e)
    {
      hide Fold, Plan;
      FoldSnoc(log, e, base);
      if lastProcessed < base + |log| - 1 {
        var done := ProcessDelta();
        if !done {
          return false;
        }
      }
      assert log[..|log|] == log;
      FoldInWindow(log, base);
      var v := PlanSurfaceEvent(nodes, e, base + |log|, log, base);
      if v.Reject? {
        return false;
      }
      pendingEvent, pendingPlan := Some(e), v.plan;
      return true;
    }

    /** Whatever was validated, abandoned or rejected before, a read is the batch fold of the log. */
    method Nodes() returns (r: Option<seq<int>>)
      requires Valid()
      modifies this`nodes, this`generation, this`lastProcessed, this`pendingEvent, this`pendingPlan
      ensures Valid()
      ensures r == match Fold(log, base) case None => None case Some(f) => Some(f.nodes)
    {
      var ok := ProcessDelta();
      return if ok then Some(nodes) else None;
    }

    method ReplaceGeneration() returns (r: Option<nat>)
      requires Valid()
      modifies this`nodes, this`generation, this`lastProcessed, this`pendingEvent, this`pendingPlan
      ensures Valid()
      ensures r == match Fold(log, base) case None => None case Some(f) => Some(f.generation)
    {
      var ok := ProcessDelta();
      return if ok then Some(generation) else None;
    }
  }
}
