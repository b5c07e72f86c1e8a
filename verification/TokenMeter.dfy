/** The fixed-density token estimate (backend/pkg/llm/tokenmeter.go) and the per-node meters built
    on it (backend/pkg/compaction/meter.go, backend/pkg/compaction/compactor.go). */
module TokenMeter {
  import opened Wrappers
  import opened SessionEvents
  import opened ToolPairing

  const CHARS_PER_TOKEN := 4
  const BLOCK_OVERHEAD := 4
  const ROLE_OVERHEAD := 4

  // ---------------------------------------------------------------- specification

  function CeilDiv(n: nat): nat {
    (n + CHARS_PER_TOKEN - 1) / CHARS_PER_TOKEN
  }

  function BlockTokens(b: ContentBlock): nat {
    match b
    case TextBlock(text) => CeilDiv(|text|) + BLOCK_OVERHEAD
    case ReasoningBlock(text) => CeilDiv(|text|) + BLOCK_OVERHEAD
    case ToolCallBlock(_, name, arguments) => CeilDiv(|name|) + CeilDiv(|arguments|) + BLOCK_OVERHEAD
    case ToolResultBlock(_, _, content) => ContentTokens(content) + BLOCK_OVERHEAD
    case OtherBlock(json) => BLOCK_OVERHEAD + CeilDiv(|json|)
  }

  function ContentTokens(blocks: seq<ContentBlock>): nat {
    if blocks == [] then 0
    else ContentTokens(blocks[..|blocks| - 1]) + BlockTokens(blocks[|blocks| - 1])
  }

  function MessageTokens(m: Message): nat {
    ContentTokens(m.content) + ROLE_OVERHEAD
  }

  /** `Heuristic` prices a node by its message; `Unit` is the engine without a meter. */
  datatype Meter = Heuristic | Unit

  /** The price of one surface node; `None` when it has no event or the event does not decode. */
  function NodePrice(meter: Meter, bySeq: map<int, Envelope>, q: int): Option<nat> {
    if meter.Unit? then Some(1)
    else if q !in bySeq then None
    else match ProjectEventMessage(bySeq[q])
      case Err(_) => None
      case Ok(None) => Some(0)
      case Ok(Some(m)) => Some(MessageTokens(m))
  }

  function Prices(meter: Meter, bySeq: map<int, Envelope>, nodes: seq<int>): (r: Option<seq<nat>>)
    ensures r.Some? ==> |r.value| == |nodes|
  {
    if nodes == [] then Some([])
    else
      var n := |nodes| - 1;
      var rest, last := Prices(meter, bySeq, nodes[..n]), NodePrice(meter, bySeq, nodes[n]);
      if rest.Some? && last.Some? then Some(rest.value + [last.value]) else None
  }

  function Sum(prices: seq<int>): int {
    if prices == [] then 0 else Sum(prices[..|prices| - 1]) + prices[|prices| - 1]
  }

  // ---------------------------------------------------------------- the loops of the source

  method EstimateContentTokens(blocks: seq<ContentBlock>) returns (tokens: nat)
    ensures tokens == ContentTokens(blocks)
    decreases blocks
  {
    tokens := 0;
    for i := 0 to |blocks|
      invariant tokens == ContentTokens(blocks[..i])
    {
      assert blocks[..i + 1][..i] == blocks[..i];
      match blocks[i] {
        case TextBlock(text) => tokens := tokens + CeilDiv(|text|) + BLOCK_OVERHEAD;
        case ReasoningBlock(text) => tokens := tokens + CeilDiv(|text|) + BLOCK_OVERHEAD;
        case ToolCallBlock(_, name, arguments) =>
          tokens := tokens + CeilDiv(|name|) + CeilDiv(|arguments|) + BLOCK_OVERHEAD;
        case ToolResultBlock(_, _, content) =>
          var nested := EstimateContentTokens(content);
          tokens := tokens + nested + BLOCK_OVERHEAD;
        case OtherBlock(json) => tokens := tokens + BLOCK_OVERHEAD + CeilDiv(|json|);
      }
    }
    assert blocks[..|blocks|] == blocks;
  }

  /** The floor of 1 the source keeps for an empty price is never reached: the role overhead alone
      is positive. */
  method EstimateMessageTokens(m: Message) returns (total: int)
    ensures total == MessageTokens(m)
  {
    var content := EstimateContentTokens(m.content);
    total := content + ROLE_OVERHEAD;
    total := if total == 0 then 1 else total;
  }

  /** What a node costs: one without a meter; under the meter its content and four more, or nothing when it
      says nothing. A node without an event, or with the payload of another kind, has no price. */
  lemma {:induction false} PricesMeaning(meter: Meter, bySeq: map<int, Envelope>, nodes: seq<int>)
    ensures Prices(meter, bySeq, nodes).Some? <==>
            meter.Unit? || forall i :: 0 <= i < |nodes| ==> nodes[i] in bySeq && !Misshapen(bySeq[nodes[i]])
    ensures Prices(meter, bySeq, nodes).Some? ==>
              forall i :: 0 <= i < |nodes| ==>
                Prices(meter, bySeq, nodes).value[i] ==
                if meter.Unit? then 1
                else if Speaks(bySeq[nodes[i]]) then ContentTokens(bySeq[nodes[i]].data.message.content) + 4 else 0
    decreases |nodes|
  {
    hide ProjectEventMessage, ContentTokens;
    if nodes != [] {
      var n := |nodes| - 1;
      PricesMeaning(meter, bySeq, nodes[..n]);
      if nodes[n] in bySeq {
        ProjectMeaning(bySeq[nodes[n]]);
      }
      assert forall i :: 0 <= i < n ==> nodes[..n][i] == nodes[i];
    }
  }

  /** How many characters, roundings and blocks a content has, nested ones included. */
  function BlockSize(b: ContentBlock): (nat, nat, nat) {
    match b
    case TextBlock(text) => (|text|, 1, 1)
    case ReasoningBlock(text) => (|text|, 1, 1)
    case ToolCallBlock(_, name, arguments) => (|name| + |arguments|, 2, 1)
    case ToolResultBlock(_, _, content) => var s := Size(content); (s.0, s.1, s.2 + 1)
    case OtherBlock(json) => (|json|, 1, 1)
  }

  function Size(blocks: seq<ContentBlock>): (nat, nat, nat) {
    if blocks == [] then (0, 0, 0)
    else
      var s, b := Size(blocks[..|blocks| - 1]), BlockSize(blocks[|blocks| - 1]);
      (s.0 + b.0, s.1 + b.1, s.2 + b.2)
  }

  /** The estimate is a quarter of the characters, each text rounded up, and four per block. */
  lemma {:induction false} TokensBound(blocks: seq<ContentBlock>)
    ensures var s := Size(blocks);
            s.0 <= 4 * (ContentTokens(blocks) - 4 * s.2) <= s.0 + 3 * s.1
    decreases blocks
  {
    if blocks != [] {
      var n := |blocks| - 1;
      TokensBound(blocks[..n]);
      if blocks[n].ToolResultBlock? {
        TokensBound(blocks[n].content);
      }
    }
  }

  method MeasureNodes(meter: Meter, events: seq<Envelope>, nodes: seq<int>) returns (r: Option<seq<nat>>)
    ensures r == Prices(meter, BySeq(events), nodes)
  {
    var bySeq := IndexBySeq(events);
    var out: seq<nat> := [];
    for i := 0 to |nodes|
      invariant Prices(meter, bySeq, nodes[..i]) == Some(out)
    {
      assert nodes[..i + 1][..i] == nodes[..i];
      var price: nat := 1;
      if meter.Heuristic? {
        if nodes[i] !in bySeq {
          PricesNone(meter, bySeq, nodes, i);
          return None;
        }
        var message := ProjectEventMessage(bySeq[nodes[i]]);
        if message.Err? {
          PricesNone(meter, bySeq, nodes, i);
          return None;
        }
        if message.value.None? {
          price := 0;
        } else {
          price := EstimateMessageTokens(message.value.value);
        }
      }
      out := out + [price];
    }
    assert nodes[..|nodes|] == nodes;
    return Some(out);
  }

  // ---------------------------------------------------------------- additivity

  lemma {:induction false} PricesNone(meter: Meter, bySeq: map<int, Envelope>, nodes: seq<int>, i: nat)
    requires i < |nodes| && NodePrice(meter, bySeq, nodes[i]).None?
    ensures Prices(meter, bySeq, nodes).None?
    decreases |nodes|
  {
    if i < |nodes| - 1 {
      PricesNone(meter, bySeq, nodes[..|nodes| - 1], i);
    }
  }

  lemma {:induction false} PricesAt(meter: Meter, bySeq: map<int, Envelope>, nodes: seq<int>, i: nat)
    requires i < |nodes| && Prices(meter, bySeq, nodes).Some?
    ensures NodePrice(meter, bySeq, nodes[i]) == Some(Prices(meter, bySeq, nodes).value[i])
    decreases |nodes|
  {
    if i < |nodes| - 1 {
      PricesAt(meter, bySeq, nodes[..|nodes| - 1], i);
    }
  }

  lemma {:induction false} PricesConcat(meter: Meter, bySeq: map<int, Envelope>, a: seq<int>, b: seq<int>)
    ensures Prices(meter, bySeq, a + b) ==
            var p, q := Prices(meter, bySeq, a), Prices(meter, bySeq, b);
            if p.Some? && q.Some? then Some(p.value + q.value) else None
    decreases |b|
  {
    hide NodePrice;
    if b == [] {
      assert a + b == a;
      var p := Prices(meter, bySeq, a);
      assert p.Some? ==> p.value + [] == p.value;
    } else {
      var n := |b| - 1;
      assert (a + b)[..|a + b| - 1] == a + b[..n];
      PricesConcat(meter, bySeq, a, b[..n]);
      var p, q := Prices(meter, bySeq, a), Prices(meter, bySeq, b[..n]);
      if p.Some? && q.Some? && NodePrice(meter, bySeq, b[n]).Some? {
        assert (p.value + q.value) + [NodePrice(meter, bySeq, b[n]).value] ==
               p.value + (q.value + [NodePrice(meter, bySeq, b[n]).value]);
      }
    }
  }

  lemma {:induction false} PricesSame(meter: Meter, m: map<int, Envelope>, m': map<int, Envelope>, nodes: seq<int>)
    requires forall i :: 0 <= i < |nodes| ==> nodes[i] in m && nodes[i] in m' && m[nodes[i]] == m'[nodes[i]]
    ensures Prices(meter, m, nodes) == Prices(meter, m', nodes)
    decreases |nodes|
  {
    if nodes != [] {
      PricesSame(meter, m, m', nodes[..|nodes| - 1]);
    }
  }

  lemma {:induction false} SumConcat(a: seq<int>, b: seq<int>)
    ensures Sum(a + b) == Sum(a) + Sum(b)
    decreases |b|
  {
    if b == [] {
      assert a + b == a;
    } else {
      assert (a + b)[..|a + b| - 1] == a + b[..|b| - 1];
      SumConcat(a, b[..|b| - 1]);
    }
  }
}
