/** Framing of the event stream (backend/pkg/llm/sse.go, after section 9.2.6 of the WHATWG HTML standard):
    an event is dispatched at its blank line and nowhere else. */
module Sse {
  import opened Wrappers
  import Toml

  const MARK: string := "\U{FEFF}"

  /** What one physical line contributes. */
  datatype Line = Blank | DataLine(value: string) | Ignored

  /** Comments and other fields are skipped, and so is a data field without a value. */
  function Classify(line: string): Line {
    if line == "" then Blank
    else if line[0] == ':' then Ignored
    else if "data:" <= line then
      var v := Toml.Trim(line[5..]);
      if v != "" then DataLine(v) else Ignored
    else Ignored
  }

  function FirstLine(line: string): string {
    if MARK <= line then line[1..] else line
  }

  class SseEventBuffer {
    var data: seq<string>
    var first: bool
    /** The lines fed so far, as they count. */
    ghost var fed: seq<Line>

    ghost predicate Valid()
      reads this
    {
      data == Open(fed) && (first ==> fed == [])
    }

    constructor ()
      ensures Valid() && fed == [] && first
    {
      data, first, fed := [], true, [];
    }

    /** Feeds one line; a payload comes out exactly when the line ends an event that carried data. */
    method Accept(raw: string) returns (payload: Option<string>)
      requires Valid()
      modifies this
      ensures Valid() && !first
      ensures fed == old(fed) + [Classify(if old(first) then FirstLine(raw) else raw)]
      ensures Payloads(fed) == Payloads(old(fed)) + if payload.Some? then [payload.value] else []
    {
      var line := raw;
      if first {
        first := false;
        if MARK <= raw {
          line := raw[1..];
        }
      }
      assert (fed + [Classify(line)])[..|fed|] == fed;
      fed := fed + [Classify(line)];
      payload := None;
      if line == "" {
        if |data| == 0 {
          return;
        }
        payload := Some(JoinLines(data));
        data := [];
      } else if line[0] == ':' {
      } else if "data:" <= line {
        var v := Toml.Trim(line[5..]);
        if v != "" {
          data := data + [v];
        }
      }
    }

    /** At the end of the stream an event without its blank line is evidence of truncation. */
    predicate Pending()
      requires Valid()
      reads this
      ensures Pending() <==> Open(fed) != []
    {
      |data| > 0
    }
  }

  /** The data values since the last blank line. */
  function Open(lines: seq<Line>): seq<string> {
    if lines == [] then []
    else
      var n := |lines| - 1;
      match lines[n]
      case Blank => []
      case DataLine(v) => Open(lines[..n]) + [v]
      case Ignored => Open(lines[..n])
  }

  /** Everything dispatched by the lines, one by one. */
  function Payloads(lines: seq<Line>): seq<string> {
    if lines == [] then []
    else
      var n := |lines| - 1;
      Payloads(lines[..n]) + if lines[n].Blank? && Open(lines[..n]) != [] then [JoinLines(Open(lines[..n]))] else []
  }

  // ---------------------------------------------------------------- the stream as a list of events

  /** The data values among the lines of one event; skipped lines may stand anywhere around them. */
  function Values(lines: seq<Line>): seq<string> {
    if lines == [] then []
    else Values(lines[..|lines| - 1]) + if lines[|lines| - 1].DataLine? then [lines[|lines| - 1].value] else []
  }

  predicate NoBlank(lines: seq<Line>) {
    forall i :: 0 <= i < |lines| ==> !lines[i].Blank?
  }

  /** Complete events, each followed by its blank line. */
  function Wire(events: seq<seq<Line>>): seq<Line> {
    if events == [] then [] else Wire(events[..|events| - 1]) + events[|events| - 1] + [Blank]
  }

  /** What a receiver should get: one payload for each event that carries data. */
  function Meant(events: seq<seq<Line>>): seq<string> {
    if events == [] then []
    else
      var e := events[|events| - 1];
      Meant(events[..|events| - 1]) + if Values(e) == [] then [] else [JoinLines(Values(e))]
  }

  /** Lines without a blank dispatch nothing and only add to the open event. */
  lemma {:induction false} Accumulates(before: seq<Line>, lines: seq<Line>)
    requires NoBlank(lines)
    ensures Payloads(before + lines) == Payloads(before)
    ensures Open(before + lines) == Open(before) + Values(lines)
    decreases |lines|
  {
    if lines == [] {
      assert before + lines == before;
    } else {
      var n := |lines| - 1;
      var all := before + lines;
      assert all[..|all| - 1] == before + lines[..n];
      assert lines == lines[..n] + [lines[n]];
      Accumulates(before, lines[..n]);
    }
  }

  /** Exactly the complete events arrive, in order and whole; whatever follows the last blank line is not
      dispatched, even when it reads [DONE]. */
  lemma {:induction false} DispatchesCompleteEvents(events: seq<seq<Line>>, tail: seq<Line>)
    requires (forall i :: 0 <= i < |events| ==> NoBlank(events[i])) && NoBlank(tail)
    ensures Payloads(Wire(events) + tail) == Meant(events)
    ensures Open(Wire(events) + tail) == Values(tail)
    decreases |events|
  {
    Accumulates(Wire(events), tail);
    if events != [] {
      var n := |events| - 1;
      DispatchesCompleteEvents(events[..n], events[n]);
      var whole := Wire(events);
      assert whole[..|whole| - 1] == Wire(events[..n]) + events[n];
    } else {
      assert Wire(events) == [];
    }
  }
}
