/** The durable compaction lock and the open-turn marker, read back from the log
    (backend/pkg/compaction/compactor.go). */
module CompactionLock {
  import opened Wrappers
  import opened SessionEvents
  import opened EventStores

  datatype CompactionEntry = CompactionEntry(compactionId: string, startSeq: int)

  datatype EntryState = EntryState(
    openTurn: Option<nat>,
    unmatchedStart: Option<CompactionEntry>,
    latestEndSeed: Option<int>)

  // ---------------------------------------------------------------- the forward machine

  function StartEntry(e: Envelope): CompactionEntry {
    CompactionEntry(if e.data.CompactionStartData? then e.data.compactionId else "", e.seqNo)
  }

  /** The lock as a machine fed the log from its first event: a start takes it, an end or a
      constructor-seed boundary frees it. */
  function Lock(log: seq<Envelope>): Option<CompactionEntry> {
    if log == [] then None
    else
      var e := log[|log| - 1];
      match e.kind
      case CompactionStart => Some(StartEntry(e))
      case CompactionEnd => None
      case SessionEndSeed => None
      case _ => Lock(log[..|log| - 1])
  }

  function OpenTurn(log: seq<Envelope>): Option<nat> {
    if log == [] then None
    else
      var e := log[|log| - 1];
      match e.kind
      case TurnStart => Some(if e.data.TurnData? then e.data.turn else 0)
      case TurnEnd => None
      case _ => OpenTurn(log[..|log| - 1])
  }

  /** The lock is held exactly when some start has no end and no end-seed behind it. */
  lemma {:induction false} LockMeaning(log: seq<Envelope>)
    ensures Lock(log).Some? <==>
            exists k :: 0 <= k < |log| && log[k].kind.CompactionStart? &&
              forall m :: k < m < |log| ==> !log[m].kind.CompactionEnd? && !log[m].kind.SessionEndSeed?
    decreases |log|
  {
    if log != [] {
      var n := |log| - 1;
      LockMeaning(log[..n]);
      if Lock(log).Some? && !log[n].kind.CompactionStart? {
        var k :| 0 <= k < n && log[..n][k].kind.CompactionStart? &&
                 forall m :: k < m < n ==> !log[..n][m].kind.CompactionEnd? && !log[..n][m].kind.SessionEndSeed?;
        assert forall m :: k < m < n ==> log[m] == log[..n][m];
        assert log[k].kind.CompactionStart?;
      } else if Lock(log).Some? {
        assert log[n].kind.CompactionStart?;
      } else if log[n].kind != CompactionEnd && log[n].kind != SessionEndSeed {
        forall k | 0 <= k < |log| && log[k].kind.CompactionStart?
          ensures exists m :: k < m < |log| && (log[m].kind.CompactionEnd? || log[m].kind.SessionEndSeed?)
        {
          assert log[..n][k].kind.CompactionStart?;
          var m :| k < m < n && (log[..n][m].kind.CompactionEnd? || log[..n][m].kind.SessionEndSeed?);
          assert log[m] == log[..n][m];
        }
      }
    }
  }

  // ---------------------------------------------------------------- the backward scan

  /** The unmatched start left by the last compaction bracket event. */
  function LastBracket(log: seq<Envelope>): Option<CompactionEntry> {
    if log == [] then None
    else
      var e := log[|log| - 1];
      match e.kind
      case CompactionStart => Some(StartEntry(e))
      case CompactionEnd => None
      case _ => LastBracket(log[..|log| - 1])
  }

  function LastEndSeed(log: seq<Envelope>): Option<int> {
    if log == [] then None
    else
      var e := log[|log| - 1];
      if e.kind.SessionEndSeed? then Some(e.seqNo) else LastEndSeed(log[..|log| - 1])
  }

  method InspectCompactionEntryState(events: seq<Envelope>) returns (state: EntryState)
    ensures state == EntryState(OpenTurn(events), LastBracket(events), LastEndSeed(events))
  {
    state := EntryState(None, None, None);
    var bracketKnown, turnKnown := false, false;
    var index := |events|;
    assert events[..|events|] == events;
    while index > 0
      invariant 0 <= index <= |events|
      invariant LastBracket(events) == if bracketKnown then state.unmatchedStart else LastBracket(events[..index])
      invariant OpenTurn(events) == if turnKnown then state.openTurn else OpenTurn(events[..index])
      invariant LastEndSeed(events) ==
                if state.latestEndSeed.Some? then state.latestEndSeed else LastEndSeed(events[..index])
      invariant !bracketKnown ==> state.unmatchedStart.None?
      invariant !turnKnown ==> state.openTurn.None?
    {
      index := index - 1;
      var e := events[index];
      assert events[..index + 1][..index] == events[..index];
      if state.latestEndSeed.None? && e.kind.SessionEndSeed? {
        state := state.(latestEndSeed := Some(e.seqNo));
      }
      if !bracketKnown {
        if e.kind.CompactionStart? {
          state := state.(unmatchedStart := Some(StartEntry(e)));
          bracketKnown := true;
        } else if e.kind.CompactionEnd? {
          bracketKnown := true;
        }
      }
      if !turnKnown {
        if e.kind.TurnStart? {
          state := state.(openTurn := Some(if e.data.TurnData? then e.data.turn else 0));
          turnKnown := true;
        } else if e.kind.TurnEnd? {
          turnKnown := true;
        }
      }
      if turnKnown && bracketKnown && state.latestEndSeed.Some? {
        break;
      }
    }
  }

  predicate Superseded(state: EntryState) {
    && state.unmatchedStart.Some?
    && state.latestEndSeed.Some?
    && state.latestEndSeed.value > state.unmatchedStart.value.startSeq
  }

  /** `assertCompactionInactive`: no unmatched start, or one an end-seed has overtaken. */
  predicate Inactive(state: EntryState) {
    state.unmatchedStart.None? || Superseded(state)
  }

  method ActiveCompaction(events: seq<Envelope>) returns (r: Option<CompactionEntry>)
    requires Increasing(events)
    ensures r == Lock(events)
  {
    var state := InspectCompactionEntryState(events);
    ScanIsMachine(events);
    return if Inactive(state) then None else state.unmatchedStart;
  }

  lemma {:induction false} SeqsBelow(log: seq<Envelope>, bound: int)
    requires forall i :: 0 <= i < |log| ==> log[i].seqNo < bound
    ensures LastEndSeed(log).Some? ==> LastEndSeed(log).value < bound
    ensures LastBracket(log).Some? ==> LastBracket(log).value.startSeq < bound
    decreases |log|
  {
    if log != [] {
      SeqsBelow(log[..|log| - 1], bound);
    }
  }

  /** Scanning backwards for three markers and comparing two seqs gives the machine's answer. */
  lemma {:induction false} ScanIsMachine(log: seq<Envelope>)
    requires Increasing(log)
    ensures var state := EntryState(OpenTurn(log), LastBracket(log), LastEndSeed(log));
            Lock(log) == if Inactive(state) then None else state.unmatchedStart
    decreases |log|
  {
    if log != [] {
      var n := |log| - 1;
      ScanIsMachine(log[..n]);
      SeqsBelow(log[..n], log[n].seqNo);
    }
  }
}
