/** The durable store behind one session together with the counter that numbers its events
    (backend/pkg/agent/loop.go, backend/pkg/storage/store_sqlite.go).

    I/O is a sequence with an append that may fail: `faults` says which of the coming appends the
    disk refuses. A `strict` store is the SQLite one, which also refuses an event that does not
    carry the next stored seq; the bbolt store takes any. */
module EventStores {
  import opened Wrappers
  import opened SessionEvents

  ghost predicate Contig(log: seq<Envelope>) {
    forall i :: 0 <= i < |log| ==> log[i].seqNo == i
  }

  ghost predicate Increasing(log: seq<Envelope>) {
    && (forall i :: 0 <= i < |log| ==> 0 <= log[i].seqNo)
    && (forall i, j :: 0 <= i < j < |log| ==> log[i].seqNo < log[j].seqNo)
  }

  class EventStore {
    var log: seq<Envelope>
    var seqCounter: nat
    const strict: bool
    var faults: seq<bool>
    /** Which of the coming queries fail. */
    var readFaults: seq<bool>
    /** Some append failed since the store was opened. */
    ghost var lost: bool

    ghost predicate Valid()
      reads this
    {
      && Increasing(log)
      && (forall i :: 0 <= i < |log| ==> log[i].seqNo < seqCounter)
      && |log| <= seqCounter
      && (!lost ==> Contig(log) && seqCounter == |log|)
      && (strict ==> Contig(log))
      && (lost ==> |log| < seqCounter)
    }

    /** Opens a contiguous log; numbering resumes behind its tail. */
    constructor (log: seq<Envelope>, strict: bool, faults: seq<bool>, readFaults: seq<bool>)
      requires Contig(log)
      ensures Valid() && !lost
      ensures this.log == log && this.strict == strict && this.faults == faults && this.readFaults == readFaults
    {
      this.log := log;
      this.strict := strict;
      this.faults := faults;
      this.readFaults := readFaults;
      seqCounter := |log|;
      lost := false;
    }

    /** Numbers the event and tries to persist it. The seq is consumed either way, so after one
        failure a strict store refuses every later event of this lifecycle. */
    method Append(e: Envelope) returns (ok: bool, stamped: Envelope)
      requires Valid()
      modifies this`log, this`seqCounter, this`faults, this`lost
      ensures Valid()
      ensures stamped == e.(seqNo := old(seqCounter)) && seqCounter == old(seqCounter) + 1
      ensures log == old(log) + if ok then [stamped] else []
      ensures lost == (old(lost) || !ok)
      ensures strict && old(lost) ==> !ok
      ensures ok <==> (old(faults) == [] || !old(faults)[0]) && (strict ==> old(seqCounter) == |old(log)|)
      ensures faults == if old(faults) == [] then [] else old(faults)[1..]
    {
      stamped := e.(seqNo := seqCounter);
      seqCounter := seqCounter + 1;
      var refused := faults != [] && faults[0];
      faults := if faults == [] then [] else faults[1..];
      if refused || (strict && stamped.seqNo != |log|) {
        lost := true;
        return false, stamped;
      }
      log := log + [stamped];
      return true, stamped;
    }

    /** The stored events from `fromSeq` on, or `None` when the query fails. */
    method GetEvents(fromSeq: int) returns (r: Option<seq<Envelope>>)
      modifies this`readFaults
      ensures r.Some? <==> old(readFaults) == [] || !old(readFaults)[0]
      ensures r.Some? ==> r.value == From(log, fromSeq)
      ensures readFaults == if old(readFaults) == [] then [] else old(readFaults)[1..]
    {
      var refused := readFaults != [] && readFaults[0];
      readFaults := if readFaults == [] then [] else readFaults[1..];
      return if refused then None else Some(From(log, fromSeq));
    }
  }

  /** The events of a log numbered at least `fromSeq`, in log order. */
  function From(log: seq<Envelope>, fromSeq: int): seq<Envelope> {
    if log == [] then []
    else
      var n := |log| - 1;
      From(log[..n], fromSeq) + if log[n].seqNo >= fromSeq then [log[n]] else []
  }
}
