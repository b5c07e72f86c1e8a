/** The downlink hub: registering before the history query, buffering live events while it runs, and
    ordering the snapshot before the buffer (backend/pkg/gateway/websocket_downlink.go).

    Connections are values named by an id; a socket is the list of frames written to it. Atomic steps
    are the critical sections of the hub lock. */
module Downlink {
  import opened Wrappers

  const QUEUE_MAX_FRAMES: nat := 1024
  const QUEUE_MAX_BYTES: nat := 4194304

  type ConnId = nat

  datatype Frame = Event(session: string, seqNo: int, size: nat) | Staged(id: string, size: nat)

  /** `sent` are the frames the writer took, `queue` the frames it has not taken yet. */
  datatype Conn = Conn(sent: seq<Frame>, queue: seq<Frame>, queueBytes: int, closed: bool)

  function Stream(d: Conn): seq<Frame> {
    d.sent + d.queue
  }

  /** Accepts a frame, or closes the slow connection when a bound is exceeded; never drops quietly. */
  function Enqueue(d: Conn, f: Frame): Conn {
    if d.closed then d
    else if |d.queue| >= QUEUE_MAX_FRAMES || d.queueBytes + f.size > QUEUE_MAX_BYTES then d.(closed := true)
    else d.(queue := d.queue + [f], queueBytes := d.queueBytes + f.size)
  }

  function EnqueueAll(d: Conn, fs: seq<Frame>): Conn {
    if fs == [] then d else Enqueue(EnqueueAll(d, fs[..|fs| - 1]), fs[|fs| - 1])
  }

  /** The bytes of some frames. */
  ghost function Sizes(fs: seq<Frame>): nat {
    if fs == [] then 0 else Sizes(fs[..|fs| - 1]) + fs[|fs| - 1].size
  }

  /** The byte count is that of the queued frames, and neither bound is exceeded. */
  ghost predicate Counted(d: Conn) {
    d.queueBytes == Sizes(d.queue) && |d.queue| <= 1024 && Sizes(d.queue) <= 4194304
  }

  /** The connection is open and its queue can take all of these frames: at most 1024 of them and 4 MiB. */
  ghost predicate Room(d: Conn, fs: seq<Frame>) {
    !d.closed && |d.queue| + |fs| <= 1024 && Sizes(d.queue) + Sizes(fs) <= 4194304
  }

  lemma {:induction false} SizesConcat(a: seq<Frame>, b: seq<Frame>)
    ensures Sizes(a + b) == Sizes(a) + Sizes(b)
    decreases |b|
  {
    if b == [] {
      assert a + b == a;
    } else {
      var n := |b| - 1;
      assert (a + b)[..|a| + n] == a + b[..n];
      SizesConcat(a, b[..n]);
    }
  }

  /** One frame: a connection with room takes exactly it and stays open, one without is closed with its
      queue as it was. */
  lemma EnqueueIff(d: Conn, f: Frame)
    requires Counted(d)
    ensures Counted(Enqueue(d, f)) && Enqueue(d, f).sent == d.sent
    ensures !Enqueue(d, f).closed <==> !d.closed && |d.queue| < 1024 && Sizes(d.queue) + f.size <= 4194304
    ensures Enqueue(d, f).queue == if Enqueue(d, f).closed then d.queue else d.queue + [f]
    ensures d.closed ==> Enqueue(d, f) == d
  {
    assert (d.queue + [f])[..|d.queue|] == d.queue;
  }

  /** Many frames: the connection is open afterwards exactly when it had room for all of them, and then has
      them all in order. */
  lemma {:induction false} EnqueueAllIff(d: Conn, fs: seq<Frame>)
    requires Counted(d)
    ensures Counted(EnqueueAll(d, fs)) && EnqueueAll(d, fs).sent == d.sent
    ensures !EnqueueAll(d, fs).closed <==> Room(d, fs)
    ensures Room(d, fs) ==> EnqueueAll(d, fs).queue == d.queue + fs
    decreases |fs|
  {
    hide Enqueue;
    if fs == [] {
      assert d.queue + fs == d.queue;
    } else {
      var n := |fs| - 1;
      EnqueueAllIff(d, fs[..n]);
      EnqueueIff(EnqueueAll(d, fs[..n]), fs[n]);
      if Room(d, fs[..n]) {
        SizesConcat(d.queue, fs[..n]);
        assert d.queue + fs[..n] + [fs[n]] == d.queue + fs;
      }
    }
  }

  /** An open connection without room for all the frames has those before the first it had no room for. */
  lemma {:induction false} EnqueueAllStops(d: Conn, fs: seq<Frame>)
    requires Counted(d) && !d.closed && !Room(d, fs)
    ensures exists k ::
              0 <= k < |fs| && Room(d, fs[..k]) && !Room(d, fs[..k + 1]) && EnqueueAll(d, fs).queue == d.queue + fs[..k]
    decreases |fs|
  {
    hide Enqueue, Room;
    var n := |fs| - 1;
    NoRoom(d, fs);
    EnqueueAllIff(d, fs[..n]);
    EnqueueIff(EnqueueAll(d, fs[..n]), fs[n]);
    assert fs[..n + 1] == fs;
    if Room(d, fs[..n]) {
      EnqueueAllIff(d, fs);
    } else {
      EnqueueAllStops(d, fs[..n]);
      var k :| 0 <= k < n && Room(d, fs[..n][..k]) && !Room(d, fs[..n][..k + 1]) && EnqueueAll(d, fs[..n]).queue == d.queue + fs[..n][..k];
      assert fs[..n][..k] == fs[..k] && fs[..n][..k + 1] == fs[..k + 1];
    }
  }

  /** A new connection is shown all staged frames, or closed when they exceed a bound. */
  lemma StagedFit(staged: seq<Frame>)
    ensures Counted(EnqueueAll(Conn([], [], 0, false), staged))
    ensures !EnqueueAll(Conn([], [], 0, false), staged).closed <==> |staged| <= 1024 && Sizes(staged) <= 4194304
    ensures |staged| <= 1024 && Sizes(staged) <= 4194304 ==> Stream(EnqueueAll(Conn([], [], 0, false), staged)) == staged
  {
    hide EnqueueAll;
    EnqueueAllIff(Conn([], [], 0, false), staged);
    assert Sizes([]) == 0;
  }

  lemma NoRoom(d: Conn, fs: seq<Frame>)
    requires Counted(d) && !d.closed && !Room(d, fs)
    ensures fs != []
  {
  }

  lemma {:induction false} EnqueueAllStream(d: Conn, fs: seq<Frame>)
    ensures EnqueueAll(d, fs).sent == d.sent
    ensures !EnqueueAll(d, fs).closed ==> !d.closed && Stream(EnqueueAll(d, fs)) == Stream(d) + fs
    decreases |fs|
  {
    if fs == [] {
      assert Stream(d) + fs == Stream(d);
    } else {
      EnqueueAllStream(d, fs[..|fs| - 1]);
      var before := EnqueueAll(d, fs[..|fs| - 1]);
      assert before.sent + (before.queue + [fs[|fs| - 1]]) == (before.sent + before.queue) + [fs[|fs| - 1]];
      assert fs == fs[..|fs| - 1] + [fs[|fs| - 1]];
    }
  }

  // ---------------------------------------------------------------- replay without duplicates

  function Seqs(es: seq<Frame>): set<int> {
    set i | 0 <= i < |es| && es[i].Event? && es[i].seqNo > 0 :: es[i].seqNo
  }

  /** History then buffer, each positive seq at its first occurrence only; seq 0 is never recognised. */
  function Dedup(es: seq<Frame>): seq<Frame> {
    if es == [] then []
    else
      var n := |es| - 1;
      if es[n].Event? && es[n].seqNo > 0 && es[n].seqNo in Seqs(es[..n]) then Dedup(es[..n])
      else Dedup(es[..n]) + [es[n]]
  }

  lemma SeqsSnoc(es: seq<Frame>, e: Frame)
    ensures Seqs(es + [e]) == Seqs(es) + if e.Event? && e.seqNo > 0 then {e.seqNo} else {}
  {
    var t := es + [e];
    forall q | q in Seqs(es) ensures q in Seqs(t) {
      var i :| 0 <= i < |es| && es[i].Event? && es[i].seqNo > 0 && es[i].seqNo == q;
      assert t[i] == es[i];
    }
    if e.Event? && e.seqNo > 0 {
      assert t[|es|] == e;
    }
    forall q | q in Seqs(t) ensures q in Seqs(es) || (e.Event? && e.seqNo > 0 && q == e.seqNo) {
      var i :| 0 <= i < |t| && t[i].Event? && t[i].seqNo > 0 && t[i].seqNo == q;
      if i < |es| {
        assert es[i] == t[i];
      }
    }
  }

  ghost predicate SamePositive(a: Frame, b: Frame) {
    a.Event? && b.Event? && a.seqNo == b.seqNo && a.seqNo > 0
  }

  lemma {:induction false} DedupKeeps(es: seq<Frame>, e: Frame)
    requires e in es
    ensures e in Dedup(es) || exists f :: f in Dedup(es) && SamePositive(e, f)
    decreases |es|
  {
    var n := |es| - 1;
    if e in es[..n] {
      DedupKeeps(es[..n], e);
      if e !in Dedup(es[..n]) {
        var f :| f in Dedup(es[..n]) && SamePositive(e, f);
        assert f in Dedup(es);
      }
    } else {
      assert e == es[n];
      if e.Event? && e.seqNo > 0 && e.seqNo in Seqs(es[..n]) {
        var i :| 0 <= i < |es[..n]| && es[..n][i].Event? && es[..n][i].seqNo > 0 && es[..n][i].seqNo == e.seqNo;
        DedupKeeps(es[..n], es[..n][i]);
      }
    }
  }

  lemma {:induction false} DedupSound(es: seq<Frame>)
    ensures forall e :: e in Dedup(es) ==> e in es
    ensures Seqs(Dedup(es)) == Seqs(es)
    ensures forall i, j :: 0 <= i < j < |Dedup(es)| ==> !SamePositive(Dedup(es)[i], Dedup(es)[j])
    decreases |es|
  {
    if es != [] {
      var n := |es| - 1;
      DedupSound(es[..n]);
      assert es == es[..n] + [es[n]];
      SeqsSnoc(es[..n], es[n]);
      SeqsSnoc(Dedup(es[..n]), es[n]);
      forall j | 0 <= j < |Dedup(es[..n])| && SamePositive(Dedup(es[..n])[j], es[n])
        ensures es[n].seqNo in Seqs(es[..n])
      {
        assert Dedup(es[..n])[j].seqNo in Seqs(Dedup(es[..n]));
      }
    }
  }

  /** No event is lost to deduplication exactly when no two different events share a positive seq: true
      inside one session, false across sessions, which is where a wildcard subscription loses events. */
  lemma DedupLosesNothingIff(es: seq<Frame>)
    ensures (forall e :: e in es ==> e in Dedup(es)) <==>
            (forall e, f :: e in es && f in es && SamePositive(e, f) ==> e == f)
  {
    DedupSound(es);
    if forall e, f :: e in es && f in es && SamePositive(e, f) ==> e == f {
      forall e | e in es ensures e in Dedup(es) {
        DedupKeeps(es, e);
      }
    }
    if forall e :: e in es ==> e in Dedup(es) {
      forall e, f | e in es && f in es && SamePositive(e, f) ensures e == f {
        var i :| 0 <= i < |Dedup(es)| && Dedup(es)[i] == e;
        var j :| 0 <= j < |Dedup(es)| && Dedup(es)[j] == f;
        assert !(i < j) && !(j < i);
      }
    }
  }

  // ---------------------------------------------------------------- the history of one session

  /** An event the subscription asked for. */
  ghost predicate Mine(e: Frame, sub: string, from: int) {
    e.Event? && e.session == sub && e.seqNo >= from
  }

  /** No session has two events with the same seq; seqs are never negative. */
  ghost predicate Unique(es: seq<Frame>) {
    && (forall i :: 0 <= i < |es| ==> es[i].Event? && es[i].seqNo >= 0)
    && (forall i, j :: 0 <= i < j < |es| && es[i].session == es[j].session ==> es[i].seqNo != es[j].seqNo)
  }

  /** Each session's events were stored in seq order, as the SQLite store enforces. */
  ghost predicate Ordered(es: seq<Frame>) {
    && (forall i :: 0 <= i < |es| ==> es[i].Event? && es[i].seqNo >= 0)
    && (forall i, j :: 0 <= i < j < |es| && es[i].session == es[j].session ==> es[i].seqNo < es[j].seqNo)
  }

  ghost predicate OfSession(es: seq<Frame>, s: string) {
    forall i :: 0 <= i < |es| ==> es[i].Event? && es[i].session == s
  }

  ghost predicate Sorted(es: seq<Frame>) {
    forall i, j :: 0 <= i < j < |es| && es[i].Event? && es[j].Event? ==> es[i].seqNo < es[j].seqNo
  }

  ghost predicate Within(es: seq<Frame>, whole: seq<Frame>) {
    forall e :: e in es ==> e in whole
  }

  function Insert(es: seq<Frame>, e: Frame): seq<Frame>
    requires e.Event?
  {
    if es == [] then [e]
    else
      var n := |es| - 1;
      if es[n].Event? && es[n].seqNo > e.seqNo then Insert(es[..n], e) + [es[n]] else es + [e]
  }

  lemma {:induction false} InsertFacts(es: seq<Frame>, e: Frame)
    requires e.Event?
    ensures forall f :: f in Insert(es, e) <==> f in es || f == e
    ensures |Insert(es, e)| == |es| + 1
    ensures Sorted(es) && (forall f :: f in es ==> f.Event? && f.seqNo != e.seqNo) ==> Sorted(Insert(es, e))
    decreases |es|
  {
    if es != [] {
      var n := |es| - 1;
      assert es == es[..n] + [es[n]];
      if es[n].Event? && es[n].seqNo > e.seqNo {
        InsertFacts(es[..n], e);
        var r := Insert(es[..n], e);
        if Sorted(es) && (forall f :: f in es ==> f.Event? && f.seqNo != e.seqNo) {
          forall i | 0 <= i < |r| && r[i].Event? ensures r[i].seqNo < es[n].seqNo {
            assert r[i] in r;
          }
        }
      }
    }
  }

  /** The history query: the wanted events stored so far, by seq. */
  function Select(stored: seq<Frame>, s: string, from: int): seq<Frame> {
    if stored == [] then []
    else
      var n := |stored| - 1;
      var e := stored[n];
      if e.Event? && e.session == s && e.seqNo >= from then Insert(Select(stored[..n], s, from), e)
      else Select(stored[..n], s, from)
  }

  lemma {:induction false} SelectMembers(stored: seq<Frame>, s: string, from: int)
    ensures forall e :: e in Select(stored, s, from) <==> e in stored && Mine(e, s, from)
    decreases |stored|
  {
    if stored != [] {
      var n := |stored| - 1;
      SelectMembers(stored[..n], s, from);
      assert stored == stored[..n] + [stored[n]];
      if Mine(stored[n], s, from) {
        InsertFacts(Select(stored[..n], s, from), stored[n]);
      }
    }
  }

  lemma {:induction false} SelectSorted(stored: seq<Frame>, s: string, from: int)
    requires Unique(stored)
    ensures Sorted(Select(stored, s, from))
    decreases |stored|
  {
    hide Insert;
    if stored != [] {
      var n := |stored| - 1;
      SelectSorted(stored[..n], s, from);
      SelectMembers(stored[..n], s, from);
      var sel := Select(stored[..n], s, from);
      if Mine(stored[n], s, from) {
        forall f | f in sel ensures f.Event? && f.seqNo != stored[n].seqNo {
          var k :| 0 <= k < n && stored[..n][k] == f;
          assert stored[k] == f;
        }
        InsertFacts(sel, stored[n]);
      }
    }
  }

  /** The query returns exactly the stored events of the session from the start on, by seq, whatever the
      order they were stored in. */
  lemma SelectFacts(stored: seq<Frame>, s: string, from: int)
    ensures forall e :: e in Select(stored, s, from) <==> e in stored && Mine(e, s, from)
    ensures OfSession(Select(stored, s, from), s)
    ensures Unique(stored) ==> Sorted(Select(stored, s, from)) && Rising(Select(stored, s, from))
  {
    hide Unique, Select;
    SelectMembers(stored, s, from);
    forall i | 0 <= i < |Select(stored, s, from)| ensures Mine(Select(stored, s, from)[i], s, from) {
      assert Select(stored, s, from)[i] in Select(stored, s, from);
    }
    if Unique(stored) {
      SelectSorted(stored, s, from);
    }
  }

  // ---------------------------------------------------------------- the order of a replay

  /** Positive seqs strictly increase. */
  ghost predicate Rising(es: seq<Frame>) {
    forall i, j :: 0 <= i < j < |es| && es[i].Event? && es[j].Event? && es[i].seqNo > 0 && es[j].seqNo > 0 ==>
      es[i].seqNo < es[j].seqNo
  }

  lemma {:induction false} SeqsConcat(a: seq<Frame>, b: seq<Frame>)
    ensures Seqs(a + b) == Seqs(a) + Seqs(b)
    decreases |b|
  {
    if b == [] {
      assert a + b == a;
    } else {
      var n := |b| - 1;
      assert a + b == (a + b[..n]) + [b[n]] && b == b[..n] + [b[n]];
      SeqsConcat(a, b[..n]);
      SeqsSnoc(a + b[..n], b[n]);
      SeqsSnoc(b[..n], b[n]);
    }
  }

  lemma RisingIsNew(es: seq<Frame>, n: nat)
    requires Rising(es) && n < |es| && es[n].Event? && es[n].seqNo > 0
    ensures es[n].seqNo !in Seqs(es[..n])
  {
    forall i | 0 <= i < n && es[i].Event? && es[i].seqNo > 0 ensures es[..n][i].seqNo < es[n].seqNo {
    }
  }

  lemma {:induction false} DedupOfRising(es: seq<Frame>)
    requires Rising(es)
    ensures Dedup(es) == es
    decreases |es|
  {
    if es != [] {
      var n := |es| - 1;
      DedupOfRising(es[..n]);
      if es[n].Event? && es[n].seqNo > 0 {
        RisingIsNew(es, n);
      }
    }
  }

  lemma DedupSnoc(es: seq<Frame>, e: Frame)
    ensures Dedup(es + [e]) == if e.Event? && e.seqNo > 0 && e.seqNo in Seqs(es) then Dedup(es) else Dedup(es) + [e]
  {
    assert (es + [e])[..|es|] == es;
  }

  /** The buffered event at `j` is the first of its positive seq and the snapshot does not cover it. */
  ghost predicate Leads(pending: seq<Frame>, seen: set<int>, j: nat)
    requires j < |pending|
  {
    pending[j].Event? && pending[j].seqNo > 0 && pending[j].seqNo !in seen && pending[j].seqNo !in Seqs(pending[..j])
  }

  /** What the buffer adds to a replay that has already sent `seen`. */
  ghost function Uncovered(pending: seq<Frame>, seen: set<int>): seq<Frame> {
    if pending == [] then []
    else
      var n := |pending| - 1;
      if pending[n].Event? && pending[n].seqNo > 0 && !Leads(pending, seen, n) then Uncovered(pending[..n], seen)
      else Uncovered(pending[..n], seen) + [pending[n]]
  }

  lemma LeadsPrefix(pending: seq<Frame>, seen: set<int>, n: nat, j: nat)
    requires j < n <= |pending|
    ensures Leads(pending[..n], seen, j) <==> Leads(pending, seen, j)
  {
    assert pending[..n][..j] == pending[..j];
  }

  /** For one session the replay is the whole snapshot followed by what the buffer adds to it. */
  lemma {:induction false} DedupSplits(history: seq<Frame>, pending: seq<Frame>)
    requires Rising(history)
    ensures Dedup(history + pending) == history + Uncovered(pending, Seqs(history))
    decreases |pending|
  {
    hide Seqs, Dedup, Rising;
    if pending == [] {
      assert history + pending == history;
      DedupOfRising(history);
    } else {
      var n := |pending| - 1;
      assert history + pending == (history + pending[..n]) + [pending[n]] && pending == pending[..n] + [pending[n]];
      DedupSplits(history, pending[..n]);
      SeqsConcat(history, pending[..n]);
      DedupSnoc(history + pending[..n], pending[n]);
    }
  }

  lemma {:induction false} UncoveredMembers(pending: seq<Frame>, seen: set<int>)
    ensures forall e :: e in Uncovered(pending, seen) && e.Event? && e.seqNo > 0 ==>
              exists j :: 0 <= j < |pending| && Leads(pending, seen, j) && pending[j] == e
    ensures forall j :: 0 <= j < |pending| && Leads(pending, seen, j) ==> pending[j] in Uncovered(pending, seen)
    decreases |pending|
  {
    hide Seqs, Leads;
    if pending != [] {
      var n := |pending| - 1;
      var before := pending[..n];
      UncoveredMembers(before, seen);
      forall j | 0 <= j < n ensures Leads(before, seen, j) <==> Leads(pending, seen, j) {
        LeadsPrefix(pending, seen, n, j);
      }
      forall e | e in Uncovered(pending, seen) && e.Event? && e.seqNo > 0
        ensures exists j :: 0 <= j < |pending| && Leads(pending, seen, j) && pending[j] == e
      {
        if e in Uncovered(before, seen) {
          var j :| 0 <= j < |before| && Leads(before, seen, j) && before[j] == e;
          assert Leads(pending, seen, j) && pending[j] == e;
        } else {
          assert e == pending[n] && Leads(pending, seen, n);
        }
      }
      LeadIsEvent(pending, seen, n);
    }
  }

  lemma LeadIsEvent(pending: seq<Frame>, seen: set<int>, j: nat)
    requires j < |pending|
    ensures Leads(pending, seen, j) ==> pending[j].Event? && pending[j].seqNo > 0 && pending[j].seqNo !in seen
  {
  }

  /** The newly buffered event `n` goes below something already sent: an event of the snapshot, or an
      earlier event of the buffer. */
  ghost predicate FallsAt(history: seq<Frame>, pending: seq<Frame>, n: nat)
    requires n < |pending|
  {
    && Leads(pending, Seqs(history), n)
    && ((exists h :: h in history && h.Event? && pending[n].seqNo < h.seqNo)
        || (exists i :: 0 <= i < n && Leads(pending, Seqs(history), i) && pending[n].seqNo < pending[i].seqNo))
  }

  lemma FallsPrefix(history: seq<Frame>, pending: seq<Frame>, n: nat, j: nat)
    requires j < n <= |pending|
    ensures FallsAt(history, pending[..n], j) <==> FallsAt(history, pending, j)
  {
    hide Seqs, Leads;
    forall i | 0 <= i <= j ensures Leads(pending[..n], Seqs(history), i) <==> Leads(pending, Seqs(history), i) {
      LeadsPrefix(pending, Seqs(history), n, i);
    }
  }

  /** The replay over any buffer, in whatever order and however often its events were published, is
      strictly increasing exactly when no event it adds goes below the snapshot or an event added before. */
  lemma {:induction false} ReplayRisingIff(history: seq<Frame>, pending: seq<Frame>)
    requires Rising(history)
    ensures Rising(Dedup(history + pending)) <==> forall n :: 0 <= n < |pending| ==> !FallsAt(history, pending, n)
    decreases |pending|
  {
    hide Dedup, Seqs, Uncovered, FallsAt, Rising;
    DedupSplits(history, pending);
    if pending == [] {
      UncoveredNone(Seqs(history));
      assert history + [] == history;
    } else {
      var n := |pending| - 1;
      var before := pending[..n];
      ReplayRisingIff(history, before);
      DedupSplits(history, before);
      forall j | 0 <= j < n ensures FallsAt(history, before, j) <==> FallsAt(history, pending, j) {
        FallsPrefix(history, pending, n, j);
      }
      AddRising(history, pending);
    }
  }

  lemma UncoveredNone(seen: set<int>)
    ensures Uncovered([], seen) == []
  {
  }

  /** One more buffered event keeps the replay rising exactly when it does not fall. */
  lemma AddRising(history: seq<Frame>, pending: seq<Frame>)
    requires pending != []
    ensures var n := |pending| - 1;
            var sent := history + Uncovered(pending[..n], Seqs(history));
            Rising(history + Uncovered(pending, Seqs(history))) <==> Rising(sent) && !FallsAt(history, pending, n)
  {
    hide Seqs, Rising;
    var n, seen := |pending| - 1, Seqs(history);
    var before := pending[..n];
    var sent := history + Uncovered(before, seen);
    var p := pending[n];
    if p.Event? && p.seqNo > 0 && !Leads(pending, seen, n) {
      assert Uncovered(pending, seen) == Uncovered(before, seen);
    } else {
      assert history + Uncovered(pending, seen) == sent + [p];
      RisingSnoc(sent, p);
      if p.Event? && p.seqNo > 0 {
        NewBelow(history, pending);
      }
    }
  }

  lemma RisingSnoc(es: seq<Frame>, p: Frame)
    ensures Rising(es + [p]) <==>
            Rising(es) && (p.Event? && p.seqNo > 0 ==> forall e :: e in es && e.Event? && e.seqNo > 0 ==> e.seqNo < p.seqNo)
  {
    var t := es + [p];
    assert forall i :: 0 <= i < |es| ==> t[i] == es[i];
    if Rising(t) {
      assert Rising(es);
      forall e | e in es && e.Event? && e.seqNo > 0 && p.Event? && p.seqNo > 0 ensures e.seqNo < p.seqNo {
        var i :| 0 <= i < |es| && es[i] == e;
        assert t[i] == e && t[|es|] == p;
      }
    }
  }

  /** A leading event is not above everything sent before it exactly when it falls. */
  lemma NewBelow(history: seq<Frame>, pending: seq<Frame>)
    requires pending != [] && Leads(pending, Seqs(history), |pending| - 1)
    ensures var n := |pending| - 1;
            var sent := history + Uncovered(pending[..n], Seqs(history));
            (forall e :: e in sent && e.Event? && e.seqNo > 0 ==> e.seqNo < pending[n].seqNo) <==> !FallsAt(history, pending, n)
  {
    hide Uncovered;
    var n, seen := |pending| - 1, Seqs(history);
    var before := pending[..n];
    var sent := history + Uncovered(before, seen);
    UncoveredMembers(before, seen);
    forall j | 0 <= j < n ensures Leads(before, seen, j) <==> Leads(pending, seen, j) {
      LeadsPrefix(pending, seen, n, j);
    }
    if FallsAt(history, pending, n) {
      if h :| h in history && h.Event? && pending[n].seqNo < h.seqNo {
        assert h in sent;
      } else {
        var i :| 0 <= i < n && Leads(pending, seen, i) && pending[n].seqNo < pending[i].seqNo;
        assert before[i] in Uncovered(before, seen) && before[i] in sent;
      }
    } else {
      forall e | e in sent && e.Event? && e.seqNo > 0 ensures e.seqNo < pending[n].seqNo {
        if e in history {
          var k :| 0 <= k < |history| && history[k] == e;
          assert e.seqNo in seen;
        } else {
          var j :| 0 <= j < n && Leads(before, seen, j) && before[j] == e;
          assert e.seqNo in Seqs(before) by {
            assert before[j].seqNo == e.seqNo;
          }
        }
      }
    }
  }

  /** A buffered event lies behind the requested start while the snapshot holds a positive seq. */
  ghost predicate BehindCursor(history: seq<Frame>, pending: seq<Frame>, from: int) {
    && (exists h :: h in history && h.Event? && h.seqNo > 0)
    && exists p :: p in pending && p.Event? && 0 < p.seqNo < from
  }

  /** The events the buffer adds to a snapshot are in seq order. */
  ghost predicate AddsInOrder(history: seq<Frame>, pending: seq<Frame>) {
    forall i, j :: 0 <= i < j < |pending| && Leads(pending, Seqs(history), i) && Leads(pending, Seqs(history), j) ==>
      pending[i].seqNo < pending[j].seqNo
  }

  /** Over a store that keeps each session in seq order, a replay fails to be increasing in exactly two
      ways: a buffered event lies behind the requested start, or behind an earlier buffered one. */
  lemma StoredRisingIff(stored: seq<Frame>, cut: nat, s: string, from: int, pending: seq<Frame>)
    requires Ordered(stored) && cut <= |stored|
    requires OfSession(pending, s) && Within(pending, stored)
    ensures var history := Select(stored[..cut], s, from);
            Rising(Dedup(history + pending)) <==> !BehindCursor(history, pending, from) && AddsInOrder(history, pending)
  {
    hide Dedup, Select, Seqs, Leads, Rising, Sorted, Ordered, FallsAt, BehindCursor, AddsInOrder, OfSession, Within, Unique;
    var history := Select(stored[..cut], s, from);
    OrderedUnique(stored, cut);
    SelectFacts(stored[..cut], s, from);
    ReplayRisingIff(history, pending);
    if BehindCursor(history, pending, from) {
      CursorFalls(stored, cut, s, from, pending);
    }
    if !AddsInOrder(history, pending) {
      DisorderFalls(history, pending);
    }
    forall n | 0 <= n < |pending| && FallsAt(history, pending, n)
      ensures BehindCursor(history, pending, from) || !AddsInOrder(history, pending)
    {
      FallsOnlySo(stored, cut, s, from, pending, n);
    }
  }

  lemma CursorFalls(stored: seq<Frame>, cut: nat, s: string, from: int, pending: seq<Frame>)
    requires cut <= |stored| && BehindCursor(Select(stored[..cut], s, from), pending, from)
    ensures exists n :: 0 <= n < |pending| && FallsAt(Select(stored[..cut], s, from), pending, n)
  {
    hide Select, Seqs, Leads, Rising, Unique;
    var history := Select(stored[..cut], s, from);
    SelectFacts(stored[..cut], s, from);
    var p :| p in pending && p.Event? && 0 < p.seqNo < from;
    var j := FirstOf(pending, Seqs(history), p, from, history);
    assert FallsAt(history, pending, j);
  }

  lemma DisorderFalls(history: seq<Frame>, pending: seq<Frame>)
    requires !AddsInOrder(history, pending)
    ensures exists n :: 0 <= n < |pending| && FallsAt(history, pending, n)
  {
    hide Seqs;
    var i, j :| 0 <= i < j < |pending| && Leads(pending, Seqs(history), i) && Leads(pending, Seqs(history), j) &&
                pending[i].Event? && pending[j].Event? && pending[i].seqNo >= pending[j].seqNo;
    LeadsDiffer(pending, Seqs(history), i, j);
    assert FallsAt(history, pending, j);
  }

  lemma FallsOnlySo(stored: seq<Frame>, cut: nat, s: string, from: int, pending: seq<Frame>, n: nat)
    requires Ordered(stored) && cut <= |stored| && OfSession(pending, s) && Within(pending, stored)
    requires n < |pending| && FallsAt(Select(stored[..cut], s, from), pending, n)
    ensures BehindCursor(Select(stored[..cut], s, from), pending, from) ||
            !AddsInOrder(Select(stored[..cut], s, from), pending)
  {
    hide Select, Seqs, Leads, Ordered;
    var history := Select(stored[..cut], s, from);
    LeadIsEvent(pending, Seqs(history), n);
    assert pending[n] in pending;
    if h :| h in history && h.Event? && pending[n].seqNo < h.seqNo {
      BelowSnapshot(stored, cut, s, from, pending[n]);
      assert BehindCursor(history, pending, from);
    }
  }

  lemma OrderedUnique(es: seq<Frame>, cut: nat)
    requires Ordered(es) && cut <= |es|
    ensures Unique(es[..cut])
  {
  }

  lemma LeadsDiffer(pending: seq<Frame>, seen: set<int>, i: nat, j: nat)
    requires i < j < |pending| && Leads(pending, seen, i) && Leads(pending, seen, j)
    ensures pending[i].seqNo != pending[j].seqNo
  {
    assert pending[..j][i].seqNo in Seqs(pending[..j]);
  }

  /** A buffered seq behind the requested start leads somewhere in the buffer. */
  lemma {:induction false} FirstOf(pending: seq<Frame>, seen: set<int>, p: Frame, from: int,
                                   history: seq<Frame>) returns (j: nat)
    requires p in pending && p.Event? && 0 < p.seqNo < from && seen == Seqs(history)
    requires forall h :: h in history ==> h.Event? && h.seqNo >= from
    ensures j < |pending| && Leads(pending, seen, j) && pending[j].seqNo == p.seqNo
    decreases |pending|
  {
    var n := |pending| - 1;
    if q :| q in pending[..n] && q.Event? && q.seqNo == p.seqNo {
      j := FirstOf(pending[..n], seen, q, from, history);
      LeadsPrefix(pending, seen, n, j);
    } else {
      j := n;
      assert pending[n] == p;
      forall i | 0 <= i < n && pending[..n][i].Event? ensures pending[..n][i].seqNo != p.seqNo {
        assert pending[..n][i] in pending[..n];
      }
      forall i | 0 <= i < |history| && history[i].Event? ensures history[i].seqNo != p.seqNo {
        assert history[i] in history;
      }
    }
  }

  /** An event the snapshot misses is below some event of it exactly when it is behind the start. */
  lemma BelowSnapshot(stored: seq<Frame>, cut: nat, s: string, from: int, p: Frame)
    requires Ordered(stored) && cut <= |stored| && p in stored && p.Event? && p.session == s
    requires p.seqNo > 0 && p.seqNo !in Seqs(Select(stored[..cut], s, from))
    ensures var history := Select(stored[..cut], s, from);
            (exists h :: h in history && h.Event? && p.seqNo < h.seqNo) <==>
            p.seqNo < from && exists h :: h in history && h.Event? && h.seqNo > 0
  {
    hide Select, Seqs, Rising, Sorted;
    var history := Select(stored[..cut], s, from);
    SelectFacts(stored[..cut], s, from);
    if p.seqNo >= from {
      UncoveredIsLater(stored, cut, s, from, p);
    } else {
      forall h | h in history ensures h.seqNo >= from {
      }
    }
  }

  lemma SelectedSeq(stored: seq<Frame>, cut: nat, s: string, from: int, k: nat)
    requires k < cut <= |stored| && stored[k].Event? && stored[k].session == s && stored[k].seqNo >= from
    requires stored[k].seqNo > 0
    ensures stored[k].seqNo in Seqs(Select(stored[..cut], s, from))
  {
    hide Select;
    var history := Select(stored[..cut], s, from);
    SelectFacts(stored[..cut], s, from);
    assert stored[k] == stored[..cut][k] && Mine(stored[k], s, from);
    assert stored[k] in history;
    var i :| 0 <= i < |history| && history[i] == stored[k];
    assert history[i].seqNo in Seqs(history);
  }

  /** An event at or above the cursor that the snapshot misses was stored after the snapshot. */
  lemma UncoveredIsLater(stored: seq<Frame>, cut: nat, s: string, from: int, e: Frame)
    requires Ordered(stored) && cut <= |stored| && e in stored && e.Event? && e.session == s && e.seqNo >= from
    requires e.seqNo > 0 && e.seqNo !in Seqs(Select(stored[..cut], s, from))
    ensures forall h :: h in Select(stored[..cut], s, from) ==> h.Event? && h.seqNo < e.seqNo
  {
    hide Select, Seqs, Rising, Sorted;
    SelectFacts(stored[..cut], s, from);
    var k :| 0 <= k < |stored| && stored[k] == e;
    if k < cut {
      SelectedSeq(stored, cut, s, from, k);
    }
    forall h | h in Select(stored[..cut], s, from) ensures h.Event? && h.seqNo < e.seqNo {
      var i :| 0 <= i < cut && stored[..cut][i] == h;
      assert stored[i] == h;
    }
  }

  // ---------------------------------------------------------------- the hub

  /** The hub sends an event to wildcard subscribers and to those of its session. */
  predicate Targets(sub: string, session: string) {
    sub == "" || sub == session
  }

  ghost predicate OnlyStaged(es: seq<Frame>) {
    forall e :: e in es ==> e.Staged?
  }

  /** A connection still replaying: its buffer holds exactly the events of its session published since it
      registered; and once the snapshot is taken every published event the client wants is in the snapshot
      or the buffer. */
  ghost predicate PendingOk(sub: string, from: int, d: Conn, pending: seq<Frame>, cut: Option<nat>, stored: seq<Frame>,
                            published: seq<Frame>, reg: nat)
  {
    && reg <= |published| && OnlyStaged(Stream(d))
    && OfSession(pending, sub) && Within(pending, published[reg..])
    && (forall e :: e in published[reg..] && e.Event? && e.session == sub ==> e in pending)
    && (cut.Some? ==>
          && cut.value <= |stored|
          && forall e :: e in published && Mine(e, sub, from) ==>
             e in Select(stored[..cut.value], sub, from) || e in pending)
  }

  /** A live connection that was not closed: it has every event of its session published since it
      registered; after a successful query every wanted event ever published, after a failed one no event
      published only before. */
  ghost predicate LiveOk(sub: string, from: int, d: Conn, published: seq<Frame>, reg: nat, failed: bool) {
    && reg <= |published|
    && (!d.closed ==>
          && (forall e :: e in published[reg..] && e.Event? && e.session == sub ==> e in Stream(d))
          && (!failed ==> GapFree(sub, from, d, published))
          && (failed ==> forall e :: e in Stream(d) && e.Event? ==> e in published[reg..]))
  }

  /** How a connection came to be: the requested start, how many events had been published when it
      registered, and how far its history query saw, or that the query failed. */
  datatype Origin = Origin(from: int, reg: nat, cut: Option<nat>, failed: bool)

  /** What holds of one connection: `waiting` is its buffer while it replays. */
  ghost predicate ConnHolds(sub: string, d: Conn, waiting: Option<seq<Frame>>, o: Origin, stored: seq<Frame>,
                            published: seq<Frame>)
  {
    sub != "" ==>
      if waiting.Some? then PendingOk(sub, o.from, d, waiting.value, o.cut, stored, published, o.reg)
      else LiveOk(sub, o.from, d, published, o.reg, o.failed)
  }

  /** Everything published that the client asked for is in its stream. */
  ghost predicate GapFree(sub: string, from: int, d: Conn, published: seq<Frame>) {
    forall e :: e in published && Mine(e, sub, from) ==> e in Stream(d)
  }

  /** A connection that was not closed has no gap exactly when its history query succeeded, or every wanted
      event published before it registered was published again since: when nothing is published twice, exactly
      when no wanted event came before. */
  lemma GapFreeIff(sub: string, from: int, d: Conn, published: seq<Frame>, reg: nat, failed: bool)
    requires LiveOk(sub, from, d, published, reg, failed) && !d.closed
    ensures GapFree(sub, from, d, published) <==>
            !failed || forall e :: e in published[..reg] && Mine(e, sub, from) ==> e in published[reg..]
    ensures (forall i, j :: 0 <= i < j < |published| ==> published[i] != published[j]) ==>
              (GapFree(sub, from, d, published) <==> !failed || forall e :: e in published[..reg] ==> !Mine(e, sub, from))
  {
    assert published == published[..reg] + published[reg..];
  }

  /** A connection after one event was published: `subs` are the registered subscriptions, `waiting` the
      connections still replaying. */
  function AfterConn(subs: map<ConnId, string>, waiting: set<ConnId>, c: ConnId, e: Frame, d: Conn): Conn
    requires e.Event?
  {
    if c in subs && Targets(subs[c], e.session) && c !in waiting then Enqueue(d, e) else d
  }

  function AfterPending(subs: map<ConnId, string>, c: ConnId, e: Frame, pending: seq<Frame>): seq<Frame>
    requires e.Event?
  {
    if c in subs && Targets(subs[c], e.session) then pending + [e] else pending
  }

  /** A fan-out that still has the connections in `todo` to reach. */
  ghost predicate ConnsPartly(subs: map<ConnId, string>, waiting: set<ConnId>, e: Frame, todo: set<ConnId>,
                              before: map<ConnId, Conn>, now: map<ConnId, Conn>)
    requires e.Event?
  {
    && now.Keys == before.Keys
    && forall c <- now.Keys :: now[c] == if c in todo then before[c] else AfterConn(subs, waiting, c, e, before[c])
  }

  ghost predicate PendingPartly(subs: map<ConnId, string>, e: Frame, todo: set<ConnId>,
                                before: map<ConnId, seq<Frame>>, now: map<ConnId, seq<Frame>>)
    requires e.Event?
  {
    && now.Keys == before.Keys
    && forall c <- now.Keys :: now[c] == if c in todo then before[c] else AfterPending(subs, c, e, before[c])
  }

  lemma NoneReached(subs: map<ConnId, string>, waiting: set<ConnId>, e: Frame, conns: map<ConnId, Conn>,
                    pending: map<ConnId, seq<Frame>>)
    requires e.Event?
    ensures ConnsPartly(subs, waiting, e, subs.Keys, conns, conns)
    ensures PendingPartly(subs, e, subs.Keys, pending, pending)
  {
    hide Enqueue;
  }

  lemma ReachConn(subs: map<ConnId, string>, waiting: set<ConnId>, e: Frame, todo: set<ConnId>,
                  before: map<ConnId, Conn>, now: map<ConnId, Conn>, c: ConnId)
    requires e.Event? && c in now && c in todo && ConnsPartly(subs, waiting, e, todo, before, now)
    ensures ConnsPartly(subs, waiting, e, todo - {c}, before, now[c := AfterConn(subs, waiting, c, e, now[c])])
  {
    hide AfterConn;
  }

  lemma ReachPending(subs: map<ConnId, string>, e: Frame, todo: set<ConnId>, before: map<ConnId, seq<Frame>>,
                     now: map<ConnId, seq<Frame>>, c: ConnId)
    requires e.Event? && c in now && c in todo && PendingPartly(subs, e, todo, before, now)
    ensures PendingPartly(subs, e, todo - {c}, before, now[c := AfterPending(subs, c, e, now[c])])
  {
    hide AfterPending;
  }

  lemma SkipPending(subs: map<ConnId, string>, e: Frame, todo: set<ConnId>, before: map<ConnId, seq<Frame>>,
                    now: map<ConnId, seq<Frame>>, c: ConnId)
    requires e.Event? && c !in now && PendingPartly(subs, e, todo, before, now)
    ensures PendingPartly(subs, e, todo - {c}, before, now)
  {
    hide AfterPending;
  }

  lemma AllReached(subs: map<ConnId, string>, waiting: set<ConnId>, e: Frame, before: map<ConnId, Conn>,
                   now: map<ConnId, Conn>, pending0: map<ConnId, seq<Frame>>, pending: map<ConnId, seq<Frame>>)
    requires e.Event? && ConnsPartly(subs, waiting, e, {}, before, now) && PendingPartly(subs, e, {}, pending0, pending)
    ensures now.Keys == before.Keys && pending.Keys == pending0.Keys
    ensures forall c <- now.Keys :: now[c] == AfterConn(subs, waiting, c, e, before[c])
    ensures forall c <- pending.Keys :: pending[c] == AfterPending(subs, c, e, pending0[c])
  {
    hide AfterConn, AfterPending;
  }

  ghost predicate AllCounted(conns: map<ConnId, Conn>) {
    forall c <- conns.Keys :: Counted(conns[c])
  }

  lemma CountedUpdate(conns: map<ConnId, Conn>, c: ConnId, d: Conn)
    requires AllCounted(conns) && Counted(d)
    ensures AllCounted(conns[c := d])
  {
    hide Counted;
  }

  /** What publishing does to one connection, said of the subscription and the room alone. */
  lemma AfterConnIff(subs: map<ConnId, string>, waiting: set<ConnId>, c: ConnId, e: Frame, d: Conn)
    requires e.Event? && Counted(d)
    ensures Counted(AfterConn(subs, waiting, c, e, d))
    ensures c in subs && c !in waiting && (subs[c] == "" || subs[c] == e.session) ==>
              if Room(d, [e]) then
                !AfterConn(subs, waiting, c, e, d).closed && Stream(AfterConn(subs, waiting, c, e, d)) == Stream(d) + [e]
              else AfterConn(subs, waiting, c, e, d) == d.(closed := true)
    ensures c !in subs || c in waiting || (subs[c] != "" && subs[c] != e.session) ==> AfterConn(subs, waiting, c, e, d) == d
  {
    EnqueueIff(d, e);
    assert Sizes([e]) == Sizes([e][..0]) + e.size;
    assert d.sent + (d.queue + [e]) == d.sent + d.queue + [e];
  }

  /** The same of a whole fan-out. */
  lemma AllDelivered(subs: map<ConnId, string>, waiting: set<ConnId>, e: Frame, before: map<ConnId, Conn>,
                     now: map<ConnId, Conn>, pending0: map<ConnId, seq<Frame>>, pending: map<ConnId, seq<Frame>>)
    requires e.Event? && AllCounted(before) && subs.Keys <= now.Keys == before.Keys
    requires pending.Keys == pending0.Keys <= subs.Keys
    requires forall c <- now.Keys :: now[c] == AfterConn(subs, waiting, c, e, before[c])
    requires forall c <- pending.Keys :: pending[c] == AfterPending(subs, c, e, pending0[c])
    ensures forall c <- subs.Keys :: c !in waiting && (subs[c] == "" || subs[c] == e.session) ==>
              if Room(before[c], [e]) then !now[c].closed && Stream(now[c]) == Stream(before[c]) + [e]
              else now[c] == before[c].(closed := true)
    ensures forall c <- now.Keys :: c !in subs || c in waiting || (subs[c] != "" && subs[c] != e.session) ==>
              now[c] == before[c]
    ensures forall c <- pending.Keys ::
              pending[c] == pending0[c] + if subs[c] == "" || subs[c] == e.session then [e] else []
  {
    hide AfterConn, Room, Stream, Counted;
    forall c <- now.Keys {
      AfterConnIff(subs, waiting, c, e, before[c]);
    }
  }

  class DownlinkHub {
    var conns: map<ConnId, Conn>
    var muxClients: map<ConnId, string>
    var muxPending: map<ConnId, seq<Frame>>
    var stagedFrames: seq<Frame>
    /** The durable events of all sessions, in the order they were stored. */
    var stored: seq<Frame>
    ghost var published: seq<Frame>
    ghost var origin: map<ConnId, Origin>

    ghost function Buffer(c: ConnId): Option<seq<Frame>>
      reads this
    {
      if c in muxPending then Some(muxPending[c]) else None
    }

    ghost predicate Maps()
      reads this
    {
      && muxPending.Keys <= muxClients.Keys <= conns.Keys
      && muxClients.Keys <= origin.Keys
      && Unique(stored) && Within(published, stored) && OnlyStaged(stagedFrames) && AllCounted(conns)
    }

    ghost predicate ConnOk(c: ConnId)
      requires Maps() && c in muxClients
      reads this
    {
      ConnHolds(muxClients[c], conns[c], Buffer(c), origin[c], stored, published)
    }

    ghost predicate Valid()
      reads this
    {
      Maps() && forall c <- muxClients.Keys :: ConnOk(c)
    }

    constructor ()
      ensures Valid() && stored == [] && published == [] && muxClients == map[] && conns == map[] && stagedFrames == []
      ensures muxPending == map[]
    {
      conns, muxClients, muxPending, stagedFrames, stored := map[], map[], map[], [], [];
      published, origin := [], map[];
    }

    /** The store accepts an event of a seq its session does not have yet, in whatever order. */
    method Persist(e: Frame)
      requires Valid() && e.Event? && e.seqNo >= 0
      requires forall f :: f in stored && f.Event? && f.session == e.session ==> f.seqNo != e.seqNo
      modifies this`stored
      ensures Valid() && stored == old(stored) + [e]
    {
      hide ConnHolds, Unique;
      UniqueSnoc(stored, e);
      stored := stored + [e];
      forall c <- muxClients.Keys ensures ConnOk(c) {
        assert old(ConnOk(c));
        StoreKeeps(muxClients[c], conns[c], Buffer(c), origin[c], old(stored), published, e);
      }
    }

    /** An approval prompt joins the frames every new connection is shown first. */
    method StageReplay(id: string, size: nat)
      requires Valid()
      modifies this`stagedFrames
      ensures Valid() && stagedFrames == old(stagedFrames) + [Staged(id, size)]
    {
      hide ConnHolds, Unique;
      stagedFrames := stagedFrames + [Staged(id, size)];
      forall c <- muxClients.Keys ensures ConnOk(c) {
        assert old(ConnOk(c));
      }
    }

    /** The first frame of a resolved prompt leaves the list, the others keep their order. */
    method UnstageReplay(id: string)
      requires Valid()
      modifies this`stagedFrames
      ensures Valid()
      ensures (exists i :: 0 <= i < |old(stagedFrames)| && old(stagedFrames)[i].id == id) ==>
                exists i :: 0 <= i < |old(stagedFrames)| && old(stagedFrames)[i].id == id
                  && (forall k :: 0 <= k < i ==> old(stagedFrames)[k].id != id)
                  && stagedFrames == old(stagedFrames)[..i] + old(stagedFrames)[i + 1..]
      ensures (forall i :: 0 <= i < |old(stagedFrames)| ==> old(stagedFrames)[i].id != id) ==>
                stagedFrames == old(stagedFrames)
    {
      hide ConnHolds, Unique;
      for i := 0 to |stagedFrames|
        invariant stagedFrames == old(stagedFrames) && Valid()
        invariant forall k :: 0 <= k < i ==> stagedFrames[k].id != id
      {
        assert stagedFrames[i] in stagedFrames;
        if stagedFrames[i].id == id {
          stagedFrames := stagedFrames[..i] + stagedFrames[i + 1..];
          forall c <- muxClients.Keys ensures ConnOk(c) {
            assert old(ConnOk(c));
          }
          return;
        }
      }
    }

    /** Hands an event to one connection: into its buffer while it replays, else into its queue. */
    method DeliverTo(c: ConnId, e: Frame)
      requires Maps() && e.Event? && c in muxClients
      modifies this`conns, this`muxPending
      ensures Maps() && conns.Keys == old(conns).Keys && muxPending.Keys == old(muxPending).Keys
      ensures conns == old(conns)[c := AfterConn(muxClients, muxPending.Keys, c, e, old(conns)[c])]
      ensures c !in muxPending ==> muxPending == old(muxPending)
      ensures c in muxPending ==> muxPending == old(muxPending)[c := AfterPending(muxClients, c, e, old(muxPending)[c])]
    {
      hide Counted;
      if Targets(muxClients[c], e.session) {
        if c in muxPending {
          muxPending := muxPending[c := muxPending[c] + [e]];
        } else {
          EnqueueIff(conns[c], e);
          CountedUpdate(conns, c, Enqueue(conns[c], e));
          conns := conns[c := Enqueue(conns[c], e)];
        }
      }
    }

    /** Hands an event to every connection it targets, in no particular order. */
    method Deliver(e: Frame)
      requires Maps() && e.Event?
      modifies this`conns, this`muxPending
      ensures Maps()
      ensures conns.Keys == old(conns).Keys && muxPending.Keys == old(muxPending).Keys
      ensures forall c <- conns.Keys :: conns[c] == AfterConn(muxClients, muxPending.Keys, c, e, old(conns)[c])
      ensures forall c <- muxPending.Keys :: muxPending[c] == AfterPending(muxClients, c, e, old(muxPending)[c])
    {
      hide Select, Ordered, OfSession, Within, Unique, OnlyStaged, AllCounted, AfterConn, AfterPending, ConnsPartly,
           PendingPartly;
      ghost var subs, waiting, conns0, pending0 := muxClients, muxPending.Keys, conns, muxPending;
      var todo := muxClients.Keys;
      NoneReached(subs, waiting, e, conns0, pending0);
      while todo != {}
        invariant todo <= muxClients.Keys && Maps() && muxClients == subs
        invariant conns.Keys == conns0.Keys && muxPending.Keys == waiting
        invariant ConnsPartly(subs, waiting, e, todo, conns0, conns)
        invariant PendingPartly(subs, e, todo, pending0, muxPending)
        decreases |todo|
      {
        var c :| c in todo;
        ReachConn(subs, waiting, e, todo, conns0, conns, c);
        if c in muxPending {
          ReachPending(subs, e, todo, pending0, muxPending, c);
        } else {
          SkipPending(subs, e, todo, pending0, muxPending, c);
        }
        todo := todo - {c};
        DeliverTo(c, e);
      }
      AllReached(subs, waiting, e, conns0, conns, pending0, muxPending);
    }

    /** Publishes a persisted event, in whatever order its session's events come: buffered for connections
        still replaying, enqueued for the rest. */
    method BroadcastSessionEvent(e: Frame)
      requires Valid() && e in stored && e.Event?
      modifies this`conns, this`muxPending, this`published
      ensures Valid() && published == old(published) + [e]
      ensures conns.Keys == old(conns).Keys && muxPending.Keys == old(muxPending).Keys
      ensures forall c <- muxClients.Keys :: c !in muxPending && (muxClients[c] == "" || muxClients[c] == e.session) ==>
                if Room(old(conns)[c], [e]) then
                  !conns[c].closed && Stream(conns[c]) == Stream(old(conns)[c]) + [e]
                else conns[c] == old(conns)[c].(closed := true)
      ensures forall c <- conns.Keys ::
                c !in muxClients || c in muxPending || (muxClients[c] != "" && muxClients[c] != e.session) ==>
                conns[c] == old(conns)[c]
      ensures forall c <- muxPending.Keys ::
                muxPending[c] == old(muxPending)[c] + if muxClients[c] == "" || muxClients[c] == e.session then [e] else []
    {
      hide Unique, Enqueue, ConnHolds, Targets, Room;
      Deliver(e);
      AllDelivered(muxClients, muxPending.Keys, e, old(conns), conns, old(muxPending), muxPending);
      ghost var before := published;
      published := published + [e];
      forall c <- muxClients.Keys ensures ConnOk(c) {
        assert old(ConnOk(c));
        PublishKeeps(muxClients[c], old(conns)[c], old(Buffer(c)), origin[c], stored, before, e);
      }
    }

    /** Adds a connection before its history is queried, with the staged frames first in its queue. */
    method RegisterMuxPending(c: ConnId, sub: string, fromSeq: int)
      requires Valid() && c !in conns
      modifies this`conns, this`muxClients, this`muxPending, this`origin
      ensures Valid()
      ensures conns == old(conns)[c := EnqueueAll(Conn([], [], 0, false), stagedFrames)]
      ensures !conns[c].closed <==> |stagedFrames| <= 1024 && Sizes(stagedFrames) <= 4194304
      ensures !conns[c].closed ==> Stream(conns[c]) == stagedFrames
      ensures muxClients == old(muxClients)[c := sub] && muxPending == old(muxPending)[c := []]
      ensures origin == old(origin)[c := Origin(fromSeq, |published|, None, false)]
    {
      hide ConnHolds, EnqueueAll, Unique, Within, OnlyStaged, Counted, AllCounted, Stream, Sizes;
      PendingNone(sub, fromSeq, stagedFrames, stored, published);
      StagedFit(stagedFrames);
      CountedUpdate(conns, c, EnqueueAll(Conn([], [], 0, false), stagedFrames));
      muxClients := muxClients[c := sub];
      muxPending := muxPending[c := []];
      origin := origin[c := Origin(fromSeq, |published|, None, false)];
      conns := conns[c := EnqueueAll(Conn([], [], 0, false), stagedFrames)];
      forall x <- muxClients.Keys ensures ConnOk(x) {
        if x != c {
          assert old(ConnOk(x));
        }
      }
    }

    /** The history query: not under the hub lock, at any moment between registering and finishing. A store
        that cannot answer yields no history, and the replay goes on. */
    method Replay(c: ConnId, sub: string, fromSeq: int, readable: bool) returns (history: seq<Frame>)
      requires Valid()
      requires c in muxClients ==> c in muxPending && muxClients[c] == sub && origin[c].from == fromSeq
      modifies this`origin
      ensures Valid()
      ensures history == if sub == "" || !readable then [] else Select(stored, sub, fromSeq)
      ensures c !in muxClients ==> origin == old(origin)
      ensures c in muxClients ==>
                origin == old(origin)[c := old(origin)[c].(cut := if readable then Some(|stored|) else None, failed := !readable)]
      ensures AwaitsFinish(c, history)
    {
      hide Unique, ConnHolds, Select;
      history := if sub == "" || !readable then [] else Select(stored, sub, fromSeq);
      if c in muxClients {
        assert ConnOk(c);
        assert stored[..|stored|] == stored;
        QueryKeeps(sub, conns[c], muxPending[c], origin[c], stored, published, readable);
        origin := origin[c := origin[c].(cut := if readable then Some(|stored|) else None, failed := !readable)];
      }
      forall x <- muxClients.Keys ensures ConnOk(x) {
        assert old(ConnOk(x));
      }
    }

    /** If the connection is still there, it is replaying and its query has come back with `history`: the
        select over the durable events of that moment, or nothing when it failed. */
    ghost predicate AwaitsFinish(c: ConnId, history: seq<Frame>)
      reads this
    {
      c in muxClients ==>
        c in muxPending && c in origin && Queried(muxClients[c], origin[c], stored, history)
    }

    /** Orders the snapshot before the buffer, drops what the buffer repeats, and goes live. A connection
        that was unregistered meanwhile is left alone. */
    method FinishMuxReplay(c: ConnId, history: seq<Frame>)
      requires Valid() && AwaitsFinish(c, history)
      modifies this`conns, this`muxPending
      ensures Valid()
      ensures c !in muxClients ==> conns == old(conns) && muxPending == old(muxPending)
      ensures c in muxClients ==> muxPending == old(muxPending) - {c}
      ensures c in muxClients ==>
                conns == old(conns)[c := EnqueueAll(old(conns)[c], Dedup(history + old(muxPending)[c]))]
      ensures c in muxClients ==> (!conns[c].closed <==> Room(old(conns)[c], Dedup(history + old(muxPending)[c])))
      ensures c in muxClients && !conns[c].closed ==>
                Stream(conns[c]) == Stream(old(conns)[c]) + Dedup(history + old(muxPending)[c])
    {
      if c !in muxClients {
        return;
      }
      var d := EnqueueReplay(conns[c], history, muxPending[c]);
      hide Dedup, EnqueueAll, Unique, ConnHolds, Queried, Within, Room, Stream;
      EnqueueAllIff(conns[c], Dedup(history + muxPending[c]));
      EnqueueAllStream(conns[c], Dedup(history + muxPending[c]));
      CountedUpdate(conns, c, d);
      assert ConnOk(c);
      FinishKeeps(muxClients[c], conns[c], history, muxPending[c], origin[c], stored, published);
      conns := conns[c := d];
      muxPending := muxPending - {c};
      forall x <- muxClients.Keys ensures ConnOk(x) {
        if x != c {
          assert old(ConnOk(x));
        }
      }
    }

    /** The writer takes the oldest queued frame. */
    method Pump(c: ConnId)
      requires Valid() && c in conns && conns[c].queue != []
      modifies this`conns
      ensures Valid() && conns.Keys == old(conns).Keys
      ensures Stream(conns[c]) == Stream(old(conns)[c]) && conns[c].sent == old(conns)[c].sent + [old(conns)[c].queue[0]]
      ensures conns[c].closed == old(conns)[c].closed
      ensures forall x <- conns.Keys :: x != c ==> conns[x] == old(conns)[x]
    {
      hide ConnHolds, Unique;
      var d := conns[c];
      var taken := Conn(d.sent + [d.queue[0]], d.queue[1..], d.queueBytes - d.queue[0].size, d.closed);
      assert Stream(taken) == Stream(d);
      assert d.queue == [d.queue[0]] + d.queue[1..];
      SizesConcat([d.queue[0]], d.queue[1..]);
      CountedUpdate(conns, c, taken);
      conns := conns[c := taken];
      forall x <- muxClients.Keys ensures ConnOk(x) {
        assert old(ConnOk(x));
        if x == c {
          SameStream(muxClients[c], d, taken, Buffer(c), origin[c], stored, published);
        }
      }
    }

    /** The client left, or its writer failed: no more frames are accepted, queued ones still drain. */
    method UnregisterMux(c: ConnId)
      requires Valid() && c in conns
      modifies this`conns, this`muxClients, this`muxPending
      ensures Valid()
      ensures muxClients == old(muxClients) - {c} && muxPending == old(muxPending) - {c}
      ensures conns == old(conns)[c := old(conns)[c].(closed := true)]
    {
      hide ConnHolds, Unique;
      muxClients, muxPending := muxClients - {c}, muxPending - {c};
      CountedUpdate(conns, c, conns[c].(closed := true));
      conns := conns[c := conns[c].(closed := true)];
      forall x <- muxClients.Keys ensures ConnOk(x) {
        assert old(ConnOk(x));
      }
    }
  }

  /** The gap: an event published before the client registered is missing from its open stream when the
      history query fails. */
  method FailedQueryLeavesGap(e: Frame) returns (hub: DownlinkHub)
    requires e.Event? && e.seqNo >= 0 && e.session != "" && e.size <= QUEUE_MAX_BYTES
    ensures hub.Valid() && 0 in hub.muxClients && 0 !in hub.muxPending && !hub.conns[0].closed
    ensures e in hub.published && Mine(e, hub.muxClients[0], hub.origin[0].from) && e !in Stream(hub.conns[0])
  {
    hub := new DownlinkHub();
    hub.Persist(e);
    hub.BroadcastSessionEvent(e);
    hub.RegisterMuxPending(0, e.session, 0);
    var history := hub.Replay(0, e.session, 0, false);
    hub.FinishMuxReplay(0, history);
    assert hub.conns[0] == Conn([], [], 0, false);
  }

  lemma UniqueSnoc(es: seq<Frame>, e: Frame)
    requires Unique(es) && e.Event? && e.seqNo >= 0
    requires forall f :: f in es && f.Event? && f.session == e.session ==> f.seqNo != e.seqNo
    ensures Unique(es + [e])
  {
    forall i | 0 <= i < |es| && es[i].session == e.session ensures es[i].seqNo != e.seqNo {
      assert es[i] in es;
    }
  }

  /** A connection still replaying keeps its invariant when one more event is published. */
  lemma PublishPending(sub: string, from: int, d: Conn, pending: seq<Frame>, cut: Option<nat>, stored: seq<Frame>,
                       published: seq<Frame>, reg: nat, e: Frame)
    requires PendingOk(sub, from, d, pending, cut, stored, published, reg) && sub != "" && e.Event?
    ensures PendingOk(sub, from, d, if Targets(sub, e.session) then pending + [e] else pending, cut, stored, published + [e], reg)
  {
    hide Select;
    assert (published + [e])[reg..] == published[reg..] + [e];
  }

  /** A live connection keeps its invariant when one more event is published. */
  lemma PublishLive(sub: string, from: int, d: Conn, published: seq<Frame>, reg: nat, failed: bool, e: Frame)
    requires LiveOk(sub, from, d, published, reg, failed) && sub != "" && e.Event?
    ensures LiveOk(sub, from, if Targets(sub, e.session) then Enqueue(d, e) else d, published + [e], reg, failed)
  {
    assert (published + [e])[reg..] == published[reg..] + [e];
    assert d.sent + (d.queue + [e]) == (d.sent + d.queue) + [e];
  }

  lemma PublishKeeps(sub: string, d: Conn, waiting: Option<seq<Frame>>, o: Origin, stored: seq<Frame>, published: seq<Frame>,
                     e: Frame)
    requires ConnHolds(sub, d, waiting, o, stored, published) && e.Event?
    ensures Targets(sub, e.session) && waiting.Some? ==>
              ConnHolds(sub, d, Some(waiting.value + [e]), o, stored, published + [e])
    ensures Targets(sub, e.session) && waiting.None? ==> ConnHolds(sub, Enqueue(d, e), None, o, stored, published + [e])
    ensures !Targets(sub, e.session) ==> ConnHolds(sub, d, waiting, o, stored, published + [e])
  {
    hide PendingOk, LiveOk, Enqueue;
    if sub != "" {
      if waiting.Some? {
        PublishPending(sub, o.from, d, waiting.value, o.cut, stored, published, o.reg, e);
      } else {
        PublishLive(sub, o.from, d, published, o.reg, o.failed, e);
      }
    }
  }

  lemma StoreKeeps(sub: string, d: Conn, waiting: Option<seq<Frame>>, o: Origin, stored: seq<Frame>, published: seq<Frame>,
                   e: Frame)
    requires ConnHolds(sub, d, waiting, o, stored, published)
    ensures ConnHolds(sub, d, waiting, o, stored + [e], published)
  {
    hide Select, LiveOk;
    if o.cut.Some? && o.cut.value <= |stored| {
      assert (stored + [e])[..o.cut.value] == stored[..o.cut.value];
    }
  }

  lemma SameStream(sub: string, d: Conn, d': Conn, waiting: Option<seq<Frame>>, o: Origin, stored: seq<Frame>,
                   published: seq<Frame>)
    requires Stream(d') == Stream(d) && d'.closed == d.closed
    ensures ConnHolds(sub, d, waiting, o, stored, published) ==> ConnHolds(sub, d', waiting, o, stored, published)
  {
    hide Select;
  }

  /** The history query that answered saw the first `cut` durable events; one that failed returned none. */
  ghost predicate Queried(sub: string, o: Origin, stored: seq<Frame>, history: seq<Frame>) {
    && (o.failed ==> o.cut.None?) && (sub == "" || o.failed ==> history == [])
    && (sub != "" && !o.failed ==>
          o.cut.Some? && o.cut.value <= |stored| && history == Select(stored[..o.cut.value], sub, o.from))
  }

  lemma QueryKeeps(sub: string, d: Conn, pending: seq<Frame>, o: Origin, stored: seq<Frame>, published: seq<Frame>,
                   readable: bool)
    requires ConnHolds(sub, d, Some(pending), o, stored, published) && Within(published, stored)
    ensures ConnHolds(sub, d, Some(pending), o.(cut := if readable then Some(|stored|) else None, failed := !readable),
                      stored, published)
  {
    hide Select, LiveOk;
    assert stored[..|stored|] == stored;
    SnapshotCovers(stored, published, sub, o.from);
  }

  lemma FinishKeeps(sub: string, d: Conn, history: seq<Frame>, pending: seq<Frame>, o: Origin, stored: seq<Frame>,
                    published: seq<Frame>)
    requires ConnHolds(sub, d, Some(pending), o, stored, published) && Queried(sub, o, stored, history)
    requires Unique(stored) && Within(published, stored)
    ensures ConnHolds(sub, EnqueueAll(d, Dedup(history + pending)), None, o, stored, published)
  {
    hide PendingOk, LiveOk, Select, Dedup, EnqueueAll, Unique, Within;
    if sub != "" {
      if o.failed {
        FailedIsLive(sub, o.from, d, pending, stored, published, o.reg);
        assert history + pending == pending;
      } else {
        FinishIsLive(sub, o.from, d, history, pending, o.cut.value, stored, published, o.reg);
      }
    }
  }

  /** Enqueues snapshot then buffer, remembering the positive seqs already sent. */
  method EnqueueReplay(d: Conn, history: seq<Frame>, pending: seq<Frame>) returns (r: Conn)
    ensures r == EnqueueAll(d, Dedup(history + pending))
  {
    hide Enqueue, Seqs, Dedup, EnqueueAll;
    var seen: set<int> := {};
    r := d;
    var all := history + pending;
    NothingSent(d);
    for i := 0 to |all|
      invariant seen == Seqs(all[..i])
      invariant r == EnqueueAll(d, Dedup(all[..i]))
    {
      var e := all[i];
      assert all[..i + 1] == all[..i] + [e];
      SeqsSnoc(all[..i], e);
      SendOne(d, all[..i], e);
      if e.Event? && e.seqNo > 0 {
        if e.seqNo in seen {
          continue;
        }
        seen := seen + {e.seqNo};
      }
      r := Enqueue(r, e);
    }
    assert all[..|all|] == all;
  }

  lemma PendingNone(sub: string, from: int, staged: seq<Frame>, stored: seq<Frame>, published: seq<Frame>)
    requires OnlyStaged(staged)
    ensures ConnHolds(sub, EnqueueAll(Conn([], [], 0, false), staged), Some([]), Origin(from, |published|, None, false),
                      stored, published)
  {
    EnqueuedOnly(Conn([], [], 0, false), staged);
    assert published[|published|..] == [];
  }

  lemma {:induction false} EnqueuedOnly(d: Conn, fs: seq<Frame>)
    ensures forall e :: e in Stream(EnqueueAll(d, fs)) ==> e in Stream(d) || e in fs
    decreases |fs|
  {
    if fs != [] {
      var n := |fs| - 1;
      EnqueuedOnly(d, fs[..n]);
      assert fs == fs[..n] + [fs[n]];
    }
  }

  /** Persisting comes before publishing, so a snapshot taken now covers everything published. */
  lemma SnapshotCovers(stored: seq<Frame>, published: seq<Frame>, sub: string, from: int)
    requires Within(published, stored)
    ensures forall e :: e in published && Mine(e, sub, from) ==> e in Select(stored, sub, from)
  {
    hide Select;
    SelectFacts(stored, sub, from);
  }

  lemma NothingSent(d: Conn)
    ensures Seqs([]) == {} && Dedup([]) == [] && EnqueueAll(d, []) == d
  {
  }

  lemma SendOne(d: Conn, es: seq<Frame>, e: Frame)
    ensures EnqueueAll(d, Dedup(es + [e])) ==
            if e.Event? && e.seqNo > 0 && e.seqNo in Seqs(es) then EnqueueAll(d, Dedup(es))
            else Enqueue(EnqueueAll(d, Dedup(es)), e)
  {
    hide Enqueue, Seqs;
    assert (es + [e])[..|es|] == es;
    assert (Dedup(es) + [e])[..|Dedup(es)|] == Dedup(es);
  }

  lemma DedupKeepsEvents(es: seq<Frame>, stored: seq<Frame>, sub: string)
    requires OfSession(es, sub) && Within(es, stored) && Unique(stored)
    ensures forall e :: e in es ==> e in Dedup(es)
  {
    hide Dedup, Unique;
    DedupSound(es);
    forall e | e in es ensures e in Dedup(es) {
      DedupKeeps(es, e);
      var i :| 0 <= i < |es| && es[i] == e;
      forall f | f in Dedup(es) && SamePositive(e, f) ensures e == f {
        assert f in es;
        var j :| 0 <= j < |es| && es[j] == f;
        SameSeqSameEvent(stored, e, f);
      }
    }
  }

  /** No gap: whatever the interleaving of publishing with the query, and whatever the order of publishing,
      a connection that is not closed when its replay finishes has every published event it asked for,
      provided the query succeeded. */
  lemma FinishIsLive(sub: string, from: int, d: Conn, history: seq<Frame>, pending: seq<Frame>, cut: nat,
                     stored: seq<Frame>, published: seq<Frame>, reg: nat)
    requires PendingOk(sub, from, d, pending, Some(cut), stored, published, reg)
    requires history == Select(stored[..cut], sub, from)
    requires Unique(stored) && Within(published, stored)
    ensures LiveOk(sub, from, EnqueueAll(d, Dedup(history + pending)), published, reg, false)
  {
    hide Select, Dedup, EnqueueAll, Unique;
    var all := history + pending;
    SelectFacts(stored[..cut], sub, from);
    EnqueueAllStream(d, Dedup(all));
    forall e | e in all ensures e in stored {
      if e in history {
        assert e in stored[..cut];
      } else {
        assert e in published[reg..] && e in published;
      }
    }
    DedupKeepsEvents(all, stored, sub);
  }

  /** After a failed query the stream holds what was published since the registration, and no more. */
  lemma FailedIsLive(sub: string, from: int, d: Conn, pending: seq<Frame>, stored: seq<Frame>, published: seq<Frame>,
                     reg: nat)
    requires PendingOk(sub, from, d, pending, None, stored, published, reg)
    requires Unique(stored) && Within(published, stored)
    ensures LiveOk(sub, from, EnqueueAll(d, Dedup(pending)), published, reg, true)
  {
    hide Dedup, EnqueueAll, Unique;
    EnqueueAllStream(d, Dedup(pending));
    EnqueuedOnly(d, Dedup(pending));
    DedupSound(pending);
    forall e | e in pending ensures e in stored {
      assert e in published[reg..] && e in published;
    }
    DedupKeepsEvents(pending, stored, sub);
  }

  lemma SameSeqSameEvent(stored: seq<Frame>, e: Frame, f: Frame)
    requires Unique(stored) && e in stored && f in stored && e.Event? && f.Event?
    requires e.session == f.session && e.seqNo == f.seqNo
    ensures e == f
  {
    var i :| 0 <= i < |stored| && stored[i] == e;
    var j :| 0 <= j < |stored| && stored[j] == f;
    assert !(i < j) && !(j < i);
  }

  /** Replay is at least once: an event with seq 0 that is in the snapshot and in the buffer is sent
      twice, while any event with a positive seq is sent once. */
  lemma SentTwiceIff(history: seq<Frame>, pending: seq<Frame>, e: Frame)
    requires e.Event? && e in history && e in pending
    ensures (exists i, j :: 0 <= i < j < |Dedup(history + pending)| &&
                            Dedup(history + pending)[i] == e && Dedup(history + pending)[j] == e) <==> e.seqNo <= 0
  {
    hide Dedup;
    var all := history + pending;
    if e.seqNo > 0 {
      DedupSound(all);
    } else {
      var i :| 0 <= i < |history| && history[i] == e;
      var j :| 0 <= j < |pending| && pending[j] == e;
      UnnumberedAt(all, i, |history| + j);
    }
  }

  /** Events without a positive seq keep their multiplicity and order. */
  lemma {:induction false} UnnumberedAt(es: seq<Frame>, i: nat, j: nat)
    requires i < j < |es| && es[i] == es[j] && !(es[i].Event? && es[i].seqNo > 0)
    ensures exists x, y :: 0 <= x < y < |Dedup(es)| && Dedup(es)[x] == es[i] && Dedup(es)[y] == es[i]
    decreases |es|
  {
    var n := |es| - 1;
    if j < n {
      UnnumberedAt(es[..n], i, j);
      var x, y :| 0 <= x < y < |Dedup(es[..n])| && Dedup(es[..n])[x] == es[i] && Dedup(es[..n])[y] == es[i];
      assert Dedup(es)[x] == es[i] && Dedup(es)[y] == es[i];
    } else {
      assert es[..n][i] in es[..n];
      DedupKeeps(es[..n], es[i]);
      var x :| 0 <= x < |Dedup(es[..n])| && Dedup(es[..n])[x] == es[i];
      assert Dedup(es)[x] == es[i] && Dedup(es)[|Dedup(es)| - 1] == es[i];
    }
  }
}
