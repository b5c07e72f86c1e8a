/** How a rebuilt actor numbers its events, and what each store does with the numbers when the seed read
    failed (backend/pkg/agent/loop.go, backend/pkg/storage/store_sqlite.go, backend/pkg/storage/store_bbolt.go). */
module StoreNumbering {
  import opened Wrappers
  import opened SessionEvents
  import opened EventStores

  /** The next seq after the stored tail; a read that fails counts as an empty log. */
  function SeedSeq(read: Option<seq<Envelope>>): int {
    if read.None? || read.value == [] then 0 else read.value[|read.value| - 1].seqNo + 1
  }

  /** Events as a counter starting at `seed` numbers them. */
  function Numbered(seed: int, es: seq<Envelope>): (r: seq<Envelope>)
    ensures |r| == |es| && forall i :: 0 <= i < |es| ==> r[i] == es[i].(seqNo := seed + i)
  {
    if es == [] then [] else Numbered(seed, es[..|es| - 1]) + [es[|es| - 1].(seqNo := seed + |es| - 1)]
  }

  /** The SQLite store takes only the event that carries the next stored seq. */
  function StrictAppend(log: seq<Envelope>, e: Envelope): seq<Envelope> {
    if e.seqNo == SeedSeq(Some(log)) then log + [e] else log
  }

  function StrictAll(log: seq<Envelope>, es: seq<Envelope>): seq<Envelope> {
    if es == [] then log else StrictAppend(StrictAll(log, es[..|es| - 1]), es[|es| - 1])
  }

  /** The bbolt store keeps events under their seq; writing a seq again replaces what was there. */
  function KeyedAll(stored: map<int, Envelope>, es: seq<Envelope>): map<int, Envelope> {
    if es == [] then stored else KeyedAll(stored, es[..|es| - 1])[es[|es| - 1].seqNo := es[|es| - 1]]
  }

  /** What the SQLite store holds after events numbered from `seed`: those that reach its next free seq. */
  lemma {:induction false} StrictAfter(log: seq<Envelope>, es: seq<Envelope>, seed: nat)
    requires Contig(log) && seed <= |log|
    ensures StrictAll(log, Numbered(seed, es)) ==
            if |es| <= |log| - seed then log else log + Numbered(seed, es)[|log| - seed..]
    decreases |es|
  {
    hide Numbered, Contig, StrictAppend, StrictAll, SeedSeq;
    if es == [] {
      StrictNone(log);
    } else {
      var n, d := |es| - 1, |log| - seed;
      var ns, before := Numbered(seed, es), Numbered(seed, es[..n]);
      StrictAfter(log, es[..n], seed);
      assert ns[..n] == before && ns == before + [ns[n]];
      StrictSnoc(log, before, ns[n]);
      OneStrict(log, before, ns, d);
    }
  }

  lemma StrictNone(log: seq<Envelope>)
    ensures StrictAll(log, []) == log
  {
  }

  lemma StrictSnoc(log: seq<Envelope>, es: seq<Envelope>, e: Envelope)
    ensures StrictAll(log, es + [e]) == StrictAppend(StrictAll(log, es), e)
  {
    hide StrictAppend;
    assert (es + [e])[..|es|] == es;
  }

  /** One more numbered event: refused below the next stored seq, appended at it. */
  lemma OneStrict(log: seq<Envelope>, before: seq<Envelope>, ns: seq<Envelope>, d: nat)
    requires Contig(log) && d <= |log| && |ns| == |before| + 1 && ns[..|before|] == before
    requires forall i :: 0 <= i < |ns| ==> ns[i].seqNo == |log| - d + i
    ensures var n := |before|;
            var sofar := if n <= d then log else log + before[d..];
            StrictAppend(sofar, ns[n]) == if n + 1 <= d then log else log + ns[d..]
  {
    var n := |before|;
    var sofar := if n <= d then log else log + before[d..];
    if n >= d {
      assert sofar == log + before[d..];
      assert ns[d..] == before[d..] + [ns[n]];
      assert sofar + [ns[n]] == log + ns[d..];
    }
  }

  /** What the bbolt store holds: at each seq the last event written there. */
  lemma {:induction false} KeyedAfter(log: seq<Envelope>, es: seq<Envelope>, seed: nat)
    requires Contig(log) && seed <= |log|
    ensures var after := KeyedAll(KeyedAll(map[], log), Numbered(seed, es));
            && (forall q :: q in after <==> 0 <= q < |log| || seed <= q < seed + |es|)
            && (forall q <- after.Keys :: after[q] == if seed <= q < seed + |es| then Numbered(seed, es)[q - seed] else log[q])
    decreases |es|
  {
    if es == [] {
      KeyedLog(log);
    } else {
      var n := |es| - 1;
      KeyedAfter(log, es[..n], seed);
      assert Numbered(seed, es)[..n] == Numbered(seed, es[..n]);
    }
  }

  lemma {:induction false} KeyedLog(log: seq<Envelope>)
    requires Contig(log)
    ensures forall q :: q in KeyedAll(map[], log) <==> 0 <= q < |log|
    ensures forall q :: 0 <= q < |log| ==> KeyedAll(map[], log)[q] == log[q]
    decreases |log|
  {
    if log != [] {
      KeyedLog(log[..|log| - 1]);
    }
  }

  /** A rebuilt actor's events are all stored behind what was there exactly when its seed read succeeded or
      there was nothing to read. */
  lemma SeedReadIff(log: seq<Envelope>, es: seq<Envelope>, read: Option<seq<Envelope>>)
    requires Contig(log) && es != [] && (read.Some? ==> read.value == log)
    ensures var ns := Numbered(SeedSeq(read), es);
            && (StrictAll(log, ns) == log + ns <==> read.Some? || log == [])
            && ((forall q :: q in KeyedAll(KeyedAll(map[], log), ns) <==> 0 <= q < |log| + |es|) <==> read.Some? || log == [])
  {
    hide StrictAll, KeyedAll, Numbered, SeedSeq, Contig;
    SeedIs(log, read);
    StrictIntactIff(log, es, SeedSeq(read));
    KeyedIntactIff(log, es, SeedSeq(read));
  }

  lemma SeedIs(log: seq<Envelope>, read: Option<seq<Envelope>>)
    requires Contig(log) && (read.Some? ==> read.value == log)
    ensures SeedSeq(read) == if read.None? then 0 else |log|
  {
  }

  lemma StrictIntactIff(log: seq<Envelope>, es: seq<Envelope>, seed: nat)
    requires Contig(log) && es != [] && seed <= |log|
    ensures StrictAll(log, Numbered(seed, es)) == log + Numbered(seed, es) <==> seed == |log|
  {
    hide StrictAll, Numbered, Contig;
    var ns := Numbered(seed, es);
    StrictAfter(log, es, seed);
    if seed == |log| {
      assert ns[0..] == ns;
    } else {
      assert |StrictAll(log, ns)| < |log| + |ns|;
    }
  }

  lemma KeyedIntactIff(log: seq<Envelope>, es: seq<Envelope>, seed: nat)
    requires Contig(log) && es != [] && seed <= |log|
    ensures (forall q :: q in KeyedAll(KeyedAll(map[], log), Numbered(seed, es)) <==> 0 <= q < |log| + |es|) <==>
            seed == |log|
  {
    KeyedAfter(log, es, seed);
    var after, last := KeyedAll(KeyedAll(map[], log), Numbered(seed, es)), |log| + |es| - 1;
    assert |es| > 0;
    assert last in after <==> seed == |log|;
  }

  /** After a failed seed read the SQLite store refuses as many events as it holds, and the bbolt store writes
      them over its oldest ones. */
  lemma FailedSeedRead(log: seq<Envelope>, es: seq<Envelope>)
    requires Contig(log)
    ensures StrictAll(log, Numbered(SeedSeq(None), es)) ==
            if |es| <= |log| then log else log + Numbered(0, es)[|log|..]
    ensures forall q :: 0 <= q < |es| ==>
              && q in KeyedAll(KeyedAll(map[], log), Numbered(SeedSeq(None), es))
              && KeyedAll(KeyedAll(map[], log), Numbered(SeedSeq(None), es))[q] == es[q].(seqNo := q)
  {
    hide StrictAll, KeyedAll, Contig;
    StrictAfter(log, es, 0);
    KeyedAfter(log, es, 0);
  }
}
