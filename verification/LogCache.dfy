/** The incremental mirror of the durable log (backend/pkg/agent/loop.go). */
module LogCaches {
  import opened SessionEvents
  import opened EventStores

  ghost function LastSeq(log: seq<Envelope>): int {
    if log == [] then -1 else log[|log| - 1].seqNo
  }

  /** Reading behind the last mirrored seq returns exactly the part of the log not mirrored yet. */
  lemma {:induction false} FromSuffix(log: seq<Envelope>, n: nat)
    requires Increasing(log) && n <= |log|
    ensures From(log, LastSeq(log[..n]) + 1) == log[n..]
    decreases |log|
  {
    if n == |log| {
      FromNothing(log, LastSeq(log[..n]) + 1);
    } else {
      var m := |log| - 1;
      FromSuffix(log[..m], n);
      assert log[..m][..n] == log[..n];
      assert log[n..] == log[..m][n..] + [log[m]];
    }
  }

  lemma {:induction false} FromNothing(log: seq<Envelope>, k: int)
    requires forall i :: 0 <= i < |log| ==> log[i].seqNo < k
    ensures From(log, k) == []
    decreases |log|
  {
    if log != [] {
      FromNothing(log[..|log| - 1], k);
    }
  }

  lemma LastSeqDef(log: seq<Envelope>)
    ensures LastSeq(log) == if log == [] then -1 else log[|log| - 1].seqNo
  {
  }

  lemma FromAll(log: seq<Envelope>)
    requires Increasing(log)
    ensures From(log, 0) == log
  {
    FromSuffix(log, 0);
  }

  /** Mirroring one event keeps the mirror a prefix of the log exactly when nothing before the event
      is missing from it: an append that overtakes another one loses the other for good. */
  lemma MirrorPrefixIff(cache: seq<Envelope>, log: seq<Envelope>, e: Envelope)
    requires cache <= log
    requires forall i :: 0 <= i < |log| ==> log[i].seqNo < e.seqNo
    ensures cache + [e] <= log + [e] <==> cache == log
  {
    if |cache| < |log| {
      assert (log + [e])[|cache|] == log[|cache|];
      assert (cache + [e])[|cache|] == e;
    }
  }

  class LogCache {
    const store: EventStore
    var logCache: seq<Envelope>
    var lastCached: int
    var warm: bool

    /** A warm mirror is a prefix of the durable log. */
    ghost predicate Coherent()
      reads this, store
    {
      warm ==> && logCache <= store.log
               && lastCached == LastSeq(logCache)
    }

    /** Between emits of a serialized run a warm mirror misses nothing. */
    ghost predicate Complete()
      reads this, store
    {
      warm ==> logCache == store.log && lastCached == LastSeq(logCache)
    }

    /** `NewAgent` seeds the mirror with the one full read it makes. */
    constructor (store: EventStore, seedEvents: seq<Envelope>)
      requires seedEvents == [] || seedEvents == store.log
      ensures Complete() && this.store == store && warm == (seedEvents != [])
      ensures warm ==> logCache == seedEvents
    {
      this.store := store;
      logCache := seedEvents;
      lastCached := if seedEvents == [] then 0 else seedEvents[|seedEvents| - 1].seqNo;
      warm := seedEvents != [];
    }

    /** Mirrors one event just appended to the log. A mirror that missed nothing before it misses
        nothing after it; one that missed something is no longer a prefix. */
    method CacheAppend(e: Envelope)
      requires store.Valid()
      modifies this`logCache, this`lastCached
      ensures warm == old(warm)
      ensures !warm || e.seqNo <= old(lastCached) ==> logCache == old(logCache) && lastCached == old(lastCached)
      ensures warm && e.seqNo > old(lastCached) ==> logCache == old(logCache) + [e] && lastCached == e.seqNo
      ensures store.log != [] && e == store.log[|store.log| - 1] && old(warm) &&
              old(lastCached) == LastSeq(old(logCache)) ==>
                (old(logCache) == store.log[..|store.log| - 1] ==> Complete())
                && (old(logCache) <= store.log[..|store.log| - 1] && old(logCache) != store.log[..|store.log| - 1] ==> !Coherent())
    {
      var n := |store.log| - 1;
      if store.log != [] && e == store.log[n] && warm && lastCached == LastSeq(logCache) && logCache <= store.log[..n] {
        MirrorPrefixIff(logCache, store.log[..n], e);
        assert store.log == store.log[..n] + [e];
        assert lastCached < e.seqNo;
      }
      if !warm || e.seqNo <= lastCached {
        return;
      }
      logCache := logCache + [e];
      lastCached := e.seqNo;
    }

    method InvalidateLogCache()
      modifies this`logCache, this`lastCached, this`warm
      ensures Complete() && !warm
    {
      logCache, lastCached, warm := [], -1, false;
    }

    /** Appends the events behind the mirror, skipping any it already holds. */
    method TopUp(more: seq<Envelope>)
      requires store.Valid()
      requires logCache + more == store.log && lastCached == LastSeq(logCache)
      modifies this`logCache, this`lastCached
      ensures logCache == store.log && lastCached == LastSeq(logCache)
    {
      ghost var had := logCache;
      for i := 0 to |more|
        invariant logCache == had + more[..i]
        invariant lastCached == LastSeq(logCache)
      {
        assert more[i] == store.log[|had| + i];
        assert logCache == store.log[..|had| + i];
        if more[i].seqNo <= lastCached {
          continue;
        }
        logCache := logCache + [more[i]];
        lastCached := more[i].seqNo;
      }
      assert more[..|more|] == more;
    }

    /** A read whose query, or fallback query, succeeds returns exactly the durable log; otherwise it
        serves the mirror it has, a prefix of that log, or nothing when cold. */
    method CachedSessionEvents() returns (r: seq<Envelope>)
      requires store.Valid() && Coherent()
      modifies this`logCache, this`lastCached, this`warm, store`readFaults
      ensures Coherent() && r <= store.log
      ensures old(Complete()) ==> Complete()
      ensures var f := old(store.readFaults);
              var first := f == [] || !f[0];
              var second := |f| < 2 || !f[1];
              r == if first || (old(warm) && second) then store.log else if old(warm) then old(logCache) else []
      ensures warm ==> r == logCache
      ensures old(store.readFaults) == [] ==> store.readFaults == []
      ensures warm == (old(warm) || old(store.readFaults) == [] || !old(store.readFaults)[0])
    {
      hide From, Increasing, Contig, LastSeq;
      FromAll(store.log);
      LastSeqDef(store.log);
      LastSeqDef(logCache);
      if !warm {
        var events := store.GetEvents(0);
        if events.None? {
          return [];
        }
        logCache := events.value;
        lastCached := if |logCache| > 0 then logCache[|logCache| - 1].seqNo else -1;
        warm := true;
        return logCache;
      }
      assert store.log[..|logCache|] == logCache;
      FromSuffix(store.log, |logCache|);
      var events := store.GetEvents(lastCached + 1);
      if events.None? {
        var all := store.GetEvents(0);
        if all.None? {
          return logCache;
        }
        logCache := all.value;
        lastCached := if |logCache| > 0 then logCache[|logCache| - 1].seqNo else -1;
        return logCache;
      }
      TopUp(events.value);
      return logCache;
    }
  }
}
