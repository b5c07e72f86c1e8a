/** The in-memory ring of recent session events (backend/pkg/storage/ringbuffer.go): monotonic head and tail
    counters over a slot array indexed with a bit mask. */
module RingBuffer {
  import opened Wrappers
  import opened SessionEvents

  // ---------------------------------------------------------------- mask arithmetic

  function Pow2(k: nat): (p: nat)
    ensures p > 0
  {
    if k == 0 then 1 else 2 * Pow2(k - 1)
  }

  /** The bitwise conjunction of two non-negative integers. */
  function BitAnd(a: nat, b: nat): nat
    decreases a
  {
    if a == 0 || b == 0 then 0 else (if a % 2 == 1 && b % 2 == 1 then 1 else 0) + 2 * BitAnd(a / 2, b / 2)
  }

  /** Masking with a power of two less one is the remainder, which is what makes the ring wrap. */
  lemma {:induction false} MaskIsRemainder(a: nat, k: nat)
    ensures BitAnd(a, Pow2(k) - 1) == a % Pow2(k)
    decreases k
  {
    if k > 0 {
      var half := Pow2(k - 1);
      MaskIsRemainder(a / 2, k - 1);
      assert (Pow2(k) - 1) / 2 == half - 1;
      HalfRemainder(a, half);
      if a > 0 {
        assert (Pow2(k) - 1) % 2 == 1;
        assert Pow2(k) - 1 > 0;
      }
    }
  }

  lemma HalfRemainder(a: nat, half: nat)
    requires half > 0
    ensures a % (2 * half) == a % 2 + 2 * ((a / 2) % half)
  {
    var q, r := (a / 2) / half, (a / 2) % half;
    assert a / 2 == q * half + r;
    assert a == 2 * (a / 2) + a % 2;
    assert a == q * (2 * half) + (a % 2 + 2 * r);
    RemainderIs(a, q, 2 * half, a % 2 + 2 * r);
  }

  lemma {:induction false} Far(d: nat, m: nat)
    requires d > 0
    ensures d * m >= m
    decreases d
  {
    if d > 1 {
      Far(d - 1, m);
      assert d * m == (d - 1) * m + m;
    }
  }

  /** A non-zero multiple is at least one modulus away from zero. */
  lemma FarOrZero(d: int, m: nat)
    ensures d == 0 || d * m >= m || d * m + m <= 0
  {
    if d > 0 {
      Far(d, m);
    } else if d < 0 {
      Far(-d, m);
      assert (-d) * m == -(d * m);
    }
  }

  lemma QuotientRemainder(a: nat, m: nat)
    requires m > 0
    ensures a == (a / m) * m + a % m
  {
  }

  lemma RemainderIs(a: nat, q: nat, m: nat, r: nat)
    requires m > 0 && a == q * m + r && r < m
    ensures a % m == r
  {
    QuotientRemainder(a, m);
    var d := q - a / m;
    assert d * m == q * m - (a / m) * m;
    FarOrZero(d, m);
  }

  /** Two positions less than a lap apart use different slots. */
  lemma SlotsDiffer(i: nat, j: nat, m: nat)
    requires m > 0 && i < j < i + m
    ensures i % m != j % m
  {
    QuotientRemainder(i, m);
    QuotientRemainder(j, m);
    var p, q, d := i / m, j / m, j / m - i / m;
    assert d * m == q * m - p * m;
    FarOrZero(d, m);
  }

  // ---------------------------------------------------------------- the ring

  /** The most recent events, at most `capacity` of them. */
  function Latest<T>(all: seq<T>, capacity: nat): seq<T> {
    if |all| <= capacity then all else all[|all| - capacity..]
  }

  function Since(events: seq<Envelope>, fromSeq: int): seq<Envelope> {
    if events == [] then []
    else Since(events[..|events| - 1], fromSeq) + if events[|events| - 1].seqNo >= fromSeq then [events[|events| - 1]] else []
  }

  lemma SinceNone(fromSeq: int)
    ensures Since([], fromSeq) == []
  {
  }

  lemma SinceSnoc(events: seq<Envelope>, e: Envelope, fromSeq: int)
    ensures Since(events + [e], fromSeq) == Since(events, fromSeq) + if e.seqNo >= fromSeq then [e] else []
  {
    assert (events + [e])[..|events|] == events;
  }

  class Ring {
    const capacity: nat
    const mask: nat
    const entries: array<Option<Envelope>>
    var head: nat
    var tail: nat
    ghost const bits: nat
    /** Every event pushed since the ring was last cleared. */
    ghost var pushed: seq<Envelope>

    ghost predicate Valid()
      reads this, entries
    {
      && capacity == Pow2(bits) == entries.Length && mask == capacity - 1
      && tail == |pushed| && head == (if tail > capacity then tail - capacity else 0)
      && forall i :: head <= i < tail ==> entries[i % capacity] == Some(pushed[i])
    }

    /** The requested capacity rounded up to the next power of two. */
    constructor (wanted: int)
      ensures Valid() && pushed == [] && fresh(entries)
      ensures wanted <= capacity && (capacity > 1 ==> capacity < 2 * wanted)
    {
      var actual: nat := 1;
      ghost var k := 0;
      while actual < wanted
        invariant actual == Pow2(k) && (actual > 1 ==> actual < 2 * wanted)
        decreases wanted - actual
      {
        actual := actual * 2;
        k := k + 1;
      }
      capacity, mask, bits := actual, actual - 1, k;
      entries := new Option<Envelope>[actual](_ => None);
      head, tail, pushed := 0, 0, [];
    }

    /** Adds an event, overwriting the oldest one when the ring is full. */
    method Push(e: Envelope)
      requires Valid()
      modifies this`head, this`tail, this`pushed, entries
      ensures Valid() && pushed == old(pushed) + [e]
    {
      MaskIsRemainder(tail, bits);
      entries[BitAnd(tail, mask)] := Some(e);
      forall i | head <= i < tail && tail < i + capacity ensures i % capacity != tail % capacity
      {
        SlotsDiffer(i, tail, capacity);
      }
      pushed := pushed + [e];
      tail := tail + 1;
      if tail - head > capacity {
        head := tail - capacity;
      }
    }

    /** The retained events from a seq on: exactly those among the last `capacity` pushed. */
    method GetSince(fromSeq: int) returns (events: seq<Envelope>)
      requires Valid()
      ensures events == Since(Latest(pushed, capacity), fromSeq)
    {
      hide Since;
      events := [];
      SinceNone(fromSeq);
      ghost var kept := Latest(pushed, capacity);
      var i := head;
      while i < tail
        invariant head <= i <= tail && events == Since(kept[..i - head], fromSeq)
      {
        MaskIsRemainder(i, bits);
        var slot := entries[BitAnd(i, mask)];
        assert kept[i - head] == pushed[i] && kept[..i + 1 - head] == kept[..i - head] + [pushed[i]];
        SinceSnoc(kept[..i - head], pushed[i], fromSeq);
        if slot.Some? && slot.value.seqNo >= fromSeq {
          events := events + [slot.value];
        }
        i := i + 1;
      }
      assert kept[..tail - head] == kept;
    }

    /** The most recent event, if any. */
    method LatestEvent() returns (e: Option<Envelope>)
      requires Valid()
      ensures e == if pushed == [] then None else Some(pushed[|pushed| - 1])
    {
      if tail <= head {
        return None;
      }
      MaskIsRemainder(tail - 1, bits);
      return entries[BitAnd(tail - 1, mask)];
    }

    method Clear()
      requires Valid()
      modifies this`head, this`tail, this`pushed, entries
      ensures Valid() && pushed == []
    {
      head, tail, pushed := 0, 0, [];
      for i := 0 to entries.Length
        invariant head == 0 && tail == 0 && pushed == []
      {
        entries[i] := None;
      }
    }
  }

  /** Nothing recent is missing: a reader that asks from a seq on gets every event of the log from there
      on, provided the log is in seq order and the first of them is still retained. */
  lemma {:induction false} SinceIsSuffix(all: seq<Envelope>, capacity: nat, fromSeq: int, k: nat)
    requires k <= |all| && |all| - k <= capacity
    requires forall i :: 0 <= i < |all| ==> (all[i].seqNo >= fromSeq <==> i >= k)
    ensures Since(Latest(all, capacity), fromSeq) == all[k..]
  {
    var start := if |all| <= capacity then 0 else |all| - capacity;
    assert Latest(all, capacity) == all[start..];
    SinceFrom(all[start..], fromSeq, k - start);
    assert all[start..][k - start..] == all[k..];
  }

  lemma {:induction false} SinceFrom(events: seq<Envelope>, fromSeq: int, k: nat)
    requires k <= |events|
    requires forall i :: 0 <= i < |events| ==> (events[i].seqNo >= fromSeq <==> i >= k)
    ensures Since(events, fromSeq) == events[k..]
    decreases |events|
  {
    if events != [] {
      var n := |events| - 1;
      SinceFrom(events[..n], fromSeq, if k <= n then k else n);
      assert forall i :: 0 <= i < n ==> events[..n][i] == events[i];
      if k <= n {
        assert events[k..] == events[..n][k..] + [events[n]];
      }
    }
  }
}
