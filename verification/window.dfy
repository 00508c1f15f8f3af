/**
 The sliding window `[nextSeq, nextSeq + N)`. When every resident sequence
 number lies inside it, the buffer behaves as a reorder buffer: a drain
 delivers `nextSeq, nextSeq + 1, ...` up to the first gap. `insert` keeps
 that window invariant for arrivals at or above `nextSeq`; arrivals below
 it can break it (see the `StaleArrival` module).
 */
module Window {
  import opened ReliabilityBuffer
  import opened BufferIterator
  import Residues

  /** The structural invariant plus: every resident lies in the window. */
  predicate InWindow<T>(b: Buffer<T>) {
    && Valid(b)
    && forall i :: 0 <= i < |b.items| && b.items[i].Some? ==>
         b.nextSeq <= b.items[i].value.seqNo < b.nextSeq + |b.items|
  }

  /** Nothing below the window is resident. */
  lemma NothingBelowWindow<T>(b: Buffer<T>, q: nat)
    requires InWindow(b) && q < b.nextSeq
    ensures Lookup(b, q).None?
  {
    var i := q % |b.items|;
    if b.items[i].Some? {
      assert b.nextSeq <= b.items[i].value.seqNo;
    }
  }

  /** An arrival at or above `nextSeq` keeps the window invariant,
      whatever `insert` answers. */
  lemma InsertPreservesWindow<T>(b: Buffer<T>, s: U64, x: T)
    requires InWindow(b) && NoInsertOverflow(b, s)
    requires b.nextSeq <= s
    ensures InWindow(Insert(b, s, x).buffer)
  {
    InsertPreservesValid(b, s, x);
    var r := Insert(b, s, x);
    if r.status == Ok {
      forall i | 0 <= i < |b.items| && r.buffer.items[i].Some?
        ensures b.nextSeq <= r.buffer.items[i].value.seqNo < b.nextSeq + |b.items|
      {
        if i != s % |b.items| {
          assert r.buffer.items[i] == b.items[i];
        }
      }
    }
  }

  /** With the window invariant, `PacketExpired` is only ever returned for
      an arrival below `nextSeq`: an occupied slot's resident is in the
      window, so an older arrival in the same slot is at least `N` older. */
  lemma ExpiredOnlyBelowWindow<T>(b: Buffer<T>, s: U64, x: T)
    requires InWindow(b) && NoInsertOverflow(b, s)
    requires Insert(b, s, x).status == Err(PacketExpired)
    ensures s < b.nextSeq
  {
    var n := |b.items|;
    var i := s % n;
    if b.items[i].Some? {
      var e := b.items[i].value.seqNo;
      Residues.ResidueGap(s, e, n);
    }
  }

  /** Capacity law: with the window invariant, the first sequence number
      past the window, `nextSeq + N`, is always `WrappedAround`. */
  lemma CapacityLaw<T>(b: Buffer<T>, x: T)
    requires InWindow(b)
    requires b.nextSeq + |b.items| <= U64_MAX
    ensures NoInsertOverflow(b, b.nextSeq + |b.items|)
    ensures Insert(b, b.nextSeq + |b.items|, x).status == Err(WrappedAround)
  {
    var n := |b.items|;
    var s := b.nextSeq + n;
    Residues.ResidueShift(b.nextSeq, n);
    assert s % n == b.readPos;
    if b.items[b.readPos].Some? {
      var e := b.items[b.readPos].value.seqNo;
      assert e < s;
    }
  }

  /** With the window invariant, a drain step yields exactly the item held
      for `nextSeq`, removes only that, and advances `nextSeq` by one. */
  lemma DrainStepInWindow<T>(b: Buffer<T>)
    requires InWindow(b)
    ensures var st := DrainStep(b);
            && InWindow(st.buffer)
            && st.yielded == Lookup(b, b.nextSeq)
            && (st.yielded.Some? ==> st.buffer.nextSeq == b.nextSeq + 1)
            && (forall q: nat :: Lookup(st.buffer, q) == (if q == b.nextSeq then None else Lookup(b, q)))
  {
    DrainStepPreservesValid(b);
    var n := |b.items|;
    var st := DrainStep(b);
    if b.items[b.readPos].Some? {
      var s := b.items[b.readPos].value.seqNo;
      Residues.ResidueUniqueInWindow(b.nextSeq, b.nextSeq, s, n);
      assert s == b.nextSeq;
      forall i | 0 <= i < n && st.buffer.items[i].Some?
        ensures st.buffer.nextSeq <= st.buffer.items[i].value.seqNo < st.buffer.nextSeq + n
      {
        var t := st.buffer.items[i].value.seqNo;
        assert i != b.readPos && b.items[i] == st.buffer.items[i];
      }
      forall q: nat
        ensures Lookup(st.buffer, q) == (if q == b.nextSeq then None else Lookup(b, q))
      {
        if q % n != b.readPos {
          assert st.buffer.items[q % n] == b.items[q % n];
        }
      }
    }
  }

  /** What a full drain from `b` promises when `b` is in its window. */
  ghost predicate DeliversInOrder<T>(b: Buffer<T>, r: Drained<T>)
    requires |b.items| > 0
  {
    && InWindow(r.buffer)
    && r.buffer.nextSeq == b.nextSeq + |r.items|
    && (forall k :: 0 <= k < |r.items| ==> Lookup(b, b.nextSeq + k) == Some(r.items[k]))
    && Lookup(b, b.nextSeq + |r.items|).None?
    && (forall q: nat :: Lookup(r.buffer, q) == (if q < r.buffer.nextSeq then None else Lookup(b, q)))
  }

  /** In-order delivery: with the window invariant, a full drain yields the
      items held for `nextSeq, nextSeq + 1, ...` in that order, stops at the
      first sequence number not held, and keeps everything above it. */
  lemma {:induction false} DrainInOrder<T>(b: Buffer<T>)
    requires InWindow(b)
    ensures DeliversInOrder(b, Drain(b))
    decreases Occupied(b.items)
  {
    var st := DrainStep(b);
    DrainStepInWindow(b);
    if st.yielded.None? {
      assert Drain(b) == Drained(b, []);
      forall q: nat | q < b.nextSeq
        ensures Lookup(b, q).None?
      {
        NothingBelowWindow(b, q);
      }
    } else {
      DrainStepPreservesValid(b);
      DrainInOrder(st.buffer);
      DeliveryExtends(b, st.buffer, st.yielded.value, Drain(st.buffer));
    }
  }

  /** Taking the item held for `nextSeq`, then an in-order drain of what
      remains, is an in-order drain. */
  lemma DeliveryExtends<T>(b: Buffer<T>, b1: Buffer<T>, x: T, rest: Drained<T>)
    requires |b.items| > 0 && |b1.items| == |b.items|
    requires b1.nextSeq == b.nextSeq + 1
    requires Lookup(b, b.nextSeq) == Some(x)
    requires forall q: nat :: Lookup(b1, q) == (if q == b.nextSeq then None else Lookup(b, q))
    requires DeliversInOrder(b1, rest)
    ensures DeliversInOrder(b, Drained(rest.buffer, [x] + rest.items))
  {
    ItemsExtend(b, b1, x, rest.items);
    FrameExtends(b, b1, rest.buffer);
  }

  /** The items half of `DeliveryExtends`: the item held for `nextSeq`,
      followed by the in-order run from `nextSeq + 1`, is the in-order run
      from `nextSeq`. */
  lemma ItemsExtend<T>(b: Buffer<T>, b1: Buffer<T>, x: T, items: seq<T>)
    requires |b.items| > 0 && |b1.items| == |b.items|
    requires b1.nextSeq == b.nextSeq + 1
    requires Lookup(b, b.nextSeq) == Some(x)
    requires forall q: nat :: Lookup(b1, q) == (if q == b.nextSeq then None else Lookup(b, q))
    requires forall k :: 0 <= k < |items| ==> Lookup(b1, b1.nextSeq + k) == Some(items[k])
    requires Lookup(b1, b1.nextSeq + |items|).None?
    ensures forall k :: 0 <= k < |[x] + items| ==> Lookup(b, b.nextSeq + k) == Some(([x] + items)[k])
    ensures Lookup(b, b.nextSeq + |[x] + items|).None?
  {
    var all := [x] + items;
    forall k | 0 <= k < |all|
      ensures Lookup(b, b.nextSeq + k) == Some(all[k])
    {
      if k > 0 {
        assert all[k] == items[k - 1];
        assert Lookup(b1, b1.nextSeq + (k - 1)) == Some(items[k - 1]);
      }
    }
    assert Lookup(b1, b1.nextSeq + |items|) == Lookup(b, b.nextSeq + |all|);
  }

  /** The frame half of `DeliveryExtends`: removing `nextSeq` and then
      everything below a later `nextSeq` removes everything below it. */
  lemma FrameExtends<T>(b: Buffer<T>, b1: Buffer<T>, b2: Buffer<T>)
    requires |b.items| > 0 && |b1.items| > 0 && |b2.items| > 0
    requires b.nextSeq < b1.nextSeq <= b2.nextSeq
    requires forall q: nat :: Lookup(b1, q) == (if q == b.nextSeq then None else Lookup(b, q))
    requires forall q: nat :: Lookup(b2, q) == (if q < b2.nextSeq then None else Lookup(b1, q))
    ensures forall q: nat :: Lookup(b2, q) == (if q < b2.nextSeq then None else Lookup(b, q))
  {
    forall q: nat
      ensures Lookup(b2, q) == (if q < b2.nextSeq then None else Lookup(b, q))
    {
      assert Lookup(b2, q) == (if q < b2.nextSeq then None else Lookup(b1, q));
      assert Lookup(b1, q) == (if q == b.nextSeq then None else Lookup(b, q));
    }
  }

  /** The caller's insert-then-drain, for an arrival at or above `nextSeq`:
      the window invariant survives and the items delivered are those held,
      after the insert, for consecutive sequence numbers from `nextSeq`. */
  lemma InsertThenDrainInOrder<T>(b: Buffer<T>, s: U64, x: T)
    requires InWindow(b) && NoInsertOverflow(b, s)
    requires b.nextSeq <= s
    ensures InWindow(InsertThenDrain(b, s, x).buffer)
    ensures var r := InsertThenDrain(b, s, x);
            r.status == Ok ==> DeliversInOrder(Insert(b, s, x).buffer, Drained(r.buffer, r.items))
  {
    InsertPreservesWindow(b, s, x);
    var b1 := Insert(b, s, x).buffer;
    if Insert(b, s, x).status == Ok {
      DrainInOrder(b1);
      assert InsertThenDrain(b, s, x) == Delivery(Drain(b1).buffer, Ok, Drain(b1).items);
    }
  }
}
