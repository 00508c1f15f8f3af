/**
 The fixed-capacity reorder buffer `ReliabilityBuffer<T, N>`: its storage,
 construction, `reset` and the classification performed by `insert`.

 The const-generic capacity `N` is the length of `items`; a `u64` sequence
 number is a `U64`, and `usize` is taken to be 64 bits wide, so the source's
 `as usize` casts are the identity.
 */
module ReliabilityBuffer {

  /** `u64::MAX`, which is also `usize::MAX` on a 64-bit platform. */
  const U64_MAX: int := 0xFFFF_FFFF_FFFF_FFFF

  type U64 = x: int | 0 <= x <= U64_MAX

  datatype Option<+T> = None | Some(value: T)

  /** The reasons `insert` turns an item away. */
  datatype InsertError = PacketExpired | Duplicate | WrappedAround

  /** What `insert` reports: `Ok` stands for the drain iterator it hands back. */
  datatype Status = Ok | Err(error: InsertError)

  /** The `(u64, T)` pair held by an occupied slot. */
  datatype Entry<T> = Entry(seqNo: U64, item: T)

  type Slot<T> = Option<Entry<T>>

  /** The buffer's fields; the capacity `N` is `|items|`. `nextSlot` is
      written by `insert` and read by nothing. */
  datatype Buffer<T> = Buffer(items: seq<Slot<T>>, nextSlot: nat, readPos: nat, nextSeq: U64)

  /** The buffer after an `insert`, with the status it returned. */
  datatype InsertOutcome<T> = InsertOutcome(buffer: Buffer<T>, status: Status)

  /** The number of occupied slots. */
  function Occupied<T>(items: seq<Slot<T>>): (k: nat)
    ensures k <= |items|
    ensures k == 0 <==> forall i :: 0 <= i < |items| ==> items[i].None?
  {
    if |items| == 0 then 0
    else (if items[0].Some? then 1 else 0) + Occupied(items[1..])
  }

  /** The item the buffer holds under sequence number `q`, if any: it can
      only sit in slot `q % N`. */
  function Lookup<T>(b: Buffer<T>, q: nat): Option<T>
    requires |b.items| > 0
  {
    match b.items[q % |b.items|]
    case Some(e) => if e.seqNo == q then Some(e.item) else None
    case None => None
  }

  /** The structural invariant every operation keeps: each occupied slot
      holds a sequence number congruent to its index (and small enough that
      the drain's `+ 1` cannot overflow), the two cursors are slot indices,
      and `readPos` is the slot of `nextSeq`. */
  predicate Valid<T>(b: Buffer<T>) {
    && |b.items| > 0
    && b.readPos < |b.items|
    && b.nextSlot < |b.items|
    && b.readPos == b.nextSeq % |b.items|
    && forall i :: 0 <= i < |b.items| && b.items[i].Some? ==>
         b.items[i].value.seqNo % |b.items| == i && b.items[i].value.seqNo < U64_MAX
  }

  /** `new`: `n` empty slots and every counter at zero. A zero capacity
      would make the first `% N` panic, so it is excluded. */
  function New<T>(n: nat): (r: Buffer<T>)
    requires n > 0
    ensures Valid(r) && |r.items| == n
    ensures Occupied(r.items) == 0
    ensures forall q: nat :: Lookup(r, q).None?
    ensures r.nextSlot == 0 && r.readPos == 0 && r.nextSeq == 0
  {
    Buffer(seq(n, _ => None), 0, 0, 0)
  }

  /** `reset`: the state `new` would build, for the same capacity. */
  function Reset<T>(b: Buffer<T>): (r: Buffer<T>)
    requires |b.items| > 0
    ensures r == New(|b.items|)
    ensures Valid(r) && Occupied(r.items) == 0
    ensures forall q: nat :: Lookup(r, q).None?
  {
    Buffer(seq(|b.items|, _ => None), 0, 0, 0)
  }

  /** The source adds `N` to a sequence number at two places on the
      empty-slot path (`next_sequence_number + N`, and `seq + N` once the
      first comparison has failed); in a debug build an overflow there
      panics, so a caller must stay clear of it. */
  predicate NoInsertOverflow<T>(b: Buffer<T>, s: U64)
    requires |b.items| > 0
  {
    b.items[s % |b.items|].None? ==>
      && b.nextSeq + |b.items| <= U64_MAX
      && (s < b.nextSeq + |b.items| ==> s + |b.items| <= U64_MAX)
  }

  /** `insert(s, x)`. An occupied slot `s % N` decides by comparison with
      its resident; an empty one rejects arrivals at or beyond
      `nextSeq + N` and at or below `nextSeq - N`, and stores anything
      else -- including an arrival below `nextSeq`. */
  function Insert<T>(b: Buffer<T>, s: U64, x: T): (r: InsertOutcome<T>)
    requires |b.items| > 0
    requires NoInsertOverflow(b, s)
    // a rejection leaves every field as it was
    ensures r.status.Err? ==> r.buffer == b
    // occupied slot: compare with the resident sequence number
    ensures b.items[s % |b.items|].Some? ==>
              var e := b.items[s % |b.items|].value.seqNo;
              && (s < e <==> r.status == Err(PacketExpired))
              && (s == e <==> r.status == Err(Duplicate))
              && (e < s <==> r.status == Err(WrappedAround))
    // empty slot: compare with the window around nextSeq
    ensures b.items[s % |b.items|].None? ==>
              && (b.nextSeq + |b.items| <= s <==> r.status == Err(WrappedAround))
              && (s + |b.items| <= b.nextSeq <==> r.status == Err(PacketExpired))
              && r.status != Err(Duplicate)
    // acceptance: an empty slot and a sequence number less than N away from nextSeq
    ensures r.status == Ok <==>
              && b.items[s % |b.items|].None?
              && b.nextSeq < s + |b.items|
              && s < b.nextSeq + |b.items|
    // Duplicate means exactly that `s` is already resident
    ensures r.status == Err(Duplicate) <==> Lookup(b, s).Some?
    // a successful insert stores the pair in slot s % N and touches nothing else
    ensures r.status == Ok ==>
              && |r.buffer.items| == |b.items|
              && r.buffer.items[s % |b.items|] == Some(Entry(s, x))
              && (forall i :: 0 <= i < |b.items| && i != s % |b.items| ==> r.buffer.items[i] == b.items[i])
              && r.buffer.readPos == b.readPos
              && r.buffer.nextSeq == b.nextSeq
              && Occupied(r.buffer.items) == Occupied(b.items) + 1
              && Lookup(r.buffer, s) == Some(x)
              && (forall q: nat :: q != s ==> Lookup(r.buffer, q) == Lookup(b, q))
    // nextSlot advances exactly when the write lands on it
    ensures r.status == Ok && s % |b.items| == b.nextSlot ==>
              r.buffer.nextSlot == (b.nextSlot + 1) % |b.items|
    ensures r.status == Ok && s % |b.items| != b.nextSlot ==>
              r.buffer.nextSlot == b.nextSlot
  {
    var n := |b.items|;
    var slot := s % n;
    match b.items[slot]
    case Some(e) =>
      if s < e.seqNo then InsertOutcome(b, Err(PacketExpired))
      else if s == e.seqNo then InsertOutcome(b, Err(Duplicate))
      else InsertOutcome(b, Err(WrappedAround))
    case None =>
      if s >= b.nextSeq + n then InsertOutcome(b, Err(WrappedAround))
      else if s + n <= b.nextSeq then InsertOutcome(b, Err(PacketExpired))
      else
        var items' := b.items[slot := Some(Entry(s, x))];
        OccupiedUpdate(b.items, slot, Some(Entry(s, x)));
        var nextSlot' := if slot == b.nextSlot then (b.nextSlot + 1) % n else b.nextSlot;
        InsertOutcome(b.(items := items', nextSlot := nextSlot'), Ok)
  }

  /** Overwriting one slot changes the occupied count by the difference in
      that slot's occupancy. */
  lemma {:induction false} OccupiedUpdate<T>(items: seq<Slot<T>>, i: nat, v: Slot<T>)
    requires i < |items|
    ensures Occupied(items[i := v]) ==
            Occupied(items) - (if items[i].Some? then 1 else 0) + (if v.Some? then 1 else 0)
  {
    if i == 0 {
      assert items[i := v][1..] == items[1..];
    } else {
      assert items[i := v][1..] == items[1..][i - 1 := v];
      OccupiedUpdate(items[1..], i - 1, v);
    }
  }

  /** Every operation of `insert` keeps the structural invariant. */
  lemma InsertPreservesValid<T>(b: Buffer<T>, s: U64, x: T)
    requires Valid(b)
    requires NoInsertOverflow(b, s)
    ensures Valid(Insert(b, s, x).buffer)
  {
    var r := Insert(b, s, x);
    if r.status == Ok {
      var n := |b.items|;
      forall i | 0 <= i < n && r.buffer.items[i].Some?
        ensures r.buffer.items[i].value.seqNo % n == i && r.buffer.items[i].value.seqNo < U64_MAX
      {
        if i == s % n {
          assert r.buffer.items[i].value.seqNo == s;
        } else {
          assert r.buffer.items[i] == b.items[i];
        }
      }
    }
  }

  /** Right after `s` is accepted, while it is still held (before a drain
      delivers it), inserting it again -- with any payload, any number of
      times -- is a `Duplicate` that changes nothing. */
  lemma DuplicateIsIdempotent<T>(b: Buffer<T>, s: U64, x: T, y: T)
    requires |b.items| > 0
    requires NoInsertOverflow(b, s)
    requires Insert(b, s, x).status == Ok
    ensures var b1 := Insert(b, s, x).buffer;
            && Insert(b1, s, y) == InsertOutcome(b1, Err(Duplicate))
            && Insert(Insert(b1, s, y).buffer, s, y) == InsertOutcome(b1, Err(Duplicate))
  {
    var b1 := Insert(b, s, x).buffer;
    assert Lookup(b1, s) == Some(x);
  }
}
