/**
 `ReliabilityBufferIterator`: the destructive, in-order drain handed back by
 a successful `insert`. The iterator's exclusive borrow of the buffer is
 modelled by threading the buffer state through each step.
 */
module BufferIterator {
  import opened ReliabilityBuffer
  import Residues

  /** One call of `next`: the buffer afterwards and the item yielded. */
  datatype Step<T> = Step(buffer: Buffer<T>, yielded: Option<T>)

  /** A drain run to exhaustion: the buffer afterwards and the items yielded, in order. */
  datatype Drained<T> = Drained(buffer: Buffer<T>, items: seq<T>)

  /** `next`: take the slot at `readPos`; if it held `(s, x)`, yield `x`,
      move `readPos` on by one slot and make `s + 1` the next sequence
      number. An empty slot yields nothing and changes nothing. */
  function DrainStep<T>(b: Buffer<T>): (r: Step<T>)
    requires b.readPos < |b.items|
    requires b.items[b.readPos].Some? ==> b.items[b.readPos].value.seqNo < U64_MAX
    ensures |r.buffer.items| == |b.items|
    ensures b.items[b.readPos].None? ==> r == Step(b, None)
    ensures b.items[b.readPos].Some? ==>
              var e := b.items[b.readPos].value;
              && r.yielded == Some(e.item)
              && r.buffer.items == b.items[b.readPos := None]
              && r.buffer.readPos == (b.readPos + 1) % |b.items|
              && r.buffer.nextSeq == e.seqNo + 1
              && r.buffer.nextSlot == b.nextSlot
              && Occupied(r.buffer.items) == Occupied(b.items) - 1
  {
    match b.items[b.readPos]
    case None => Step(b, None)
    case Some(e) =>
      OccupiedUpdate(b.items, b.readPos, None);
      Step(b.(items := b.items[b.readPos := None],
              readPos := (b.readPos + 1) % |b.items|,
              nextSeq := e.seqNo + 1),
           Some(e.item))
  }

  /** A drain step keeps the structural invariant: the taken entry's
      sequence number is congruent to `readPos`, so its successor is
      congruent to the advanced `readPos`. */
  lemma DrainStepPreservesValid<T>(b: Buffer<T>)
    requires Valid(b)
    ensures Valid(DrainStep(b).buffer)
  {
    var n := |b.items|;
    if b.items[b.readPos].Some? {
      var s := b.items[b.readPos].value.seqNo;
      assert s % n == b.readPos;
      Residues.SuccessorResidue(s, n);
    }
  }

  /** Iterating `next` until it returns `None`. Every yielding step empties
      one occupied slot, so the drain terminates after at most `N` items
      and stops at an empty `readPos` slot. */
  function Drain<T>(b: Buffer<T>): (r: Drained<T>)
    requires Valid(b)
    ensures Valid(r.buffer) && |r.buffer.items| == |b.items|
    ensures |r.items| + Occupied(r.buffer.items) == Occupied(b.items)
    ensures |r.items| <= |b.items|
    ensures r.buffer.items[r.buffer.readPos].None?
    ensures r.buffer.nextSlot == b.nextSlot
    decreases Occupied(b.items)
  {
    var st := DrainStep(b);
    match st.yielded
    case None => Drained(b, [])
    case Some(x) =>
      DrainStepPreservesValid(b);
      var rest := Drain(st.buffer);
      Drained(rest.buffer, [x] + rest.items)
  }

  /** A drain that starts at an empty slot yields nothing. */
  lemma DrainNil<T>(b: Buffer<T>)
    requires Valid(b) && DrainStep(b).yielded.None?
    ensures Drain(b) == Drained(b, [])
  {
  }

  /** A drain that starts with a yielding step is that item followed by
      the drain from the state after the step. */
  lemma DrainCons<T>(b: Buffer<T>, b': Buffer<T>, x: T, rest: Drained<T>)
    requires Valid(b) && DrainStep(b) == Step(b', Some(x))
    requires Valid(b') ==> Drain(b') == rest
    ensures Drain(b) == Drained(rest.buffer, [x] + rest.items)
  {
    DrainStepPreservesValid(b);
  }

  /** The consuming `for msg in buffer.insert(..).unwrap()` loop: calls `next` until
      the iterator is exhausted, collecting what it yields. */
  method DrainAll<T>(b: Buffer<T>) returns (b': Buffer<T>, out: seq<T>)
    requires Valid(b)
    ensures Drained(b', out) == Drain(b)
  {
    b' := b;
    out := [];
    while b'.items[b'.readPos].Some?
      invariant Valid(b')
      invariant Drain(b) == Drained(Drain(b').buffer, out + Drain(b').items)
      decreases Occupied(b'.items)
    {
      var st := DrainStep(b');
      DrainStepPreservesValid(b');
      ghost var rest := Drain(st.buffer);
      DrainCons(b', st.buffer, st.yielded.value, rest);
      assert out + ([st.yielded.value] + rest.items) == (out + [st.yielded.value]) + rest.items;
      out := out + [st.yielded.value];
      b' := st.buffer;
    }
  }

  /** What a caller receives from `insert` followed by draining the
      returned iterator to exhaustion. */
  datatype Delivery<T> = Delivery(buffer: Buffer<T>, status: Status, items: seq<T>)

  /** `if let Ok(it) = buffer.insert(s, x) { for msg in it { .. } }`: an
      `Err` hands back no iterator and leaves the buffer alone; `Ok` is
      followed by a full drain. */
  function InsertThenDrain<T>(b: Buffer<T>, s: U64, x: T): (r: Delivery<T>)
    requires Valid(b)
    requires NoInsertOverflow(b, s)
    ensures Valid(r.buffer) && |r.buffer.items| == |b.items|
    ensures r.status == Insert(b, s, x).status
    ensures r.status.Err? ==> r.buffer == b && r.items == []
    ensures r.status == Ok ==> 1 <= |r.items| + Occupied(r.buffer.items) == Occupied(b.items) + 1
    ensures r.status == Ok ==> r.buffer.items[r.buffer.readPos].None?
  {
    var ins := Insert(b, s, x);
    match ins.status
    case Err(_) => Delivery(b, ins.status, [])
    case Ok =>
      InsertPreservesValid(b, s, x);
      var d := Drain(ins.buffer);
      Delivery(d.buffer, Ok, d.items)
  }
}
