/**
 A caller's session: a series of arrivals, each inserted and, when the
 insert succeeds, drained to exhaustion -- the usage pattern the crate's own
 test follows. As long as every arrival stays more than `N` below `u64::MAX`, no
 addition in `insert` or in the drain can overflow.
 */
module Session {
  import opened ReliabilityBuffer
  import opened BufferIterator

  /** A `(sequence number, item)` pair handed to `insert`. */
  datatype Arrival<T> = Arrival(seqNo: U64, item: T)

  /** Room above every sequence number in the buffer for the source's
      `+ N` and `+ 1` to stay within a `u64`. */
  predicate Headroom<T>(b: Buffer<T>) {
    && Valid(b)
    && b.nextSeq + |b.items| <= U64_MAX
    && forall i :: 0 <= i < |b.items| && b.items[i].Some? ==>
         b.items[i].value.seqNo + |b.items| < U64_MAX
  }

  /** An arrival far enough below `u64::MAX`. */
  predicate Fits(s: U64, n: nat) {
    s + n < U64_MAX
  }

  /** Draining keeps the headroom: the new `nextSeq` is one past a
      resident's sequence number. */
  lemma {:induction false} DrainKeepsHeadroom<T>(b: Buffer<T>)
    requires Headroom(b)
    ensures Headroom(Drain(b).buffer)
    decreases Occupied(b.items)
  {
    var st := DrainStep(b);
    if st.yielded.Some? {
      DrainStepPreservesValid(b);
      assert Headroom(st.buffer) by {
        forall i | 0 <= i < |b.items| && st.buffer.items[i].Some?
          ensures st.buffer.items[i].value.seqNo + |b.items| < U64_MAX
        {
          assert st.buffer.items[i] == b.items[i];
        }
      }
      DrainKeepsHeadroom(st.buffer);
    }
  }

  /** An arrival that fits cannot make `insert` overflow. */
  lemma FitsNeverOverflows<T>(b: Buffer<T>, s: U64)
    requires Headroom(b) && Fits(s, |b.items|)
    ensures NoInsertOverflow(b, s)
  {
  }

  /** With an arrival that fits, the headroom survives its insert and drain. */
  lemma InsertThenDrainKeepsHeadroom<T>(b: Buffer<T>, s: U64, x: T)
    requires Valid(b) && NoInsertOverflow(b, s)
    ensures Headroom(b) && Fits(s, |b.items|) ==> Headroom(InsertThenDrain(b, s, x).buffer)
  {
    var ins := Insert(b, s, x);
    if Headroom(b) && Fits(s, |b.items|) && ins.status == Ok {
      InsertPreservesValid(b, s, x);
      assert Headroom(ins.buffer) by {
        forall i | 0 <= i < |b.items| && ins.buffer.items[i].Some?
          ensures ins.buffer.items[i].value.seqNo + |b.items| < U64_MAX
        {
          if i != s % |b.items| {
            assert ins.buffer.items[i] == b.items[i];
          }
        }
      }
      DrainKeepsHeadroom(ins.buffer);
    }
  }

  /** The number of inserts in `log` that returned `Ok`. */
  function Accepted<T>(log: seq<Delivery<T>>): nat {
    if |log| == 0 then 0 else (if log[0].status == Ok then 1 else 0) + Accepted(log[1..])
  }

  /** The number of items delivered across `log`. */
  function DeliveredCount<T>(log: seq<Delivery<T>>): nat {
    if |log| == 0 then 0 else |log[0].items| + DeliveredCount(log[1..])
  }

  /** A step in front of a session log: validity and conservation carry over. */
  lemma LogCons<T>(b: Buffer<T>, d: Delivery<T>, rest: seq<Delivery<T>>)
    requires Valid(d.buffer) && |d.buffer.items| == |b.items|
    requires Occupied(b.items) + (if d.status == Ok then 1 else 0) == |d.items| + Occupied(d.buffer.items)
    requires forall i :: 0 <= i < |rest| ==> Valid(rest[i].buffer) && |rest[i].buffer.items| == |b.items|
    requires var last := if |rest| == 0 then d.buffer else rest[|rest| - 1].buffer;
             Occupied(d.buffer.items) + Accepted(rest) == DeliveredCount(rest) + Occupied(last.items)
    ensures var log := [d] + rest;
            && (forall i :: 0 <= i < |log| ==> Valid(log[i].buffer) && |log[i].buffer.items| == |b.items|)
            && Occupied(b.items) + Accepted(log) == DeliveredCount(log) + Occupied(log[|log| - 1].buffer.items)
  {
    var log := [d] + rest;
    assert log[1..] == rest;
  }

  /** Arrivals that all fit still all fit once the first is taken off. */
  lemma FitsTail<T>(arrivals: seq<Arrival<T>>, n: nat)
    requires |arrivals| > 0
    ensures (forall i :: 0 <= i < |arrivals| ==> Fits(arrivals[i].seqNo, n)) ==>
              Fits(arrivals[0].seqNo, n) && forall i :: 0 <= i < |arrivals[1..]| ==> Fits(arrivals[1..][i].seqNo, n)
  {
  }

  /** The session: every arrival in turn goes through insert-then-drain and
      the log records each answer and each batch delivered. An arrival
      whose insert would overflow is where the source panics, so the
      session ends there. Items are conserved: what was resident plus what
      was accepted is what was delivered plus what is resident at the end;
      and with headroom and arrivals that fit, no insert panics. */
  function Replay<T>(b: Buffer<T>, arrivals: seq<Arrival<T>>): (log: seq<Delivery<T>>)
    requires Valid(b)
    ensures |log| <= |arrivals|
    ensures forall i :: 0 <= i < |log| ==> Valid(log[i].buffer) && |log[i].buffer.items| == |b.items|
    ensures var last := if |log| == 0 then b else log[|log| - 1].buffer;
            Occupied(b.items) + Accepted(log) == DeliveredCount(log) + Occupied(last.items)
    ensures Headroom(b) && (forall i :: 0 <= i < |arrivals| ==> Fits(arrivals[i].seqNo, |b.items|)) ==>
              |log| == |arrivals|
    decreases |arrivals|
  {
    if |arrivals| == 0 || !NoInsertOverflow(b, arrivals[0].seqNo) then []
    else
      var a := arrivals[0];
      var d := InsertThenDrain(b, a.seqNo, a.item);
      InsertThenDrainKeepsHeadroom(b, a.seqNo, a.item);
      var rest := Replay(d.buffer, arrivals[1..]);
      LogCons(b, d, rest);
      FitsTail(arrivals, |b.items|);
      [d] + rest
  }

  /** A session follows any chain of states one insert-then-drain apart:
      its log is exactly the chain's answers and batches. */
  lemma {:induction false} ReplayFollows<T>(states: seq<Buffer<T>>, arrivals: seq<Arrival<T>>,
                                             statuses: seq<Status>, batches: seq<seq<T>>)
    requires |states| == |arrivals| + 1 && |statuses| == |batches| == |arrivals|
    requires Valid(states[0])
    requires forall i :: 0 <= i < |arrivals| ==>
               && Valid(states[i])
               && NoInsertOverflow(states[i], arrivals[i].seqNo)
               && InsertThenDrain(states[i], arrivals[i].seqNo, arrivals[i].item)
                  == Delivery(states[i + 1], statuses[i], batches[i])
    ensures var log := Replay(states[0], arrivals);
            && |log| == |arrivals|
            && forall i :: 0 <= i < |log| ==> log[i] == Delivery(states[i + 1], statuses[i], batches[i])
    decreases |arrivals|
  {
    if |arrivals| > 0 {
      var d := Delivery(states[1], statuses[0], batches[0]);
      ReplayFollows(states[1..], arrivals[1..], statuses[1..], batches[1..]);
      var rest := Replay(states[1], arrivals[1..]);
      assert Replay(states[0], arrivals) == [d] + rest;
    }
  }

  /** Step `k` of a run laid out as tables: from a valid `states(k)`, the
      insert of `arrivals(k)` does not panic, and insert-then-drain answers
      `statuses(k)`, delivers `batches(k)` and leaves `states(k + 1)`. */
  ghost predicate Link<T>(states: int -> Buffer<T>, arrivals: int -> Arrival<T>,
                          statuses: int -> Status, batches: int -> seq<T>, k: int)
  {
    && Valid(states(k))
    && NoInsertOverflow(states(k), arrivals(k).seqNo)
    && InsertThenDrain(states(k), arrivals(k).seqNo, arrivals(k).item)
       == Delivery(states(k + 1), statuses(k), batches(k))
  }

  /** Along a run whose steps are links, every state is valid. */
  lemma {:induction false} RunStaysValid<T>(states: int -> Buffer<T>, arrivals: int -> Arrival<T>,
                                            statuses: int -> Status, batches: int -> seq<T>,
                                            n: nat, k: nat)
    requires Valid(states(0)) && k <= n
    requires forall j :: 0 <= j < n && Valid(states(j)) ==> Link(states, arrivals, statuses, batches, j)
    ensures Valid(states(k))
    decreases k
  {
    if k > 0 {
      var j := k - 1;
      RunStaysValid(states, arrivals, statuses, batches, n, j);
      assert Link(states, arrivals, statuses, batches, j);
      var d := InsertThenDrain(states(j), arrivals(j).seqNo, arrivals(j).item);
      assert d.buffer == states(j + 1) && j + 1 == k;
    }
  }

  /** A run laid out as tables, whose every step is a link, is exactly what
      the session returns: its answers and its batches, step by step. */
  lemma RunFollows<T>(states: int -> Buffer<T>, arrivals: int -> Arrival<T>,
                      statuses: int -> Status, batches: int -> seq<T>, n: nat)
    requires Valid(states(0))
    requires forall k :: 0 <= k < n && Valid(states(k)) ==> Link(states, arrivals, statuses, batches, k)
    ensures var log := Replay(states(0), seq(n, arrivals));
            && |log| == n
            && forall k :: 0 <= k < n ==> log[k] == Delivery(states(k + 1), statuses(k), batches(k))
  {
    var chain := seq(n + 1, states);
    var arr := seq(n, arrivals);
    var answers := seq(n, statuses);
    var delivered := seq(n, batches);
    forall k | 0 <= k < n
      ensures && Valid(chain[k])
              && NoInsertOverflow(chain[k], arr[k].seqNo)
              && InsertThenDrain(chain[k], arr[k].seqNo, arr[k].item)
                 == Delivery(chain[k + 1], answers[k], delivered[k])
    {
      RunStaysValid(states, arrivals, statuses, batches, n, k);
      assert Link(states, arrivals, statuses, batches, k);
    }
    ReplayFollows(chain, arr, answers, delivered);
  }
}
