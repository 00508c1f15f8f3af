/**
 Stale arrivals. On an empty slot, `insert` rejects an arrival only when it
 is at least `N` below `nextSeq`; an arrival below `nextSeq` but less than
 `N` below it -- already delivered -- is stored. The drain later reaches that slot again, delivers
 the old item a second time and moves `nextSeq` backwards. This module
 shows that for the code as written, and proves that the corrected rule
 for an empty slot -- an arrival below `nextSeq` was already delivered, so
 it is answered `Duplicate` and not stored -- keeps the window invariant
 for every arrival.
 */
module StaleArrival {
  import opened ReliabilityBuffer
  import opened BufferIterator
  import opened Session
  import opened Window

  /** As written: with `N > 1`, the arrival just below `nextSeq` is accepted
      whenever its slot is free, and afterwards a resident lies below the
      window. */
  lemma StaleArrivalAccepted<T>(b: Buffer<T>, x: T)
    requires InWindow(b) && |b.items| > 1 && b.nextSeq > 0
    requires b.nextSeq + |b.items| <= U64_MAX
    requires b.items[(b.nextSeq - 1) % |b.items|].None?
    ensures NoInsertOverflow(b, b.nextSeq - 1)
    ensures Insert(b, b.nextSeq - 1, x).status == Ok
    ensures !InWindow(Insert(b, b.nextSeq - 1, x).buffer)
  {
    var s := b.nextSeq - 1;
    var r := Insert(b, s, x);
    assert r.buffer.items[s % |b.items|] == Some(Entry(s, x));
  }

  /** `insert` with the corrected rule for an empty slot: an arrival below
      `nextSeq` but less than `N` below it has already been delivered and
      is a `Duplicate`; every other arrival is answered as the code does. */
  function InsertChecked<T>(b: Buffer<T>, s: U64, x: T): (r: InsertOutcome<T>)
    requires |b.items| > 0
    requires NoInsertOverflow(b, s)
    ensures r.status.Err? ==> r.buffer == b
    ensures b.nextSeq <= s ==> r == Insert(b, s, x)
    ensures s < b.nextSeq ==> r.status.Err?
  {
    if b.items[s % |b.items|].None? && s < b.nextSeq < s + |b.items| then
      InsertOutcome(b, Err(Duplicate))
    else
      Insert(b, s, x)
  }

  /** The capacity law for the corrected insert: the arrival just
      below `nextSeq` is a `Duplicate` whenever its slot is free and `N > 1`,
      where the code as written stores it. */
  lemma CheckedRejectsPrevious<T>(b: Buffer<T>, x: T)
    requires InWindow(b) && |b.items| > 1 && b.nextSeq > 0
    requires b.nextSeq + |b.items| <= U64_MAX
    requires b.items[(b.nextSeq - 1) % |b.items|].None?
    ensures NoInsertOverflow(b, b.nextSeq - 1)
    ensures InsertChecked(b, b.nextSeq - 1, x) == InsertOutcome(b, Err(Duplicate))
    ensures Insert(b, b.nextSeq - 1, x).status == Ok
  {
  }

  /** With the window invariant, the corrected insert answers an arrival
      below `nextSeq` with `Duplicate` or `PacketExpired` -- never stores it. */
  lemma CheckedBelowWindow<T>(b: Buffer<T>, s: U64, x: T)
    requires InWindow(b) && NoInsertOverflow(b, s)
    requires s < b.nextSeq
    ensures InsertChecked(b, s, x).status in {Err(Duplicate), Err(PacketExpired)}
    ensures InsertChecked(b, s, x).buffer == b
  {
    var i := s % |b.items|;
    if b.items[i].Some? {
      assert b.nextSeq <= b.items[i].value.seqNo;
    }
  }

  /** The corrected insert keeps the window invariant for every arrival, so
      the drain after it delivers in order. */
  lemma CheckedDeliversInOrder<T>(b: Buffer<T>, s: U64, x: T)
    requires InWindow(b) && NoInsertOverflow(b, s)
    ensures var r := InsertChecked(b, s, x);
            && InWindow(r.buffer)
            && (r.status == Ok ==> b.nextSeq <= s && DeliversInOrder(r.buffer, Drain(r.buffer)))
  {
    var r := InsertChecked(b, s, x);
    if b.nextSeq <= s {
      InsertPreservesWindow(b, s, x);
      if r.status == Ok {
        DrainInOrder(r.buffer);
      }
    }
  }

  /* A run that shows the redelivery: 0 to 4 are inserted and delivered in
     order, then 3 arrives again, then 5, 6 and 7. */


  /** The `k`-th arrival of the run. */
  function TestArrival(k: int): Arrival<string> {
    if k == 0 then Arrival(0, "0")
    else if k == 1 then Arrival(1, "1")
    else if k == 2 then Arrival(2, "2")
    else if k == 3 then Arrival(3, "3")
    else if k == 4 then Arrival(4, "4")
    else if k == 5 then Arrival(3, "3")
    else if k == 6 then Arrival(5, "5")
    else if k == 7 then Arrival(6, "6")
    else Arrival(7, "7")
  }

  /** What the code answers at step `k`: every insert is `Ok`. */
  function ExpectedStatus(k: int): Status {
    Ok
  }

  /** What the drain after step `k` yields. */
  function ExpectedBatch(k: int): seq<string> {
    if k == 0 then ["0"]
    else if k == 1 then ["1"]
    else if k == 2 then ["2"]
    else if k == 3 then ["3"]
    else if k == 4 then ["4"]
    else if k == 5 then []
    else if k == 6 then ["5"]
    else if k == 7 then ["6"]
    else ["7", "3"]
  }

  /** As written, the run delivers 3 twice: once in order and again after 7,
      and the last drain, which starts at `nextSeq = 7`, leaves `nextSeq = 4`. */
  lemma Redelivery()
    ensures var log := Replay(New<string>(5), seq(9, TestArrival));
            && |log| == 9
            && (forall k :: 0 <= k < 9 ==> log[k].status == Ok)
            && log[3].items == ["3"]
            && log[8].items == ["7", "3"]
            && log[7].buffer.nextSeq == 7 && log[8].buffer.nextSeq == 4
  {
    RedeliveryReplay(New(5), seq(9, TestArrival));
    RunFacts();
  }

  lemma RunFacts()
    ensures forall k :: 0 <= k < 9 ==> ExpectedStatus(k) == Ok
    ensures ExpectedBatch(3) == ["3"] && ExpectedBatch(8) == ["7", "3"]
    ensures S(8).nextSeq == 7 && S(9).nextSeq == 4
  {
  }

  lemma RedeliveryReplay(b: Buffer<string>, arrivals: seq<Arrival<string>>)
    requires b == New(5) && arrivals == seq(9, TestArrival)
    ensures var log := Replay(b, arrivals);
            && |log| == 9
            && forall k :: 0 <= k < 9 ==> log[k] == Delivery(S(k + 1), ExpectedStatus(k), ExpectedBatch(k))
  {
    forall k | 0 <= k < 9 && Valid(S(k))
      ensures Link(S, TestArrival, ExpectedStatus, ExpectedBatch, k)
    {
      StepFact(k);
    }
    assert S(0) == b;
    RunFollows(S, TestArrival, ExpectedStatus, ExpectedBatch, 9);
  }

  /** Step `k` of the run is a link from `S(k)` to `S(k + 1)`. */
  lemma StepFact(k: nat)
    requires k < 9 && Valid(S(k))
    ensures Link(S, TestArrival, ExpectedStatus, ExpectedBatch, k)
  {
    if k == 0 {
      Step0(k);
    } else if k == 1 {
      Step1(k);
    } else if k == 2 {
      Step2(k);
    } else if k == 3 {
      Step3(k);
    } else if k == 4 {
      Step4(k);
    } else if k == 5 {
      Step5(k);
    } else if k == 6 {
      Step6(k);
    } else if k == 7 {
      Step7(k);
    } else {
      Step8(k);
    }
  }

  /** The buffer before step `k` (and after step `k - 1`). */
  function S(k: int): Buffer<string> {
    if k == 0 then Buffer([None, None, None, None, None], 0, 0, 0)
    else if k == 1 then Buffer([None, None, None, None, None], 1, 1, 1)
    else if k == 2 then Buffer([None, None, None, None, None], 2, 2, 2)
    else if k == 3 then Buffer([None, None, None, None, None], 3, 3, 3)
    else if k == 4 then Buffer([None, None, None, None, None], 4, 4, 4)
    else if k == 5 then Buffer([None, None, None, None, None], 0, 0, 5)
    else if k == 6 then Buffer([None, None, None, Some(Entry(3, "3")), None], 0, 0, 5)
    else if k == 7 then Buffer([None, None, None, Some(Entry(3, "3")), None], 1, 1, 6)
    else if k == 8 then Buffer([None, None, None, Some(Entry(3, "3")), None], 2, 2, 7)
    else Buffer([None, None, None, None, None], 3, 4, 4)
  }

  lemma Step0(k: nat)
    requires k == 0 && Valid(S(k))
    ensures Link(S, TestArrival, ExpectedStatus, ExpectedBatch, k)
  {
    assert TestArrival(k) == Arrival(0, "0");
    assert ExpectedStatus(k) == Ok && ExpectedBatch(k) == ["0"];
    var b := Buffer([Some(Entry(0, "0")), None, None, None, None], 1, 0, 0);
    Insert0(b);
    InsertPreservesValid(S(0), 0, "0");
    Drain0_0(b);
  }

  lemma Insert0(b: Buffer<string>)
    requires b == Buffer([Some(Entry(0, "0")), None, None, None, None], 1, 0, 0)
    ensures NoInsertOverflow(S(0), 0)
    ensures Insert(S(0), 0, "0") == InsertOutcome(b, Ok)
  {
    assert S(0) == Buffer([None, None, None, None, None], 0, 0, 0);
    Upd0();
    assert 0 % 5 == 0;
  }

  lemma Upd0()
    ensures [None, None, None, None, None][0 := Some(Entry(0, "0"))] == [Some(Entry(0, "0")), None, None, None, None]
  {
  }

  lemma Drain0_0(b: Buffer<string>)
    requires b == Buffer([Some(Entry(0, "0")), None, None, None, None], 1, 0, 0)
    requires Valid(b)
    ensures Drain(b) == Drained(S(1), ["0"])
  {
    var b' := Buffer([None, None, None, None, None], 1, 1, 1);
    Take0_0(b, b');
    DrainStepPreservesValid(b);
    Drain0_1(b');
    DrainCons(b, b', "0", Drained(S(1), []));
    Cons0_0();
  }

  lemma Cons0_0()
    ensures ["0"] + [] == ["0"]
  {
  }

  lemma Take0_0(b: Buffer<string>, b': Buffer<string>)
    requires b == Buffer([Some(Entry(0, "0")), None, None, None, None], 1, 0, 0)
    requires b' == Buffer([None, None, None, None, None], 1, 1, 1)
    ensures DrainStep(b) == Step(b', Some("0"))
  {
  }

  lemma Drain0_1(b: Buffer<string>)
    requires b == Buffer([None, None, None, None, None], 1, 1, 1)
    requires Valid(b)
    ensures Drain(b) == Drained(S(1), [])
  {
    DrainNil(b);
    assert S(1) == b;
  }

  lemma Step1(k: nat)
    requires k == 1 && Valid(S(k))
    ensures Link(S, TestArrival, ExpectedStatus, ExpectedBatch, k)
  {
    assert TestArrival(k) == Arrival(1, "1");
    assert ExpectedStatus(k) == Ok && ExpectedBatch(k) == ["1"];
    var b := Buffer([None, Some(Entry(1, "1")), None, None, None], 2, 1, 1);
    Insert1(b);
    InsertPreservesValid(S(1), 1, "1");
    Drain1_0(b);
  }

  lemma Insert1(b: Buffer<string>)
    requires b == Buffer([None, Some(Entry(1, "1")), None, None, None], 2, 1, 1)
    ensures NoInsertOverflow(S(1), 1)
    ensures Insert(S(1), 1, "1") == InsertOutcome(b, Ok)
  {
    assert S(1) == Buffer([None, None, None, None, None], 1, 1, 1);
    Upd1();
    assert 1 % 5 == 1;
  }

  lemma Upd1()
    ensures [None, None, None, None, None][1 := Some(Entry(1, "1"))] == [None, Some(Entry(1, "1")), None, None, None]
  {
  }

  lemma Drain1_0(b: Buffer<string>)
    requires b == Buffer([None, Some(Entry(1, "1")), None, None, None], 2, 1, 1)
    requires Valid(b)
    ensures Drain(b) == Drained(S(2), ["1"])
  {
    var b' := Buffer([None, None, None, None, None], 2, 2, 2);
    Take1_0(b, b');
    DrainStepPreservesValid(b);
    Drain1_1(b');
    DrainCons(b, b', "1", Drained(S(2), []));
    Cons1_0();
  }

  lemma Cons1_0()
    ensures ["1"] + [] == ["1"]
  {
  }

  lemma Take1_0(b: Buffer<string>, b': Buffer<string>)
    requires b == Buffer([None, Some(Entry(1, "1")), None, None, None], 2, 1, 1)
    requires b' == Buffer([None, None, None, None, None], 2, 2, 2)
    ensures DrainStep(b) == Step(b', Some("1"))
  {
  }

  lemma Drain1_1(b: Buffer<string>)
    requires b == Buffer([None, None, None, None, None], 2, 2, 2)
    requires Valid(b)
    ensures Drain(b) == Drained(S(2), [])
  {
    DrainNil(b);
    assert S(2) == b;
  }

  lemma Step2(k: nat)
    requires k == 2 && Valid(S(k))
    ensures Link(S, TestArrival, ExpectedStatus, ExpectedBatch, k)
  {
    assert TestArrival(k) == Arrival(2, "2");
    assert ExpectedStatus(k) == Ok && ExpectedBatch(k) == ["2"];
    var b := Buffer([None, None, Some(Entry(2, "2")), None, None], 3, 2, 2);
    Insert2(b);
    InsertPreservesValid(S(2), 2, "2");
    Drain2_0(b);
  }

  lemma Insert2(b: Buffer<string>)
    requires b == Buffer([None, None, Some(Entry(2, "2")), None, None], 3, 2, 2)
    ensures NoInsertOverflow(S(2), 2)
    ensures Insert(S(2), 2, "2") == InsertOutcome(b, Ok)
  {
    assert S(2) == Buffer([None, None, None, None, None], 2, 2, 2);
    Upd2();
    assert 2 % 5 == 2;
  }

  lemma Upd2()
    ensures [None, None, None, None, None][2 := Some(Entry(2, "2"))] == [None, None, Some(Entry(2, "2")), None, None]
  {
  }

  lemma Drain2_0(b: Buffer<string>)
    requires b == Buffer([None, None, Some(Entry(2, "2")), None, None], 3, 2, 2)
    requires Valid(b)
    ensures Drain(b) == Drained(S(3), ["2"])
  {
    var b' := Buffer([None, None, None, None, None], 3, 3, 3);
    Take2_0(b, b');
    DrainStepPreservesValid(b);
    Drain2_1(b');
    DrainCons(b, b', "2", Drained(S(3), []));
    Cons2_0();
  }

  lemma Cons2_0()
    ensures ["2"] + [] == ["2"]
  {
  }

  lemma Take2_0(b: Buffer<string>, b': Buffer<string>)
    requires b == Buffer([None, None, Some(Entry(2, "2")), None, None], 3, 2, 2)
    requires b' == Buffer([None, None, None, None, None], 3, 3, 3)
    ensures DrainStep(b) == Step(b', Some("2"))
  {
  }

  lemma Drain2_1(b: Buffer<string>)
    requires b == Buffer([None, None, None, None, None], 3, 3, 3)
    requires Valid(b)
    ensures Drain(b) == Drained(S(3), [])
  {
    DrainNil(b);
    assert S(3) == b;
  }

  lemma Step3(k: nat)
    requires k == 3 && Valid(S(k))
    ensures Link(S, TestArrival, ExpectedStatus, ExpectedBatch, k)
  {
    assert TestArrival(k) == Arrival(3, "3");
    assert ExpectedStatus(k) == Ok && ExpectedBatch(k) == ["3"];
    var b := Buffer([None, None, None, Some(Entry(3, "3")), None], 4, 3, 3);
    Insert3(b);
    InsertPreservesValid(S(3), 3, "3");
    Drain3_0(b);
  }

  lemma Insert3(b: Buffer<string>)
    requires b == Buffer([None, None, None, Some(Entry(3, "3")), None], 4, 3, 3)
    ensures NoInsertOverflow(S(3), 3)
    ensures Insert(S(3), 3, "3") == InsertOutcome(b, Ok)
  {
    assert S(3) == Buffer([None, None, None, None, None], 3, 3, 3);
    Upd3();
    assert 3 % 5 == 3;
  }

  lemma Upd3()
    ensures [None, None, None, None, None][3 := Some(Entry(3, "3"))] == [None, None, None, Some(Entry(3, "3")), None]
  {
  }

  lemma Drain3_0(b: Buffer<string>)
    requires b == Buffer([None, None, None, Some(Entry(3, "3")), None], 4, 3, 3)
    requires Valid(b)
    ensures Drain(b) == Drained(S(4), ["3"])
  {
    var b' := Buffer([None, None, None, None, None], 4, 4, 4);
    Take3_0(b, b');
    DrainStepPreservesValid(b);
    Drain3_1(b');
    DrainCons(b, b', "3", Drained(S(4), []));
    Cons3_0();
  }

  lemma Cons3_0()
    ensures ["3"] + [] == ["3"]
  {
  }

  lemma Take3_0(b: Buffer<string>, b': Buffer<string>)
    requires b == Buffer([None, None, None, Some(Entry(3, "3")), None], 4, 3, 3)
    requires b' == Buffer([None, None, None, None, None], 4, 4, 4)
    ensures DrainStep(b) == Step(b', Some("3"))
  {
  }

  lemma Drain3_1(b: Buffer<string>)
    requires b == Buffer([None, None, None, None, None], 4, 4, 4)
    requires Valid(b)
    ensures Drain(b) == Drained(S(4), [])
  {
    DrainNil(b);
    assert S(4) == b;
  }

  lemma Step4(k: nat)
    requires k == 4 && Valid(S(k))
    ensures Link(S, TestArrival, ExpectedStatus, ExpectedBatch, k)
  {
    assert TestArrival(k) == Arrival(4, "4");
    assert ExpectedStatus(k) == Ok && ExpectedBatch(k) == ["4"];
    var b := Buffer([None, None, None, None, Some(Entry(4, "4"))], 0, 4, 4);
    Insert4(b);
    InsertPreservesValid(S(4), 4, "4");
    Drain4_0(b);
  }

  lemma Insert4(b: Buffer<string>)
    requires b == Buffer([None, None, None, None, Some(Entry(4, "4"))], 0, 4, 4)
    ensures NoInsertOverflow(S(4), 4)
    ensures Insert(S(4), 4, "4") == InsertOutcome(b, Ok)
  {
    assert S(4) == Buffer([None, None, None, None, None], 4, 4, 4);
    Upd4();
    assert 4 % 5 == 4;
  }

  lemma Upd4()
    ensures [None, None, None, None, None][4 := Some(Entry(4, "4"))] == [None, None, None, None, Some(Entry(4, "4"))]
  {
  }

  lemma Drain4_0(b: Buffer<string>)
    requires b == Buffer([None, None, None, None, Some(Entry(4, "4"))], 0, 4, 4)
    requires Valid(b)
    ensures Drain(b) == Drained(S(5), ["4"])
  {
    var b' := Buffer([None, None, None, None, None], 0, 0, 5);
    Take4_0(b, b');
    DrainStepPreservesValid(b);
    Drain4_1(b');
    DrainCons(b, b', "4", Drained(S(5), []));
    Cons4_0();
  }

  lemma Cons4_0()
    ensures ["4"] + [] == ["4"]
  {
  }

  lemma Take4_0(b: Buffer<string>, b': Buffer<string>)
    requires b == Buffer([None, None, None, None, Some(Entry(4, "4"))], 0, 4, 4)
    requires b' == Buffer([None, None, None, None, None], 0, 0, 5)
    ensures DrainStep(b) == Step(b', Some("4"))
  {
  }

  lemma Drain4_1(b: Buffer<string>)
    requires b == Buffer([None, None, None, None, None], 0, 0, 5)
    requires Valid(b)
    ensures Drain(b) == Drained(S(5), [])
  {
    DrainNil(b);
    assert S(5) == b;
  }

  lemma Step5(k: nat)
    requires k == 5 && Valid(S(k))
    ensures Link(S, TestArrival, ExpectedStatus, ExpectedBatch, k)
  {
    assert TestArrival(k) == Arrival(3, "3");
    assert ExpectedStatus(k) == Ok && ExpectedBatch(k) == [];
    var b := Buffer([None, None, None, Some(Entry(3, "3")), None], 0, 0, 5);
    Insert5(b);
    InsertPreservesValid(S(5), 3, "3");
    Drain5_0(b);
  }

  lemma Insert5(b: Buffer<string>)
    requires b == Buffer([None, None, None, Some(Entry(3, "3")), None], 0, 0, 5)
    ensures NoInsertOverflow(S(5), 3)
    ensures Insert(S(5), 3, "3") == InsertOutcome(b, Ok)
  {
    assert S(5) == Buffer([None, None, None, None, None], 0, 0, 5);
    Upd5();
    assert 3 % 5 == 3;
  }

  lemma Upd5()
    ensures [None, None, None, None, None][3 := Some(Entry(3, "3"))] == [None, None, None, Some(Entry(3, "3")), None]
  {
  }

  lemma Drain5_0(b: Buffer<string>)
    requires b == Buffer([None, None, None, Some(Entry(3, "3")), None], 0, 0, 5)
    requires Valid(b)
    ensures Drain(b) == Drained(S(6), [])
  {
    DrainNil(b);
    assert S(6) == b;
  }

  lemma Step6(k: nat)
    requires k == 6 && Valid(S(k))
    ensures Link(S, TestArrival, ExpectedStatus, ExpectedBatch, k)
  {
    assert TestArrival(k) == Arrival(5, "5");
    assert ExpectedStatus(k) == Ok && ExpectedBatch(k) == ["5"];
    var b := Buffer([Some(Entry(5, "5")), None, None, Some(Entry(3, "3")), None], 1, 0, 5);
    Insert6(b);
    InsertPreservesValid(S(6), 5, "5");
    Drain6_0(b);
  }

  lemma Insert6(b: Buffer<string>)
    requires b == Buffer([Some(Entry(5, "5")), None, None, Some(Entry(3, "3")), None], 1, 0, 5)
    ensures NoInsertOverflow(S(6), 5)
    ensures Insert(S(6), 5, "5") == InsertOutcome(b, Ok)
  {
    assert S(6) == Buffer([None, None, None, Some(Entry(3, "3")), None], 0, 0, 5);
    Upd6();
    assert 5 % 5 == 0;
  }

  lemma Upd6()
    ensures [None, None, None, Some(Entry(3, "3")), None][0 := Some(Entry(5, "5"))] == [Some(Entry(5, "5")), None, None, Some(Entry(3, "3")), None]
  {
  }

  lemma Drain6_0(b: Buffer<string>)
    requires b == Buffer([Some(Entry(5, "5")), None, None, Some(Entry(3, "3")), None], 1, 0, 5)
    requires Valid(b)
    ensures Drain(b) == Drained(S(7), ["5"])
  {
    var b' := Buffer([None, None, None, Some(Entry(3, "3")), None], 1, 1, 6);
    Take6_0(b, b');
    DrainStepPreservesValid(b);
    Drain6_1(b');
    DrainCons(b, b', "5", Drained(S(7), []));
    Cons6_0();
  }

  lemma Cons6_0()
    ensures ["5"] + [] == ["5"]
  {
  }

  lemma Take6_0(b: Buffer<string>, b': Buffer<string>)
    requires b == Buffer([Some(Entry(5, "5")), None, None, Some(Entry(3, "3")), None], 1, 0, 5)
    requires b' == Buffer([None, None, None, Some(Entry(3, "3")), None], 1, 1, 6)
    ensures DrainStep(b) == Step(b', Some("5"))
  {
  }

  lemma Drain6_1(b: Buffer<string>)
    requires b == Buffer([None, None, None, Some(Entry(3, "3")), None], 1, 1, 6)
    requires Valid(b)
    ensures Drain(b) == Drained(S(7), [])
  {
    DrainNil(b);
    assert S(7) == b;
  }

  lemma Step7(k: nat)
    requires k == 7 && Valid(S(k))
    ensures Link(S, TestArrival, ExpectedStatus, ExpectedBatch, k)
  {
    assert TestArrival(k) == Arrival(6, "6");
    assert ExpectedStatus(k) == Ok && ExpectedBatch(k) == ["6"];
    var b := Buffer([None, Some(Entry(6, "6")), None, Some(Entry(3, "3")), None], 2, 1, 6);
    Insert7(b);
    InsertPreservesValid(S(7), 6, "6");
    Drain7_0(b);
  }

  lemma Insert7(b: Buffer<string>)
    requires b == Buffer([None, Some(Entry(6, "6")), None, Some(Entry(3, "3")), None], 2, 1, 6)
    ensures NoInsertOverflow(S(7), 6)
    ensures Insert(S(7), 6, "6") == InsertOutcome(b, Ok)
  {
    assert S(7) == Buffer([None, None, None, Some(Entry(3, "3")), None], 1, 1, 6);
    Upd7();
    assert 6 % 5 == 1;
  }

  lemma Upd7()
    ensures [None, None, None, Some(Entry(3, "3")), None][1 := Some(Entry(6, "6"))] == [None, Some(Entry(6, "6")), None, Some(Entry(3, "3")), None]
  {
  }

  lemma Drain7_0(b: Buffer<string>)
    requires b == Buffer([None, Some(Entry(6, "6")), None, Some(Entry(3, "3")), None], 2, 1, 6)
    requires Valid(b)
    ensures Drain(b) == Drained(S(8), ["6"])
  {
    var b' := Buffer([None, None, None, Some(Entry(3, "3")), None], 2, 2, 7);
    Take7_0(b, b');
    DrainStepPreservesValid(b);
    Drain7_1(b');
    DrainCons(b, b', "6", Drained(S(8), []));
    Cons7_0();
  }

  lemma Cons7_0()
    ensures ["6"] + [] == ["6"]
  {
  }

  lemma Take7_0(b: Buffer<string>, b': Buffer<string>)
    requires b == Buffer([None, Some(Entry(6, "6")), None, Some(Entry(3, "3")), None], 2, 1, 6)
    requires b' == Buffer([None, None, None, Some(Entry(3, "3")), None], 2, 2, 7)
    ensures DrainStep(b) == Step(b', Some("6"))
  {
  }

  lemma Drain7_1(b: Buffer<string>)
    requires b == Buffer([None, None, None, Some(Entry(3, "3")), None], 2, 2, 7)
    requires Valid(b)
    ensures Drain(b) == Drained(S(8), [])
  {
    DrainNil(b);
    assert S(8) == b;
  }

  lemma Step8(k: nat)
    requires k == 8 && Valid(S(k))
    ensures Link(S, TestArrival, ExpectedStatus, ExpectedBatch, k)
  {
    assert TestArrival(k) == Arrival(7, "7");
    assert ExpectedStatus(k) == Ok && ExpectedBatch(k) == ["7", "3"];
    var b := Buffer([None, None, Some(Entry(7, "7")), Some(Entry(3, "3")), None], 3, 2, 7);
    Insert8(b);
    InsertPreservesValid(S(8), 7, "7");
    Drain8_0(b);
  }

  lemma Insert8(b: Buffer<string>)
    requires b == Buffer([None, None, Some(Entry(7, "7")), Some(Entry(3, "3")), None], 3, 2, 7)
    ensures NoInsertOverflow(S(8), 7)
    ensures Insert(S(8), 7, "7") == InsertOutcome(b, Ok)
  {
    assert S(8) == Buffer([None, None, None, Some(Entry(3, "3")), None], 2, 2, 7);
    Upd8();
    assert 7 % 5 == 2;
  }

  lemma Upd8()
    ensures [None, None, None, Some(Entry(3, "3")), None][2 := Some(Entry(7, "7"))] == [None, None, Some(Entry(7, "7")), Some(Entry(3, "3")), None]
  {
  }

  lemma Drain8_0(b: Buffer<string>)
    requires b == Buffer([None, None, Some(Entry(7, "7")), Some(Entry(3, "3")), None], 3, 2, 7)
    requires Valid(b)
    ensures Drain(b) == Drained(S(9), ["7", "3"])
  {
    var b' := Buffer([None, None, None, Some(Entry(3, "3")), None], 3, 3, 8);
    Take8_0(b, b');
    DrainStepPreservesValid(b);
    Drain8_1(b');
    DrainCons(b, b', "7", Drained(S(9), ["3"]));
    Cons8_0();
  }

  lemma Cons8_0()
    ensures ["7"] + ["3"] == ["7", "3"]
  {
  }

  lemma Take8_0(b: Buffer<string>, b': Buffer<string>)
    requires b == Buffer([None, None, Some(Entry(7, "7")), Some(Entry(3, "3")), None], 3, 2, 7)
    requires b' == Buffer([None, None, None, Some(Entry(3, "3")), None], 3, 3, 8)
    ensures DrainStep(b) == Step(b', Some("7"))
  {
  }

  lemma Drain8_1(b: Buffer<string>)
    requires b == Buffer([None, None, None, Some(Entry(3, "3")), None], 3, 3, 8)
    requires Valid(b)
    ensures Drain(b) == Drained(S(9), ["3"])
  {
    var b' := Buffer([None, None, None, None, None], 3, 4, 4);
    Take8_1(b, b');
    DrainStepPreservesValid(b);
    Drain8_2(b');
    DrainCons(b, b', "3", Drained(S(9), []));
    Cons8_1();
  }

  lemma Cons8_1()
    ensures ["3"] + [] == ["3"]
  {
  }

  lemma Take8_1(b: Buffer<string>, b': Buffer<string>)
    requires b == Buffer([None, None, None, Some(Entry(3, "3")), None], 3, 3, 8)
    requires b' == Buffer([None, None, None, None, None], 3, 4, 4)
    ensures DrainStep(b) == Step(b', Some("3"))
  {
  }

  lemma Drain8_2(b: Buffer<string>)
    requires b == Buffer([None, None, None, None, None], 3, 4, 4)
    requires Valid(b)
    ensures Drain(b) == Drained(S(9), [])
  {
    DrainNil(b);
    assert S(9) == b;
  }
}
