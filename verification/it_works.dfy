/**
 The crate's `it_works` test, replayed on a capacity-5 buffer of strings:
 each arrival is inserted and, when `insert` succeeds, the returned iterator
 is drained by the test's `for` loop. The test's expectations are
 `ExpectedStatus`, through `unwrap`, `unwrap_err` and `assert_eq!`;
 `ExpectedBatch` is what the code hands each `for` loop, which the test
 prints and asserts nothing about. The proof walks the test one `insert` at
 a time, and one drain step at a time, through the buffer states `S(k)`.
 */
module ItWorks {
  import opened ReliabilityBuffer
  import opened BufferIterator
  import opened Session

  /** The `k`-th `insert` of the test; each item is its sequence number as a string. */
  function TestArrival(k: int): Arrival<string> {
    if k == 0 then Arrival(0, "0")
    else if k == 1 then Arrival(1, "1")
    else if k == 2 then Arrival(3, "3")
    else if k == 3 then Arrival(2, "2")
    else if k == 4 then Arrival(6, "6")
    else if k == 5 then Arrival(5, "5")
    else if k == 6 then Arrival(4, "4")
    else if k == 7 then Arrival(11, "11")
    else if k == 8 then Arrival(10, "10")
    else if k == 9 then Arrival(9, "9")
    else if k == 10 then Arrival(8, "8")
    else if k == 11 then Arrival(7, "7")
    else if k == 12 then Arrival(16, "16")
    else if k == 13 then Arrival(12, "12")
    else if k == 14 then Arrival(15, "15")
    else if k == 15 then Arrival(15, "15")
    else if k == 16 then Arrival(15, "15")
    else if k == 17 then Arrival(14, "14")
    else if k == 18 then Arrival(13, "13")
    else Arrival(2, "2")
  }

  /** What the test expects `insert` to answer at step `k`: every unwrapped
      insert succeeds, the two repeated inserts of 15 are `Duplicate`, and
      the late `insert(2)` is `PacketExpired`. */
  function ExpectedStatus(k: int): Status {
    if k == 0 then Ok
    else if k == 1 then Ok
    else if k == 2 then Ok
    else if k == 3 then Ok
    else if k == 4 then Ok
    else if k == 5 then Ok
    else if k == 6 then Ok
    else if k == 7 then Ok
    else if k == 8 then Ok
    else if k == 9 then Ok
    else if k == 10 then Ok
    else if k == 11 then Ok
    else if k == 12 then Ok
    else if k == 13 then Ok
    else if k == 14 then Ok
    else if k == 15 then Err(Duplicate)
    else if k == 16 then Err(Duplicate)
    else if k == 17 then Ok
    else if k == 18 then Ok
    else Err(PacketExpired)
  }

  /** What the code hands the test's `for` loop at step `k`. */
  function ExpectedBatch(k: int): seq<string> {
    if k == 0 then ["0"]
    else if k == 1 then ["1"]
    else if k == 2 then []
    else if k == 3 then ["2", "3"]
    else if k == 4 then []
    else if k == 5 then []
    else if k == 6 then ["4", "5", "6"]
    else if k == 7 then []
    else if k == 8 then []
    else if k == 9 then []
    else if k == 10 then []
    else if k == 11 then ["7", "8", "9", "10", "11"]
    else if k == 12 then []
    else if k == 13 then ["12"]
    else if k == 14 then []
    else if k == 15 then []
    else if k == 16 then []
    else if k == 17 then []
    else if k == 18 then ["13", "14", "15", "16"]
    else []
  }

  /** The test: no insert panics, every insert answers as the test expects,
      and every loop yields the batch the code delivers at that step. */
  lemma ItWorks()
    ensures var log := Replay(New<string>(5), seq(20, TestArrival));
            && |log| == 20
            && forall k :: 0 <= k < 20 ==> log[k].status == ExpectedStatus(k) && log[k].items == ExpectedBatch(k)
  {
    TestReplay(New(5), seq(20, TestArrival));
  }

  lemma TestReplay(b: Buffer<string>, arrivals: seq<Arrival<string>>)
    requires b == New(5) && arrivals == seq(20, TestArrival)
    ensures var log := Replay(b, arrivals);
            && |log| == 20
            && forall k :: 0 <= k < 20 ==> log[k] == Delivery(S(k + 1), ExpectedStatus(k), ExpectedBatch(k))
  {
    forall k | 0 <= k < 20 && Valid(S(k))
      ensures Link(S, TestArrival, ExpectedStatus, ExpectedBatch, k)
    {
      StepFact(k);
    }
    assert S(0) == b;
    RunFollows(S, TestArrival, ExpectedStatus, ExpectedBatch, 20);
  }

  /** Step `k` of the run is a link from `S(k)` to `S(k + 1)`. */
  lemma StepFact(k: nat)
    requires k < 20 && Valid(S(k))
    ensures Link(S, TestArrival, ExpectedStatus, ExpectedBatch, k)
  {
    if k == 0 {
      Step0(k);
    } else if k == 1 {
      Step1(k);
    } else if k == 2 {
      Step2(k);
    } else if k == 3 {
      Step3(k);
    } else if k == 4 {
      Step4(k);
    } else if k == 5 {
      Step5(k);
    } else if k == 6 {
      Step6(k);
    } else if k == 7 {
      Step7(k);
    } else if k == 8 {
      Step8(k);
    } else if k == 9 {
      Step9(k);
    } else if k == 10 {
      Step10(k);
    } else if k == 11 {
      Step11(k);
    } else if k == 12 {
      Step12(k);
    } else if k == 13 {
      Step13(k);
    } else if k == 14 {
      Step14(k);
    } else if k == 15 {
      Step15(k);
    } else if k == 16 {
      Step16(k);
    } else if k == 17 {
      Step17(k);
    } else if k == 18 {
      Step18(k);
    } else {
      Step19(k);
    }
  }

  /** The buffer before step `k` (and after step `k - 1`). */
  function S(k: int): Buffer<string> {
    if k == 0 then Buffer([None, None, None, None, None], 0, 0, 0)
    else if k == 1 then Buffer([None, None, None, None, None], 1, 1, 1)
    else if k == 2 then Buffer([None, None, None, None, None], 2, 2, 2)
    else if k == 3 then Buffer([None, None, None, Some(Entry(3, "3")), None], 2, 2, 2)
    else if k == 4 then Buffer([None, None, None, None, None], 3, 4, 4)
    else if k == 5 then Buffer([None, Some(Entry(6, "6")), None, None, None], 3, 4, 4)
    else if k == 6 then Buffer([Some(Entry(5, "5")), Some(Entry(6, "6")), None, None, None], 3, 4, 4)
    else if k == 7 then Buffer([None, None, None, None, None], 3, 2, 7)
    else if k == 8 then Buffer([None, Some(Entry(11, "11")), None, None, None], 3, 2, 7)
    else if k == 9 then Buffer([Some(Entry(10, "10")), Some(Entry(11, "11")), None, None, None], 3, 2, 7)
    else if k == 10 then Buffer([Some(Entry(10, "10")), Some(Entry(11, "11")), None, None, Some(Entry(9, "9"))], 3, 2, 7)
    else if k == 11 then Buffer([Some(Entry(10, "10")), Some(Entry(11, "11")), None, Some(Entry(8, "8")), Some(Entry(9, "9"))], 4, 2, 7)
    else if k == 12 then Buffer([None, None, None, None, None], 4, 2, 12)
    else if k == 13 then Buffer([None, Some(Entry(16, "16")), None, None, None], 4, 2, 12)
    else if k == 14 then Buffer([None, Some(Entry(16, "16")), None, None, None], 4, 3, 13)
    else if k == 15 then Buffer([Some(Entry(15, "15")), Some(Entry(16, "16")), None, None, None], 4, 3, 13)
    else if k == 16 then Buffer([Some(Entry(15, "15")), Some(Entry(16, "16")), None, None, None], 4, 3, 13)
    else if k == 17 then Buffer([Some(Entry(15, "15")), Some(Entry(16, "16")), None, None, None], 4, 3, 13)
    else if k == 18 then Buffer([Some(Entry(15, "15")), Some(Entry(16, "16")), None, None, Some(Entry(14, "14"))], 0, 3, 13)
    else if k == 19 then Buffer([None, None, None, None, None], 0, 2, 17)
    else Buffer([None, None, None, None, None], 0, 2, 17)
  }

  lemma Step0(k: nat)
    requires k == 0 && Valid(S(k))
    ensures Link(S, TestArrival, ExpectedStatus, ExpectedBatch, k)
  {
    assert TestArrival(k) == Arrival(0, "0");
    assert ExpectedStatus(k) == Ok && ExpectedBatch(k) == ["0"];
    var b := Buffer([Some(Entry(0, "0")), None, None, None, None], 1, 0, 0);
    Insert0(b);
    InsertPreservesValid(S(0), 0, "0");
    Drain0_0(b);
  }

  lemma Insert0(b: Buffer<string>)
    requires b == Buffer([Some(Entry(0, "0")), None, None, None, None], 1, 0, 0)
    ensures NoInsertOverflow(S(0), 0)
    ensures Insert(S(0), 0, "0") == InsertOutcome(b, Ok)
  {
    assert S(0) == Buffer([None, None, None, None, None], 0, 0, 0);
    Upd0();
    assert 0 % 5 == 0;
  }

  lemma Upd0()
    ensures [None, None, None, None, None][0 := Some(Entry(0, "0"))] == [Some(Entry(0, "0")), None, None, None, None]
  {
  }

  lemma Drain0_0(b: Buffer<string>)
    requires b == Buffer([Some(Entry(0, "0")), None, None, None, None], 1, 0, 0)
    requires Valid(b)
    ensures Drain(b) == Drained(S(1), ["0"])
  {
    var b' := Buffer([None, None, None, None, None], 1, 1, 1);
    Take0_0(b, b');
    DrainStepPreservesValid(b);
    Drain0_1(b');
    DrainCons(b, b', "0", Drained(S(1), []));
    Cons0_0();
  }

  lemma Cons0_0()
    ensures ["0"] + [] == ["0"]
  {
  }

  lemma Take0_0(b: Buffer<string>, b': Buffer<string>)
    requires b == Buffer([Some(Entry(0, "0")), None, None, None, None], 1, 0, 0)
    requires b' == Buffer([None, None, None, None, None], 1, 1, 1)
    ensures DrainStep(b) == Step(b', Some("0"))
  {
  }

  lemma Drain0_1(b: Buffer<string>)
    requires b == Buffer([None, None, None, None, None], 1, 1, 1)
    requires Valid(b)
    ensures Drain(b) == Drained(S(1), [])
  {
    DrainNil(b);
    assert S(1) == b;
  }

  lemma Step1(k: nat)
    requires k == 1 && Valid(S(k))
    ensures Link(S, TestArrival, ExpectedStatus, ExpectedBatch, k)
  {
    assert TestArrival(k) == Arrival(1, "1");
    assert ExpectedStatus(k) == Ok && ExpectedBatch(k) == ["1"];
    var b := Buffer([None, Some(Entry(1, "1")), None, None, None], 2, 1, 1);
    Insert1(b);
    InsertPreservesValid(S(1), 1, "1");
    Drain1_0(b);
  }

  lemma Insert1(b: Buffer<string>)
    requires b == Buffer([None, Some(Entry(1, "1")), None, None, None], 2, 1, 1)
    ensures NoInsertOverflow(S(1), 1)
    ensures Insert(S(1), 1, "1") == InsertOutcome(b, Ok)
  {
    assert S(1) == Buffer([None, None, None, None, None], 1, 1, 1);
    Upd1();
    assert 1 % 5 == 1;
  }

  lemma Upd1()
    ensures [None, None, None, None, None][1 := Some(Entry(1, "1"))] == [None, Some(Entry(1, "1")), None, None, None]
  {
  }

  lemma Drain1_0(b: Buffer<string>)
    requires b == Buffer([None, Some(Entry(1, "1")), None, None, None], 2, 1, 1)
    requires Valid(b)
    ensures Drain(b) == Drained(S(2), ["1"])
  {
    var b' := Buffer([None, None, None, None, None], 2, 2, 2);
    Take1_0(b, b');
    DrainStepPreservesValid(b);
    Drain1_1(b');
    DrainCons(b, b', "1", Drained(S(2), []));
    Cons1_0();
  }

  lemma Cons1_0()
    ensures ["1"] + [] == ["1"]
  {
  }

  lemma Take1_0(b: Buffer<string>, b': Buffer<string>)
    requires b == Buffer([None, Some(Entry(1, "1")), None, None, None], 2, 1, 1)
    requires b' == Buffer([None, None, None, None, None], 2, 2, 2)
    ensures DrainStep(b) == Step(b', Some("1"))
  {
  }

  lemma Drain1_1(b: Buffer<string>)
    requires b == Buffer([None, None, None, None, None], 2, 2, 2)
    requires Valid(b)
    ensures Drain(b) == Drained(S(2), [])
  {
    DrainNil(b);
    assert S(2) == b;
  }

  lemma Step2(k: nat)
    requires k == 2 && Valid(S(k))
    ensures Link(S, TestArrival, ExpectedStatus, ExpectedBatch, k)
  {
    assert TestArrival(k) == Arrival(3, "3");
    assert ExpectedStatus(k) == Ok && ExpectedBatch(k) == [];
    var b := Buffer([None, None, None, Some(Entry(3, "3")), None], 2, 2, 2);
    Insert2(b);
    InsertPreservesValid(S(2), 3, "3");
    Drain2_0(b);
  }

  lemma Insert2(b: Buffer<string>)
    requires b == Buffer([None, None, None, Some(Entry(3, "3")), None], 2, 2, 2)
    ensures NoInsertOverflow(S(2), 3)
    ensures Insert(S(2), 3, "3") == InsertOutcome(b, Ok)
  {
    assert S(2) == Buffer([None, None, None, None, None], 2, 2, 2);
    Upd2();
    assert 3 % 5 == 3;
  }

  lemma Upd2()
    ensures [None, None, None, None, None][3 := Some(Entry(3, "3"))] == [None, None, None, Some(Entry(3, "3")), None]
  {
  }

  lemma Drain2_0(b: Buffer<string>)
    requires b == Buffer([None, None, None, Some(Entry(3, "3")), None], 2, 2, 2)
    requires Valid(b)
    ensures Drain(b) == Drained(S(3), [])
  {
    DrainNil(b);
    assert S(3) == b;
  }

  lemma Step3(k: nat)
    requires k == 3 && Valid(S(k))
    ensures Link(S, TestArrival, ExpectedStatus, ExpectedBatch, k)
  {
    assert TestArrival(k) == Arrival(2, "2");
    assert ExpectedStatus(k) == Ok && ExpectedBatch(k) == ["2", "3"];
    var b := Buffer([None, None, Some(Entry(2, "2")), Some(Entry(3, "3")), None], 3, 2, 2);
    Insert3(b);
    InsertPreservesValid(S(3), 2, "2");
    Drain3_0(b);
  }

  lemma Insert3(b: Buffer<string>)
    requires b == Buffer([None, None, Some(Entry(2, "2")), Some(Entry(3, "3")), None], 3, 2, 2)
    ensures NoInsertOverflow(S(3), 2)
    ensures Insert(S(3), 2, "2") == InsertOutcome(b, Ok)
  {
    assert S(3) == Buffer([None, None, None, Some(Entry(3, "3")), None], 2, 2, 2);
    Upd3();
    assert 2 % 5 == 2;
  }

  lemma Upd3()
    ensures [None, None, None, Some(Entry(3, "3")), None][2 := Some(Entry(2, "2"))] == [None, None, Some(Entry(2, "2")), Some(Entry(3, "3")), None]
  {
  }

  lemma Drain3_0(b: Buffer<string>)
    requires b == Buffer([None, None, Some(Entry(2, "2")), Some(Entry(3, "3")), None], 3, 2, 2)
    requires Valid(b)
    ensures Drain(b) == Drained(S(4), ["2", "3"])
  {
    var b' := Buffer([None, None, None, Some(Entry(3, "3")), None], 3, 3, 3);
    Take3_0(b, b');
    DrainStepPreservesValid(b);
    Drain3_1(b');
    DrainCons(b, b', "2", Drained(S(4), ["3"]));
    Cons3_0();
  }

  lemma Cons3_0()
    ensures ["2"] + ["3"] == ["2", "3"]
  {
  }

  lemma Take3_0(b: Buffer<string>, b': Buffer<string>)
    requires b == Buffer([None, None, Some(Entry(2, "2")), Some(Entry(3, "3")), None], 3, 2, 2)
    requires b' == Buffer([None, None, None, Some(Entry(3, "3")), None], 3, 3, 3)
    ensures DrainStep(b) == Step(b', Some("2"))
  {
  }

  lemma Drain3_1(b: Buffer<string>)
    requires b == Buffer([None, None, None, Some(Entry(3, "3")), None], 3, 3, 3)
    requires Valid(b)
    ensures Drain(b) == Drained(S(4), ["3"])
  {
    var b' := Buffer([None, None, None, None, None], 3, 4, 4);
    Take3_1(b, b');
    DrainStepPreservesValid(b);
    Drain3_2(b');
    DrainCons(b, b', "3", Drained(S(4), []));
    Cons3_1();
  }

  lemma Cons3_1()
    ensures ["3"] + [] == ["3"]
  {
  }

  lemma Take3_1(b: Buffer<string>, b': Buffer<string>)
    requires b == Buffer([None, None, None, Some(Entry(3, "3")), None], 3, 3, 3)
    requires b' == Buffer([None, None, None, None, None], 3, 4, 4)
    ensures DrainStep(b) == Step(b', Some("3"))
  {
  }

  lemma Drain3_2(b: Buffer<string>)
    requires b == Buffer([None, None, None, None, None], 3, 4, 4)
    requires Valid(b)
    ensures Drain(b) == Drained(S(4), [])
  {
    DrainNil(b);
    assert S(4) == b;
  }

  lemma Step4(k: nat)
    requires k == 4 && Valid(S(k))
    ensures Link(S, TestArrival, ExpectedStatus, ExpectedBatch, k)
  {
    assert TestArrival(k) == Arrival(6, "6");
    assert ExpectedStatus(k) == Ok && ExpectedBatch(k) == [];
    var b := Buffer([None, Some(Entry(6, "6")), None, None, None], 3, 4, 4);
    Insert4(b);
    InsertPreservesValid(S(4), 6, "6");
    Drain4_0(b);
  }

  lemma Insert4(b: Buffer<string>)
    requires b == Buffer([None, Some(Entry(6, "6")), None, None, None], 3, 4, 4)
    ensures NoInsertOverflow(S(4), 6)
    ensures Insert(S(4), 6, "6") == InsertOutcome(b, Ok)
  {
    assert S(4) == Buffer([None, None, None, None, None], 3, 4, 4);
    Upd4();
    assert 6 % 5 == 1;
  }

  lemma Upd4()
    ensures [None, None, None, None, None][1 := Some(Entry(6, "6"))] == [None, Some(Entry(6, "6")), None, None, None]
  {
  }

  lemma Drain4_0(b: Buffer<string>)
    requires b == Buffer([None, Some(Entry(6, "6")), None, None, None], 3, 4, 4)
    requires Valid(b)
    ensures Drain(b) == Drained(S(5), [])
  {
    DrainNil(b);
    assert S(5) == b;
  }

  lemma Step5(k: nat)
    requires k == 5 && Valid(S(k))
    ensures Link(S, TestArrival, ExpectedStatus, ExpectedBatch, k)
  {
    assert TestArrival(k) == Arrival(5, "5");
    assert ExpectedStatus(k) == Ok && ExpectedBatch(k) == [];
    var b := Buffer([Some(Entry(5, "5")), Some(Entry(6, "6")), None, None, None], 3, 4, 4);
    Insert5(b);
    InsertPreservesValid(S(5), 5, "5");
    Drain5_0(b);
  }

  lemma Insert5(b: Buffer<string>)
    requires b == Buffer([Some(Entry(5, "5")), Some(Entry(6, "6")), None, None, None], 3, 4, 4)
    ensures NoInsertOverflow(S(5), 5)
    ensures Insert(S(5), 5, "5") == InsertOutcome(b, Ok)
  {
    assert S(5) == Buffer([None, Some(Entry(6, "6")), None, None, None], 3, 4, 4);
    Upd5();
    assert 5 % 5 == 0;
  }

  lemma Upd5()
    ensures [None, Some(Entry(6, "6")), None, None, None][0 := Some(Entry(5, "5"))] == [Some(Entry(5, "5")), Some(Entry(6, "6")), None, None, None]
  {
  }

  lemma Drain5_0(b: Buffer<string>)
    requires b == Buffer([Some(Entry(5, "5")), Some(Entry(6, "6")), None, None, None], 3, 4, 4)
    requires Valid(b)
    ensures Drain(b) == Drained(S(6), [])
  {
    DrainNil(b);
    assert S(6) == b;
  }

  lemma Step6(k: nat)
    requires k == 6 && Valid(S(k))
    ensures Link(S, TestArrival, ExpectedStatus, ExpectedBatch, k)
  {
    assert TestArrival(k) == Arrival(4, "4");
    assert ExpectedStatus(k) == Ok && ExpectedBatch(k) == ["4", "5", "6"];
    var b := Buffer([Some(Entry(5, "5")), Some(Entry(6, "6")), None, None, Some(Entry(4, "4"))], 3, 4, 4);
    Insert6(b);
    InsertPreservesValid(S(6), 4, "4");
    Drain6_0(b);
  }

  lemma Insert6(b: Buffer<string>)
    requires b == Buffer([Some(Entry(5, "5")), Some(Entry(6, "6")), None, None, Some(Entry(4, "4"))], 3, 4, 4)
    ensures NoInsertOverflow(S(6), 4)
    ensures Insert(S(6), 4, "4") == InsertOutcome(b, Ok)
  {
    assert S(6) == Buffer([Some(Entry(5, "5")), Some(Entry(6, "6")), None, None, None], 3, 4, 4);
    Upd6();
    assert 4 % 5 == 4;
  }

  lemma Upd6()
    ensures [Some(Entry(5, "5")), Some(Entry(6, "6")), None, None, None][4 := Some(Entry(4, "4"))] == [Some(Entry(5, "5")), Some(Entry(6, "6")), None, None, Some(Entry(4, "4"))]
  {
  }

  lemma Drain6_0(b: Buffer<string>)
    requires b == Buffer([Some(Entry(5, "5")), Some(Entry(6, "6")), None, None, Some(Entry(4, "4"))], 3, 4, 4)
    requires Valid(b)
    ensures Drain(b) == Drained(S(7), ["4", "5", "6"])
  {
    var b' := Buffer([Some(Entry(5, "5")), Some(Entry(6, "6")), None, None, None], 3, 0, 5);
    Take6_0(b, b');
    DrainStepPreservesValid(b);
    Drain6_1(b');
    DrainCons(b, b', "4", Drained(S(7), ["5", "6"]));
    Cons6_0();
  }

  lemma Cons6_0()
    ensures ["4"] + ["5", "6"] == ["4", "5", "6"]
  {
  }

  lemma Take6_0(b: Buffer<string>, b': Buffer<string>)
    requires b == Buffer([Some(Entry(5, "5")), Some(Entry(6, "6")), None, None, Some(Entry(4, "4"))], 3, 4, 4)
    requires b' == Buffer([Some(Entry(5, "5")), Some(Entry(6, "6")), None, None, None], 3, 0, 5)
    ensures DrainStep(b) == Step(b', Some("4"))
  {
  }

  lemma Drain6_1(b: Buffer<string>)
    requires b == Buffer([Some(Entry(5, "5")), Some(Entry(6, "6")), None, None, None], 3, 0, 5)
    requires Valid(b)
    ensures Drain(b) == Drained(S(7), ["5", "6"])
  {
    var b' := Buffer([None, Some(Entry(6, "6")), None, None, None], 3, 1, 6);
    Take6_1(b, b');
    DrainStepPreservesValid(b);
    Drain6_2(b');
    DrainCons(b, b', "5", Drained(S(7), ["6"]));
    Cons6_1();
  }

  lemma Cons6_1()
    ensures ["5"] + ["6"] == ["5", "6"]
  {
  }

  lemma Take6_1(b: Buffer<string>, b': Buffer<string>)
    requires b == Buffer([Some(Entry(5, "5")), Some(Entry(6, "6")), None, None, None], 3, 0, 5)
    requires b' == Buffer([None, Some(Entry(6, "6")), None, None, None], 3, 1, 6)
    ensures DrainStep(b) == Step(b', Some("5"))
  {
  }

  lemma Drain6_2(b: Buffer<string>)
    requires b == Buffer([None, Some(Entry(6, "6")), None, None, None], 3, 1, 6)
    requires Valid(b)
    ensures Drain(b) == Drained(S(7), ["6"])
  {
    var b' := Buffer([None, None, None, None, None], 3, 2, 7);
    Take6_2(b, b');
    DrainStepPreservesValid(b);
    Drain6_3(b');
    DrainCons(b, b', "6", Drained(S(7), []));
    Cons6_2();
  }

  lemma Cons6_2()
    ensures ["6"] + [] == ["6"]
  {
  }

  lemma Take6_2(b: Buffer<string>, b': Buffer<string>)
    requires b == Buffer([None, Some(Entry(6, "6")), None, None, None], 3, 1, 6)
    requires b' == Buffer([None, None, None, None, None], 3, 2, 7)
    ensures DrainStep(b) == Step(b', Some("6"))
  {
  }

  lemma Drain6_3(b: Buffer<string>)
    requires b == Buffer([None, None, None, None, None], 3, 2, 7)
    requires Valid(b)
    ensures Drain(b) == Drained(S(7), [])
  {
    DrainNil(b);
    assert S(7) == b;
  }

  lemma Step7(k: nat)
    requires k == 7 && Valid(S(k))
    ensures Link(S, TestArrival, ExpectedStatus, ExpectedBatch, k)
  {
    assert TestArrival(k) == Arrival(11, "11");
    assert ExpectedStatus(k) == Ok && ExpectedBatch(k) == [];
    var b := Buffer([None, Some(Entry(11, "11")), None, None, None], 3, 2, 7);
    Insert7(b);
    InsertPreservesValid(S(7), 11, "11");
    Drain7_0(b);
  }

  lemma Insert7(b: Buffer<string>)
    requires b == Buffer([None, Some(Entry(11, "11")), None, None, None], 3, 2, 7)
    ensures NoInsertOverflow(S(7), 11)
    ensures Insert(S(7), 11, "11") == InsertOutcome(b, Ok)
  {
    assert S(7) == Buffer([None, None, None, None, None], 3, 2, 7);
    Upd7();
    assert 11 % 5 == 1;
  }

  lemma Upd7()
    ensures [None, None, None, None, None][1 := Some(Entry(11, "11"))] == [None, Some(Entry(11, "11")), None, None, None]
  {
  }

  lemma Drain7_0(b: Buffer<string>)
    requires b == Buffer([None, Some(Entry(11, "11")), None, None, None], 3, 2, 7)
    requires Valid(b)
    ensures Drain(b) == Drained(S(8), [])
  {
    DrainNil(b);
    assert S(8) == b;
  }

  lemma Step8(k: nat)
    requires k == 8 && Valid(S(k))
    ensures Link(S, TestArrival, ExpectedStatus, ExpectedBatch, k)
  {
    assert TestArrival(k) == Arrival(10, "10");
    assert ExpectedStatus(k) == Ok && ExpectedBatch(k) == [];
    var b := Buffer([Some(Entry(10, "10")), Some(Entry(11, "11")), None, None, None], 3, 2, 7);
    Insert8(b);
    InsertPreservesValid(S(8), 10, "10");
    Drain8_0(b);
  }

  lemma Insert8(b: Buffer<string>)
    requires b == Buffer([Some(Entry(10, "10")), Some(Entry(11, "11")), None, None, None], 3, 2, 7)
    ensures NoInsertOverflow(S(8), 10)
    ensures Insert(S(8), 10, "10") == InsertOutcome(b, Ok)
  {
    assert S(8) == Buffer([None, Some(Entry(11, "11")), None, None, None], 3, 2, 7);
    Upd8();
    assert 10 % 5 == 0;
  }

  lemma Upd8()
    ensures [None, Some(Entry(11, "11")), None, None, None][0 := Some(Entry(10, "10"))] == [Some(Entry(10, "10")), Some(Entry(11, "11")), None, None, None]
  {
  }

  lemma Drain8_0(b: Buffer<string>)
    requires b == Buffer([Some(Entry(10, "10")), Some(Entry(11, "11")), None, None, None], 3, 2, 7)
    requires Valid(b)
    ensures Drain(b) == Drained(S(9), [])
  {
    DrainNil(b);
    assert S(9) == b;
  }

  lemma Step9(k: nat)
    requires k == 9 && Valid(S(k))
    ensures Link(S, TestArrival, ExpectedStatus, ExpectedBatch, k)
  {
    assert TestArrival(k) == Arrival(9, "9");
    assert ExpectedStatus(k) == Ok && ExpectedBatch(k) == [];
    var b := Buffer([Some(Entry(10, "10")), Some(Entry(11, "11")), None, None, Some(Entry(9, "9"))], 3, 2, 7);
    Insert9(b);
    InsertPreservesValid(S(9), 9, "9");
    Drain9_0(b);
  }

  lemma Insert9(b: Buffer<string>)
    requires b == Buffer([Some(Entry(10, "10")), Some(Entry(11, "11")), None, None, Some(Entry(9, "9"))], 3, 2, 7)
    ensures NoInsertOverflow(S(9), 9)
    ensures Insert(S(9), 9, "9") == InsertOutcome(b, Ok)
  {
    assert S(9) == Buffer([Some(Entry(10, "10")), Some(Entry(11, "11")), None, None, None], 3, 2, 7);
    Upd9();
    assert 9 % 5 == 4;
  }

  lemma Upd9()
    ensures [Some(Entry(10, "10")), Some(Entry(11, "11")), None, None, None][4 := Some(Entry(9, "9"))] == [Some(Entry(10, "10")), Some(Entry(11, "11")), None, None, Some(Entry(9, "9"))]
  {
  }

  lemma Drain9_0(b: Buffer<string>)
    requires b == Buffer([Some(Entry(10, "10")), Some(Entry(11, "11")), None, None, Some(Entry(9, "9"))], 3, 2, 7)
    requires Valid(b)
    ensures Drain(b) == Drained(S(10), [])
  {
    DrainNil(b);
    assert S(10) == b;
  }

  lemma Step10(k: nat)
    requires k == 10 && Valid(S(k))
    ensures Link(S, TestArrival, ExpectedStatus, ExpectedBatch, k)
  {
    assert TestArrival(k) == Arrival(8, "8");
    assert ExpectedStatus(k) == Ok && ExpectedBatch(k) == [];
    var b := Buffer([Some(Entry(10, "10")), Some(Entry(11, "11")), None, Some(Entry(8, "8")), Some(Entry(9, "9"))], 4, 2, 7);
    Insert10(b);
    InsertPreservesValid(S(10), 8, "8");
    Drain10_0(b);
  }

  lemma Insert10(b: Buffer<string>)
    requires b == Buffer([Some(Entry(10, "10")), Some(Entry(11, "11")), None, Some(Entry(8, "8")), Some(Entry(9, "9"))], 4, 2, 7)
    ensures NoInsertOverflow(S(10), 8)
    ensures Insert(S(10), 8, "8") == InsertOutcome(b, Ok)
  {
    assert S(10) == Buffer([Some(Entry(10, "10")), Some(Entry(11, "11")), None, None, Some(Entry(9, "9"))], 3, 2, 7);
    Upd10();
    assert 8 % 5 == 3;
  }

  lemma Upd10()
    ensures [Some(Entry(10, "10")), Some(Entry(11, "11")), None, None, Some(Entry(9, "9"))][3 := Some(Entry(8, "8"))] == [Some(Entry(10, "10")), Some(Entry(11, "11")), None, Some(Entry(8, "8")), Some(Entry(9, "9"))]
  {
  }

  lemma Drain10_0(b: Buffer<string>)
    requires b == Buffer([Some(Entry(10, "10")), Some(Entry(11, "11")), None, Some(Entry(8, "8")), Some(Entry(9, "9"))], 4, 2, 7)
    requires Valid(b)
    ensures Drain(b) == Drained(S(11), [])
  {
    DrainNil(b);
    assert S(11) == b;
  }

  lemma Step11(k: nat)
    requires k == 11 && Valid(S(k))
    ensures Link(S, TestArrival, ExpectedStatus, ExpectedBatch, k)
  {
    assert TestArrival(k) == Arrival(7, "7");
    assert ExpectedStatus(k) == Ok && ExpectedBatch(k) == ["7", "8", "9", "10", "11"];
    var b := Buffer([Some(Entry(10, "10")), Some(Entry(11, "11")), Some(Entry(7, "7")), Some(Entry(8, "8")), Some(Entry(9, "9"))], 4, 2, 7);
    Insert11(b);
    InsertPreservesValid(S(11), 7, "7");
    Drain11_0(b);
  }

  lemma Insert11(b: Buffer<string>)
    requires b == Buffer([Some(Entry(10, "10")), Some(Entry(11, "11")), Some(Entry(7, "7")), Some(Entry(8, "8")), Some(Entry(9, "9"))], 4, 2, 7)
    ensures NoInsertOverflow(S(11), 7)
    ensures Insert(S(11), 7, "7") == InsertOutcome(b, Ok)
  {
    assert S(11) == Buffer([Some(Entry(10, "10")), Some(Entry(11, "11")), None, Some(Entry(8, "8")), Some(Entry(9, "9"))], 4, 2, 7);
    Upd11();
    assert 7 % 5 == 2;
  }

  lemma Upd11()
    ensures [Some(Entry(10, "10")), Some(Entry(11, "11")), None, Some(Entry(8, "8")), Some(Entry(9, "9"))][2 := Some(Entry(7, "7"))] == [Some(Entry(10, "10")), Some(Entry(11, "11")), Some(Entry(7, "7")), Some(Entry(8, "8")), Some(Entry(9, "9"))]
  {
  }

  lemma Drain11_0(b: Buffer<string>)
    requires b == Buffer([Some(Entry(10, "10")), Some(Entry(11, "11")), Some(Entry(7, "7")), Some(Entry(8, "8")), Some(Entry(9, "9"))], 4, 2, 7)
    requires Valid(b)
    ensures Drain(b) == Drained(S(12), ["7", "8", "9", "10", "11"])
  {
    var b' := Buffer([Some(Entry(10, "10")), Some(Entry(11, "11")), None, Some(Entry(8, "8")), Some(Entry(9, "9"))], 4, 3, 8);
    Take11_0(b, b');
    DrainStepPreservesValid(b);
    Drain11_1(b');
    DrainCons(b, b', "7", Drained(S(12), ["8", "9", "10", "11"]));
    Cons11_0();
  }

  lemma Cons11_0()
    ensures ["7"] + ["8", "9", "10", "11"] == ["7", "8", "9", "10", "11"]
  {
  }

  lemma Take11_0(b: Buffer<string>, b': Buffer<string>)
    requires b == Buffer([Some(Entry(10, "10")), Some(Entry(11, "11")), Some(Entry(7, "7")), Some(Entry(8, "8")), Some(Entry(9, "9"))], 4, 2, 7)
    requires b' == Buffer([Some(Entry(10, "10")), Some(Entry(11, "11")), None, Some(Entry(8, "8")), Some(Entry(9, "9"))], 4, 3, 8)
    ensures DrainStep(b) == Step(b', Some("7"))
  {
  }

  lemma Drain11_1(b: Buffer<string>)
    requires b == Buffer([Some(Entry(10, "10")), Some(Entry(11, "11")), None, Some(Entry(8, "8")), Some(Entry(9, "9"))], 4, 3, 8)
    requires Valid(b)
    ensures Drain(b) == Drained(S(12), ["8", "9", "10", "11"])
  {
    var b' := Buffer([Some(Entry(10, "10")), Some(Entry(11, "11")), None, None, Some(Entry(9, "9"))], 4, 4, 9);
    Take11_1(b, b');
    DrainStepPreservesValid(b);
    Drain11_2(b');
    DrainCons(b, b', "8", Drained(S(12), ["9", "10", "11"]));
    Cons11_1();
  }

  lemma Cons11_1()
    ensures ["8"] + ["9", "10", "11"] == ["8", "9", "10", "11"]
  {
  }

  lemma Take11_1(b: Buffer<string>, b': Buffer<string>)
    requires b == Buffer([Some(Entry(10, "10")), Some(Entry(11, "11")), None, Some(Entry(8, "8")), Some(Entry(9, "9"))], 4, 3, 8)
    requires b' == Buffer([Some(Entry(10, "10")), Some(Entry(11, "11")), None, None, Some(Entry(9, "9"))], 4, 4, 9)
    ensures DrainStep(b) == Step(b', Some("8"))
  {
  }

  lemma Drain11_2(b: Buffer<string>)
    requires b == Buffer([Some(Entry(10, "10")), Some(Entry(11, "11")), None, None, Some(Entry(9, "9"))], 4, 4, 9)
    requires Valid(b)
    ensures Drain(b) == Drained(S(12), ["9", "10", "11"])
  {
    var b' := Buffer([Some(Entry(10, "10")), Some(Entry(11, "11")), None, None, None], 4, 0, 10);
    Take11_2(b, b');
    DrainStepPreservesValid(b);
    Drain11_3(b');
    DrainCons(b, b', "9", Drained(S(12), ["10", "11"]));
    Cons11_2();
  }

  lemma Cons11_2()
    ensures ["9"] + ["10", "11"] == ["9", "10", "11"]
  {
  }

  lemma Take11_2(b: Buffer<string>, b': Buffer<string>)
    requires b == Buffer([Some(Entry(10, "10")), Some(Entry(11, "11")), None, None, Some(Entry(9, "9"))], 4, 4, 9)
    requires b' == Buffer([Some(Entry(10, "10")), Some(Entry(11, "11")), None, None, None], 4, 0, 10)
    ensures DrainStep(b) == Step(b', Some("9"))
  {
  }

  lemma Drain11_3(b: Buffer<string>)
    requires b == Buffer([Some(Entry(10, "10")), Some(Entry(11, "11")), None, None, None], 4, 0, 10)
    requires Valid(b)
    ensures Drain(b) == Drained(S(12), ["10", "11"])
  {
    var b' := Buffer([None, Some(Entry(11, "11")), None, None, None], 4, 1, 11);
    Take11_3(b, b');
    DrainStepPreservesValid(b);
    Drain11_4(b');
    DrainCons(b, b', "10", Drained(S(12), ["11"]));
    Cons11_3();
  }

  lemma Cons11_3()
    ensures ["10"] + ["11"] == ["10", "11"]
  {
  }

  lemma Take11_3(b: Buffer<string>, b': Buffer<string>)
    requires b == Buffer([Some(Entry(10, "10")), Some(Entry(11, "11")), None, None, None], 4, 0, 10)
    requires b' == Buffer([None, Some(Entry(11, "11")), None, None, None], 4, 1, 11)
    ensures DrainStep(b) == Step(b', Some("10"))
  {
  }

  lemma Drain11_4(b: Buffer<string>)
    requires b == Buffer([None, Some(Entry(11, "11")), None, None, None], 4, 1, 11)
    requires Valid(b)
    ensures Drain(b) == Drained(S(12), ["11"])
  {
    var b' := Buffer([None, None, None, None, None], 4, 2, 12);
    Take11_4(b, b');
    DrainStepPreservesValid(b);
    Drain11_5(b');
    DrainCons(b, b', "11", Drained(S(12), []));
    Cons11_4();
  }

  lemma Cons11_4()
    ensures ["11"] + [] == ["11"]
  {
  }

  lemma Take11_4(b: Buffer<string>, b': Buffer<string>)
    requires b == Buffer([None, Some(Entry(11, "11")), None, None, None], 4, 1, 11)
    requires b' == Buffer([None, None, None, None, None], 4, 2, 12)
    ensures DrainStep(b) == Step(b', Some("11"))
  {
  }

  lemma Drain11_5(b: Buffer<string>)
    requires b == Buffer([None, None, None, None, None], 4, 2, 12)
    requires Valid(b)
    ensures Drain(b) == Drained(S(12), [])
  {
    DrainNil(b);
    assert S(12) == b;
  }

  lemma Step12(k: nat)
    requires k == 12 && Valid(S(k))
    ensures Link(S, TestArrival, ExpectedStatus, ExpectedBatch, k)
  {
    assert TestArrival(k) == Arrival(16, "16");
    assert ExpectedStatus(k) == Ok && ExpectedBatch(k) == [];
    var b := Buffer([None, Some(Entry(16, "16")), None, None, None], 4, 2, 12);
    Insert12(b);
    InsertPreservesValid(S(12), 16, "16");
    Drain12_0(b);
  }

  lemma Insert12(b: Buffer<string>)
    requires b == Buffer([None, Some(Entry(16, "16")), None, None, None], 4, 2, 12)
    ensures NoInsertOverflow(S(12), 16)
    ensures Insert(S(12), 16, "16") == InsertOutcome(b, Ok)
  {
    assert S(12) == Buffer([None, None, None, None, None], 4, 2, 12);
    Upd12();
    assert 16 % 5 == 1;
  }

  lemma Upd12()
    ensures [None, None, None, None, None][1 := Some(Entry(16, "16"))] == [None, Some(Entry(16, "16")), None, None, None]
  {
  }

  lemma Drain12_0(b: Buffer<string>)
    requires b == Buffer([None, Some(Entry(16, "16")), None, None, None], 4, 2, 12)
    requires Valid(b)
    ensures Drain(b) == Drained(S(13), [])
  {
    DrainNil(b);
    assert S(13) == b;
  }

  lemma Step13(k: nat)
    requires k == 13 && Valid(S(k))
    ensures Link(S, TestArrival, ExpectedStatus, ExpectedBatch, k)
  {
    assert TestArrival(k) == Arrival(12, "12");
    assert ExpectedStatus(k) == Ok && ExpectedBatch(k) == ["12"];
    var b := Buffer([None, Some(Entry(16, "16")), Some(Entry(12, "12")), None, None], 4, 2, 12);
    Insert13(b);
    InsertPreservesValid(S(13), 12, "12");
    Drain13_0(b);
  }

  lemma Insert13(b: Buffer<string>)
    requires b == Buffer([None, Some(Entry(16, "16")), Some(Entry(12, "12")), None, None], 4, 2, 12)
    ensures NoInsertOverflow(S(13), 12)
    ensures Insert(S(13), 12, "12") == InsertOutcome(b, Ok)
  {
    assert S(13) == Buffer([None, Some(Entry(16, "16")), None, None, None], 4, 2, 12);
    Upd13();
    assert 12 % 5 == 2;
  }

  lemma Upd13()
    ensures [None, Some(Entry(16, "16")), None, None, None][2 := Some(Entry(12, "12"))] == [None, Some(Entry(16, "16")), Some(Entry(12, "12")), None, None]
  {
  }

  lemma Drain13_0(b: Buffer<string>)
    requires b == Buffer([None, Some(Entry(16, "16")), Some(Entry(12, "12")), None, None], 4, 2, 12)
    requires Valid(b)
    ensures Drain(b) == Drained(S(14), ["12"])
  {
    var b' := Buffer([None, Some(Entry(16, "16")), None, None, None], 4, 3, 13);
    Take13_0(b, b');
    DrainStepPreservesValid(b);
    Drain13_1(b');
    DrainCons(b, b', "12", Drained(S(14), []));
    Cons13_0();
  }

  lemma Cons13_0()
    ensures ["12"] + [] == ["12"]
  {
  }

  lemma Take13_0(b: Buffer<string>, b': Buffer<string>)
    requires b == Buffer([None, Some(Entry(16, "16")), Some(Entry(12, "12")), None, None], 4, 2, 12)
    requires b' == Buffer([None, Some(Entry(16, "16")), None, None, None], 4, 3, 13)
    ensures DrainStep(b) == Step(b', Some("12"))
  {
  }

  lemma Drain13_1(b: Buffer<string>)
    requires b == Buffer([None, Some(Entry(16, "16")), None, None, None], 4, 3, 13)
    requires Valid(b)
    ensures Drain(b) == Drained(S(14), [])
  {
    DrainNil(b);
    assert S(14) == b;
  }

  lemma Step14(k: nat)
    requires k == 14 && Valid(S(k))
    ensures Link(S, TestArrival, ExpectedStatus, ExpectedBatch, k)
  {
    assert TestArrival(k) == Arrival(15, "15");
    assert ExpectedStatus(k) == Ok && ExpectedBatch(k) == [];
    var b := Buffer([Some(Entry(15, "15")), Some(Entry(16, "16")), None, None, None], 4, 3, 13);
    Insert14(b);
    InsertPreservesValid(S(14), 15, "15");
    Drain14_0(b);
  }

  lemma Insert14(b: Buffer<string>)
    requires b == Buffer([Some(Entry(15, "15")), Some(Entry(16, "16")), None, None, None], 4, 3, 13)
    ensures NoInsertOverflow(S(14), 15)
    ensures Insert(S(14), 15, "15") == InsertOutcome(b, Ok)
  {
    assert S(14) == Buffer([None, Some(Entry(16, "16")), None, None, None], 4, 3, 13);
    Upd14();
    assert 15 % 5 == 0;
  }

  lemma Upd14()
    ensures [None, Some(Entry(16, "16")), None, None, None][0 := Some(Entry(15, "15"))] == [Some(Entry(15, "15")), Some(Entry(16, "16")), None, None, None]
  {
  }

  lemma Drain14_0(b: Buffer<string>)
    requires b == Buffer([Some(Entry(15, "15")), Some(Entry(16, "16")), None, None, None], 4, 3, 13)
    requires Valid(b)
    ensures Drain(b) == Drained(S(15), [])
  {
    DrainNil(b);
    assert S(15) == b;
  }

  lemma Step15(k: nat)
    requires k == 15 && Valid(S(k))
    ensures Link(S, TestArrival, ExpectedStatus, ExpectedBatch, k)
  {
    assert TestArrival(k) == Arrival(15, "15");
    assert ExpectedStatus(k) == Err(Duplicate) && ExpectedBatch(k) == [];
    Insert15();
    assert S(16) == S(15);
  }

  lemma Insert15()
    ensures NoInsertOverflow(S(15), 15)
    ensures Insert(S(15), 15, "15").status == Err(Duplicate)
  {
    assert S(15) == Buffer([Some(Entry(15, "15")), Some(Entry(16, "16")), None, None, None], 4, 3, 13);
  }

  lemma Step16(k: nat)
    requires k == 16 && Valid(S(k))
    ensures Link(S, TestArrival, ExpectedStatus, ExpectedBatch, k)
  {
    assert TestArrival(k) == Arrival(15, "15");
    assert ExpectedStatus(k) == Err(Duplicate) && ExpectedBatch(k) == [];
    Insert16();
    assert S(17) == S(16);
  }

  lemma Insert16()
    ensures NoInsertOverflow(S(16), 15)
    ensures Insert(S(16), 15, "15").status == Err(Duplicate)
  {
    assert S(16) == Buffer([Some(Entry(15, "15")), Some(Entry(16, "16")), None, None, None], 4, 3, 13);
  }

  lemma Step17(k: nat)
    requires k == 17 && Valid(S(k))
    ensures Link(S, TestArrival, ExpectedStatus, ExpectedBatch, k)
  {
    assert TestArrival(k) == Arrival(14, "14");
    assert ExpectedStatus(k) == Ok && ExpectedBatch(k) == [];
    var b := Buffer([Some(Entry(15, "15")), Some(Entry(16, "16")), None, None, Some(Entry(14, "14"))], 0, 3, 13);
    Insert17(b);
    InsertPreservesValid(S(17), 14, "14");
    Drain17_0(b);
  }

  lemma Insert17(b: Buffer<string>)
    requires b == Buffer([Some(Entry(15, "15")), Some(Entry(16, "16")), None, None, Some(Entry(14, "14"))], 0, 3, 13)
    ensures NoInsertOverflow(S(17), 14)
    ensures Insert(S(17), 14, "14") == InsertOutcome(b, Ok)
  {
    assert S(17) == Buffer([Some(Entry(15, "15")), Some(Entry(16, "16")), None, None, None], 4, 3, 13);
    Upd17();
    assert 14 % 5 == 4;
  }

  lemma Upd17()
    ensures [Some(Entry(15, "15")), Some(Entry(16, "16")), None, None, None][4 := Some(Entry(14, "14"))] == [Some(Entry(15, "15")), Some(Entry(16, "16")), None, None, Some(Entry(14, "14"))]
  {
  }

  lemma Drain17_0(b: Buffer<string>)
    requires b == Buffer([Some(Entry(15, "15")), Some(Entry(16, "16")), None, None, Some(Entry(14, "14"))], 0, 3, 13)
    requires Valid(b)
    ensures Drain(b) == Drained(S(18), [])
  {
    DrainNil(b);
    assert S(18) == b;
  }

  lemma Step18(k: nat)
    requires k == 18 && Valid(S(k))
    ensures Link(S, TestArrival, ExpectedStatus, ExpectedBatch, k)
  {
    assert TestArrival(k) == Arrival(13, "13");
    assert ExpectedStatus(k) == Ok && ExpectedBatch(k) == ["13", "14", "15", "16"];
    var b := Buffer([Some(Entry(15, "15")), Some(Entry(16, "16")), None, Some(Entry(13, "13")), Some(Entry(14, "14"))], 0, 3, 13);
    Insert18(b);
    InsertPreservesValid(S(18), 13, "13");
    Drain18_0(b);
  }

  lemma Insert18(b: Buffer<string>)
    requires b == Buffer([Some(Entry(15, "15")), Some(Entry(16, "16")), None, Some(Entry(13, "13")), Some(Entry(14, "14"))], 0, 3, 13)
    ensures NoInsertOverflow(S(18), 13)
    ensures Insert(S(18), 13, "13") == InsertOutcome(b, Ok)
  {
    assert S(18) == Buffer([Some(Entry(15, "15")), Some(Entry(16, "16")), None, None, Some(Entry(14, "14"))], 0, 3, 13);
    Upd18();
    assert 13 % 5 == 3;
  }

  lemma Upd18()
    ensures [Some(Entry(15, "15")), Some(Entry(16, "16")), None, None, Some(Entry(14, "14"))][3 := Some(Entry(13, "13"))] == [Some(Entry(15, "15")), Some(Entry(16, "16")), None, Some(Entry(13, "13")), Some(Entry(14, "14"))]
  {
  }

  lemma Drain18_0(b: Buffer<string>)
    requires b == Buffer([Some(Entry(15, "15")), Some(Entry(16, "16")), None, Some(Entry(13, "13")), Some(Entry(14, "14"))], 0, 3, 13)
    requires Valid(b)
    ensures Drain(b) == Drained(S(19), ["13", "14", "15", "16"])
  {
    var b' := Buffer([Some(Entry(15, "15")), Some(Entry(16, "16")), None, None, Some(Entry(14, "14"))], 0, 4, 14);
    Take18_0(b, b');
    DrainStepPreservesValid(b);
    Drain18_1(b');
    DrainCons(b, b', "13", Drained(S(19), ["14", "15", "16"]));
    Cons18_0();
  }

  lemma Cons18_0()
    ensures ["13"] + ["14", "15", "16"] == ["13", "14", "15", "16"]
  {
  }

  lemma Take18_0(b: Buffer<string>, b': Buffer<string>)
    requires b == Buffer([Some(Entry(15, "15")), Some(Entry(16, "16")), None, Some(Entry(13, "13")), Some(Entry(14, "14"))], 0, 3, 13)
    requires b' == Buffer([Some(Entry(15, "15")), Some(Entry(16, "16")), None, None, Some(Entry(14, "14"))], 0, 4, 14)
    ensures DrainStep(b) == Step(b', Some("13"))
  {
  }

  lemma Drain18_1(b: Buffer<string>)
    requires b == Buffer([Some(Entry(15, "15")), Some(Entry(16, "16")), None, None, Some(Entry(14, "14"))], 0, 4, 14)
    requires Valid(b)
    ensures Drain(b) == Drained(S(19), ["14", "15", "16"])
  {
    var b' := Buffer([Some(Entry(15, "15")), Some(Entry(16, "16")), None, None, None], 0, 0, 15);
    Take18_1(b, b');
    DrainStepPreservesValid(b);
    Drain18_2(b');
    DrainCons(b, b', "14", Drained(S(19), ["15", "16"]));
    Cons18_1();
  }

  lemma Cons18_1()
    ensures ["14"] + ["15", "16"] == ["14", "15", "16"]
  {
  }

  lemma Take18_1(b: Buffer<string>, b': Buffer<string>)
    requires b == Buffer([Some(Entry(15, "15")), Some(Entry(16, "16")), None, None, Some(Entry(14, "14"))], 0, 4, 14)
    requires b' == Buffer([Some(Entry(15, "15")), Some(Entry(16, "16")), None, None, None], 0, 0, 15)
    ensures DrainStep(b) == Step(b', Some("14"))
  {
  }

  lemma Drain18_2(b: Buffer<string>)
    requires b == Buffer([Some(Entry(15, "15")), Some(Entry(16, "16")), None, None, None], 0, 0, 15)
    requires Valid(b)
    ensures Drain(b) == Drained(S(19), ["15", "16"])
  {
    var b' := Buffer([None, Some(Entry(16, "16")), None, None, None], 0, 1, 16);
    Take18_2(b, b');
    DrainStepPreservesValid(b);
    Drain18_3(b');
    DrainCons(b, b', "15", Drained(S(19), ["16"]));
    Cons18_2();
  }

  lemma Cons18_2()
    ensures ["15"] + ["16"] == ["15", "16"]
  {
  }

  lemma Take18_2(b: Buffer<string>, b': Buffer<string>)
    requires b == Buffer([Some(Entry(15, "15")), Some(Entry(16, "16")), None, None, None], 0, 0, 15)
    requires b' == Buffer([None, Some(Entry(16, "16")), None, None, None], 0, 1, 16)
    ensures DrainStep(b) == Step(b', Some("15"))
  {
  }

  lemma Drain18_3(b: Buffer<string>)
    requires b == Buffer([None, Some(Entry(16, "16")), None, None, None], 0, 1, 16)
    requires Valid(b)
    ensures Drain(b) == Drained(S(19), ["16"])
  {
    var b' := Buffer([None, None, None, None, None], 0, 2, 17);
    Take18_3(b, b');
    DrainStepPreservesValid(b);
    Drain18_4(b');
    DrainCons(b, b', "16", Drained(S(19), []));
    Cons18_3();
  }

  lemma Cons18_3()
    ensures ["16"] + [] == ["16"]
  {
  }

  lemma Take18_3(b: Buffer<string>, b': Buffer<string>)
    requires b == Buffer([None, Some(Entry(16, "16")), None, None, None], 0, 1, 16)
    requires b' == Buffer([None, None, None, None, None], 0, 2, 17)
    ensures DrainStep(b) == Step(b', Some("16"))
  {
  }

  lemma Drain18_4(b: Buffer<string>)
    requires b == Buffer([None, None, None, None, None], 0, 2, 17)
    requires Valid(b)
    ensures Drain(b) == Drained(S(19), [])
  {
    DrainNil(b);
    assert S(19) == b;
  }

  lemma Step19(k: nat)
    requires k == 19 && Valid(S(k))
    ensures Link(S, TestArrival, ExpectedStatus, ExpectedBatch, k)
  {
    assert TestArrival(k) == Arrival(2, "2");
    assert ExpectedStatus(k) == Err(PacketExpired) && ExpectedBatch(k) == [];
    Insert19();
    assert S(20) == S(19);
  }

  lemma Insert19()
    ensures NoInsertOverflow(S(19), 2)
    ensures Insert(S(19), 2, "2").status == Err(PacketExpired)
  {
    assert S(19) == Buffer([None, None, None, None, None], 0, 2, 17);
  }
}
