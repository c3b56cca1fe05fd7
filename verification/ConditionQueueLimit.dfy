/** Where the condition-variable queue stops being a queue: a capacity of FIXED_SIZE, which '+' allows, defeats the
    test for a full ring, and no smaller capacity does. */
module ConditionQueueLimit {
  import opened Messages
  import opened Rings
  import opened ConditionQueue

  /** The producers' wait loop stops them when the queue holds `cap` messages or more, and only then. */
  predicate TestIsRight(q: Queue, cap: nat) { Used(q) >= cap <==> Occupancy(q) >= cap }

  /** The test is right for every capacity exactly when the ring is not completely full. */
  lemma FullTestExact(q: Queue)
    requires QueueInv(FIXED_SIZE, q)
    ensures (forall cap: nat | 1 <= cap <= FIXED_SIZE :: TestIsRight(q, cap)) <==> Occupancy(q) < FIXED_SIZE
  {
    UsedIsOccupancy(q);
    if Occupancy(q) == FIXED_SIZE { assert !TestIsRight(q, 1); }
  }

  /** The commands keep the capacity between 1 and FIXED_SIZE, both included. */
  lemma {:induction false} CapacityBounded(run: seq<State>, acts: seq<Action>, k: nat)
    requires IsRun(run, acts) && k < |run|
    ensures 1 <= run[k].cap <= FIXED_SIZE
  {
    if k > 0 {
      CapacityBounded(run, acts, k - 1);
      assert run[k] == Apply(run[k - 1], acts[k - 1]);
      hide Used, SignalChoice, Signal;
    }
  }

  // ----- a run that overfills the ring

  /** Some run whose capacity never exceeds `limit` ends in `s`. */
  ghost predicate Reaches(s: State, limit: int) {
    exists run, acts :: IsRun(run, acts) && Within(run, |run| - 1, limit) && run[|run| - 1] == s
  }

  lemma Extend(s: State, a: Action, limit: int)
    requires Reaches(s, limit) && Enabled(s, a) && Apply(s, a).cap <= limit
    ensures Reaches(Apply(s, a), limit)
  {
    hide Enabled, Apply, Init;
    var run, acts :| IsRun(run, acts) && Within(run, |run| - 1, limit) && run[|run| - 1] == s;
    var run', acts' := run + [Apply(s, a)], acts + [a];
    forall k | 0 <= k < |acts'| ensures Enabled(run'[k], acts'[k]) && run'[k + 1] == Apply(run'[k], acts'[k]) {
      if k < |acts| { assert run'[k] == run[k] && run'[k + 1] == run[k + 1] && acts'[k] == acts[k]; }
    }
    assert IsRun(run', acts') && Within(run', |run'| - 1, limit);
  }

  /** One producer, about to take the free mutex; `n` messages produced and none consumed. */
  ghost predicate Quiet(s: State, n: nat, cap: nat) {
    && s == State(s.q, cap, Free, [PLock], Idle)
    && |s.q.slots| == FIXED_SIZE && |s.q.produced| == n
    && s.q.consumed == [] && s.q.head == 0 && s.q.tail == n % FIXED_SIZE
  }

  lemma CreateOne(m: Message, limit: int) returns (s: State)
    requires limit >= FIXED_SIZE
    ensures Reaches(s, limit) && Quiet(s, 0, INITIAL_QUEUE_SIZE)
  {
    var s0 := State(EmptyQueue(seq(FIXED_SIZE, _ => m)), INITIAL_QUEUE_SIZE, Free, [], Idle);
    assert IsRun([s0], []) && Within([s0], 0, limit);
    var s1 := s0.(threads := [PLock], main := BriefLock);
    assert Enabled(s0, CreateProducer) && Apply(s0, CreateProducer) == s1;
    var s2 := s1.(mutex := HeldByMain, main := BriefHold);
    assert Enabled(s1, MainStep(0)) && Apply(s1, MainStep(0)) == s2;
    s := s2.(mutex := Free, main := Idle);
    assert Enabled(s2, MainStep(0)) && Apply(s2, MainStep(0)) == s;
    hide Apply, Enabled, Reaches;
    Extend(s0, CreateProducer, limit);
    Extend(s1, MainStep(0), limit);
    Extend(s2, MainStep(0), limit);
  }

  /** '+' with nobody asleep. */
  lemma GrowOnce(s: State, cap: nat, limit: int) returns (t: State)
    requires Reaches(s, limit) && Quiet(s, 0, cap) && cap < FIXED_SIZE <= limit
    ensures Reaches(t, limit) && Quiet(t, 0, cap + 1)
  {
    var s1 := s.(main := PlusLock);
    var s2 := s.(mutex := HeldByMain, main := PlusTest);
    var s3 := s2.(cap := cap + 1, main := PlusSignal);
    var s4 := s3.(main := PlusUnlock);
    t := s.(cap := cap + 1);
    assert Enabled(s, Plus) && Apply(s, Plus) == s1;
    assert Enabled(s1, MainStep(0)) && Apply(s1, MainStep(0)) == s2;
    assert Enabled(s2, MainStep(0)) && Apply(s2, MainStep(0)) == s3;
    assert Enabled(s3, MainStep(0)) && Apply(s3, MainStep(0)) == s4;
    assert Enabled(s4, MainStep(0)) && Apply(s4, MainStep(0)) == t;
    hide Apply, Enabled, Reaches;
    Extend(s, Plus, limit);
    Extend(s1, MainStep(0), limit);
    Extend(s2, MainStep(0), limit);
    Extend(s3, MainStep(0), limit);
    Extend(s4, MainStep(0), limit);
  }

  lemma {:induction false} Grow(s: State, cap: nat, limit: int) returns (t: State)
    requires Reaches(s, limit) && Quiet(s, 0, cap) && cap <= FIXED_SIZE <= limit
    ensures Reaches(t, limit) && Quiet(t, 0, FIXED_SIZE)
    decreases FIXED_SIZE - cap
  {
    t := s;
    if cap < FIXED_SIZE {
      t := GrowOnce(s, cap, limit);
      t := Grow(t, cap + 1, limit);
    }
  }

  /** The producer at capacity FIXED_SIZE fills a slot: the test never holds it back. */
  lemma FillOnce(s: State, n: nat, m: Message, limit: int) returns (t: State)
    requires Reaches(s, limit) && Quiet(s, n, FIXED_SIZE) && Verifies(m) && limit >= FIXED_SIZE
    ensures Reaches(t, limit) && t == s.(mutex := Held(0), q := Fill(s.q, m), threads := [PAdvance])
  {
    hide Verifies;
    var a := Run(0, m, 0);
    var s1 := s.(mutex := Held(0), threads := [PCheck]);
    var s2 := s1.(threads := [PFill]);
    t := s1.(q := Fill(s.q, m), threads := [PAdvance]);
    assert Used(s.q) < FIXED_SIZE;
    hide Used, Reaches;
    assert Enabled(s, a) && Apply(s, a) == s1;
    assert Enabled(s1, a) && Apply(s1, a) == s2;
    assert Enabled(s2, a) && Apply(s2, a) == t;
    hide Apply, Enabled;
    Extend(s, a, limit);
    Extend(s1, a, limit);
    Extend(s2, a, limit);
  }

  /** It moves `tail`, signals nobody, unlocks and comes round to its next lock. */
  lemma FinishOnce(s: State, m: Message, limit: int) returns (t: State)
    requires Reaches(s, limit) && s == State(s.q, FIXED_SIZE, Held(0), [PAdvance], Idle) && limit >= FIXED_SIZE
    requires s.q.tail < FIXED_SIZE == |s.q.slots|
    ensures Reaches(t, limit) && t == State(Advance(FIXED_SIZE, s.q), FIXED_SIZE, Free, [PLock], Idle)
  {
    hide Reaches, Used, Advance, Verifies;
    var a := Run(0, m, 0);
    var s1 := s.(q := Advance(FIXED_SIZE, s.q), threads := [PSignal]);
    var s2 := s1.(threads := [PUnlock]);
    var s3 := s1.(mutex := Free, threads := [PIdle]);
    t := s3.(threads := [PLock]);
    assert Enabled(s, a) && Apply(s, a) == s1;
    assert Enabled(s1, a) && Apply(s1, a) == s2;
    assert Enabled(s2, a) && Apply(s2, a) == s3;
    assert Enabled(s3, a) && Apply(s3, a) == t;
    hide Apply, Enabled;
    Extend(s, a, limit);
    Extend(s1, a, limit);
    Extend(s2, a, limit);
    Extend(s3, a, limit);
  }

  lemma ProduceOnce(s: State, n: nat, m: Message, limit: int) returns (t: State)
    requires Reaches(s, limit) && Quiet(s, n, FIXED_SIZE) && Verifies(m) && limit >= FIXED_SIZE
    ensures Reaches(t, limit) && Quiet(t, n + 1, FIXED_SIZE)
  {
    hide Reaches, Verifies;
    t := FillOnce(s, n, m, limit);
    t := FinishOnce(t, m, limit);
    NextSlot(n, FIXED_SIZE);
  }

  lemma {:induction false} Produce(s: State, n: nat, more: nat, m: Message, limit: int) returns (t: State)
    requires Reaches(s, limit) && Quiet(s, n, FIXED_SIZE) && Verifies(m) && limit >= FIXED_SIZE
    ensures Reaches(t, limit) && Quiet(t, n + more, FIXED_SIZE)
    decreases more
  {
    t := s;
    if more > 0 {
      t := ProduceOnce(s, n, m, limit);
      t := Produce(t, n + 1, more - 1, m, limit);
    }
  }

  /** One producer at capacity FIXED_SIZE fills the ring and then overwrites the oldest unread message. */
  lemma Overfills(limit: int) returns (s: State)
    requires limit >= FIXED_SIZE
    ensures Reaches(s, limit) && Occupancy(s.q) == FIXED_SIZE + 1
  {
    var m := SomeMessage();
    hide Reaches, Verifies;
    s := CreateOne(m, limit);
    s := Grow(s, INITIAL_QUEUE_SIZE, limit);
    s := Produce(s, 0, FIXED_SIZE + 1, m, limit);
  }

  /** The queue is a queue in all runs whose capacity stays within a limit exactly when the limit is below
      FIXED_SIZE. */
  lemma SafeLimits(limit: int)
    ensures (forall s | Reaches(s, limit) :: QueueInv(FIXED_SIZE, s.q)) <==> limit < FIXED_SIZE
  {
    if limit < FIXED_SIZE {
      forall s | Reaches(s, limit) ensures QueueInv(FIXED_SIZE, s.q) {
        var run, acts :| IsRun(run, acts) && Within(run, |run| - 1, limit) && run[|run| - 1] == s;
        Reachable(run, acts, |run| - 1);
      }
    } else {
      var s := Overfills(limit);
      assert Reaches(s, limit) && !QueueInv(FIXED_SIZE, s.q);
    }
  }
}
