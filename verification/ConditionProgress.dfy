/** What the condition-variable queue can still do: from every reachable state below the limit a message can still be
    produced or consumed, without a spurious wakeup. */
module ConditionProgress {
  import opened Messages
  import opened Rings
  import opened Tally
  import opened ConditionQueue

  const MAX_THREADS: nat := 100

  function IsProducer(pc: PC): nat { if Producing(pc) then 1 else 0 }

  function IsConsumer(pc: PC): nat { if Producing(pc) then 0 else 1 }

  /** At most MAX_THREADS of a kind, and nobody wakes up unless signalled. */
  predicate Admitted(s: State, a: Action) {
    match a
    case CreateProducer => Total(s.threads, IsProducer) < MAX_THREADS
    case CreateConsumer => Total(s.threads, IsConsumer) < MAX_THREADS
    case Spurious(_) => false
    case _ => true
  }

  /** Some continuation takes `s` to `t`. */
  ghost predicate Leads(s: State, t: State) {
    exists run: seq<State>, acts: seq<Action> ::
      Steps(run, acts) && run[0] == s && run[|acts|] == t && forall k :: 0 <= k < |acts| ==> Admitted(run[k], acts[k])
  }

  lemma LeadsNowhere(s: State)
    ensures Leads(s, s)
  {
    assert Steps([s], []);
  }

  lemma StepLeads(s: State, a: Action, t: State)
    requires Enabled(s, a) && Admitted(s, a) && Leads(Apply(s, a), t)
    ensures Leads(s, t)
  {
    hide Enabled, Apply, Admitted;
    var run: seq<State>, acts: seq<Action> :|
      Steps(run, acts) && run[0] == Apply(s, a) && run[|acts|] == t
      && forall k :: 0 <= k < |acts| ==> Admitted(run[k], acts[k]);
    var run', acts' := [s] + run, [a] + acts;
    forall k | 0 <= k < |acts'|
      ensures Enabled(run'[k], acts'[k]) && run'[k + 1] == Apply(run'[k], acts'[k]) && Admitted(run'[k], acts'[k])
    {
      if k > 0 { assert run'[k] == run[k - 1] && run'[k + 1] == run[k] && acts'[k] == acts[k - 1]; }
    }
    assert Steps(run', acts') && run'[|acts'|] == t;
  }

  /** A message was produced or consumed between `s` and `t`. */
  predicate Grown(s: State, t: State) {
    |s.q.produced| < |t.q.produced| || |s.q.consumed| < |t.q.consumed|
  }

  ghost predicate CanGrow(s: State) { exists t :: Leads(s, t) && Grown(s, t) }

  lemma StepCanGrow(s: State, a: Action)
    requires Enabled(s, a) && Admitted(s, a)
    requires CanGrow(Apply(s, a)) || Grown(s, Apply(s, a))
    ensures CanGrow(s)
  {
    hide Enabled, Apply, Admitted, Leads;
    var s' := Apply(s, a);
    HistoryChange(s, a);
    LeadsNowhere(s');
    var t :| Leads(s', t) && (Grown(s', t) || t == s') && Grown(s, t);
    StepLeads(s, a, t);
  }

  predicate InCopy(pc: PC) { pc.PFill? || pc.PAdvance? || pc.CRead? || pc.CAdvance? }

  lemma IndicesInRing(s: State)
    requires DataInv(s)
    ensures s.q.head < |s.q.slots| && s.q.tail < |s.q.slots|
  {
  }

  /** A thread past its wait loop that has not yet moved its index can move it. */
  lemma CopyGoesOn(s: State, i: nat)
    requires Inv(s) && i < |s.threads| && InCopy(s.threads[i])
    ensures CanGrow(s)
    decreases s.threads[i].PFill? || s.threads[i].CRead?
  {
    hide Verifies, SomeMessage, DataInv, MutexInv, WakeupInv, CanGrow;
    var a := Run(i, SomeMessage(), 0);
    IndicesInRing(s);
    if s.threads[i].PFill? || s.threads[i].CRead? {
      StepKeepsInv(s, a);
      CopyGoesOn(Apply(s, a), i);
    } else {
      HistoryChange(s, a);
      assert Grown(s, Apply(s, a));
    }
    StepCanGrow(s, a);
  }

  /** Steps to a thread's test of its wait loop. */
  function ToTest(pc: PC): nat {
    if pc.PCheck? || pc.CCheck? then 1 else if pc.PIdle? || pc.CIdle? then 3 else 2
  }

  predicate AtTest(pc: PC) {
    pc.PCheck? || pc.CCheck? || pc.PIdle? || pc.CIdle? || pc.PLock? || pc.CLock? || pc.PWoken? || pc.CWoken?
  }

  /** A thread that is at its test, or can get there, passes it if there is room or a message for it. */
  lemma {:induction false} TestGoesOn(s: State, i: nat)
    requires Inv(s) && i < |s.threads| && AtTest(s.threads[i])
    requires if Producing(s.threads[i]) then Occupancy(s.q) < s.cap else Occupancy(s.q) > 0
    requires s.mutex == Free || s.mutex == Held(i)
    ensures CanGrow(s)
    decreases ToTest(s.threads[i])
  {
    hide Verifies, SomeMessage, DataInv, WakeupInv, CanGrow, QueueInv, Used, Occupancy;
    var a := Run(i, SomeMessage(), 0);
    InRing(s);
    UsedIsOccupancy(s.q);
    StepKeepsInv(s, a);
    if s.threads[i].PCheck? || s.threads[i].CCheck? {
      CopyGoesOn(Apply(s, a), i);
    } else {
      TestGoesOn(Apply(s, a), i);
    }
    StepCanGrow(s, a);
  }

  lemma InRing(s: State)
    requires DataInv(s)
    ensures QueueInv(FIXED_SIZE, s.q) && Occupancy(s.q) < FIXED_SIZE && 1 <= s.cap
  {
  }

  /** At its prompt the command loop can create the thread that is missing. */
  lemma CreateGoesOn(s: State, a: Action)
    requires Inv(s) && s.mutex == Free && s.main == Idle && Admitted(s, a)
    requires (a == CreateProducer && Occupancy(s.q) < s.cap) || (a == CreateConsumer && Occupancy(s.q) > 0)
    ensures CanGrow(s)
  {
    hide Verifies, SomeMessage, DataInv, MutexInv, WakeupInv, CanGrow, Total;
    StepKeepsInv(s, a);
    TestGoesOn(Apply(s, a), |s.threads|);
    StepCanGrow(s, a);
  }

  /** With the mutex free nobody is past a test, so every sleeper whose turn it is has a woken thread to go first. */
  lemma SomeoneWoken(s: State)
    requires Inv(s) && s.mutex == Free && s.main == Idle
    ensures CAsleep in s.threads && Occupancy(s.q) > 0 ==> exists i :: 0 <= i < |s.threads| && s.threads[i].CWoken?
    ensures PAsleep in s.threads && Occupancy(s.q) < s.cap ==> exists i :: 0 <= i < |s.threads| && s.threads[i].PWoken?
  {
    hide DataInv, Total, Occupancy;
    TotalZero(s.threads, ConsumerDebt);
    TotalZero(s.threads, ProducerDebt);
    if CAsleep in s.threads && Occupancy(s.q) > 0 {
      var i :| 0 <= i < |s.threads| && s.threads[i] == CAsleep;
      TotalAtLeast(s.threads, i, SleepingConsumer);
      var j := TotalPositive(s.threads, WokenConsumer);
    }
    if PAsleep in s.threads && Occupancy(s.q) < s.cap {
      var i :| 0 <= i < |s.threads| && s.threads[i] == PAsleep;
      TotalAtLeast(s.threads, i, SleepingProducer);
      var j := TotalPositive(s.threads, WokenProducer);
    }
  }

  lemma IdleGoesOn(s: State)
    requires Inv(s) && s.mutex == Free && s.main == Idle
    ensures CanGrow(s)
  {
    hide Verifies, DataInv, WakeupInv, Total, CanGrow, Occupancy;
    InRing(s);
    SomeoneWoken(s);
    if Occupancy(s.q) > 0 {
      if i: nat :| i < |s.threads| && !Producing(s.threads[i]) && s.threads[i] != CAsleep {
        TestGoesOn(s, i);
      } else {
        TotalZero(s.threads, IsConsumer);
        CreateGoesOn(s, CreateConsumer);
      }
    } else {
      if i: nat :| i < |s.threads| && Producing(s.threads[i]) && s.threads[i] != PAsleep {
        TestGoesOn(s, i);
      } else {
        TotalZero(s.threads, IsProducer);
        CreateGoesOn(s, CreateProducer);
      }
    }
  }

  /** Steps until the holder of the mutex has given it up, unless it gets to copy a message. */
  function HolderRank(s: State): nat {
    if !s.mutex.Held? || s.mutex.i >= |s.threads| then 0
    else if s.threads[s.mutex.i].PSignal? || s.threads[s.mutex.i].CSignal? then 2 else 1
  }

  /** Steps until the command loop is back at its prompt. */
  function MainRank(main: MainPC): nat {
    match main
    case Idle => 0
    case BriefHold => 1
    case PlusUnlock => 1
    case MinusUnlock => 1
    case BriefLock => 2
    case PlusSignal => 2
    case MinusTest => 2
    case PlusTest => 3
    case MinusLock => 3
    case PlusLock => 4
  }

  lemma MainWorks(s: State, w: nat)
    requires Inv(s) && s.main != Idle && !s.mutex.Held? && SignalChoice(s.threads, PAsleep, w)
    ensures Enabled(s, MainStep(w)) && MainRank(Apply(s, MainStep(w)).main) < MainRank(s.main)
  {
    hide DataInv, WakeupInv, SignalChoice, Signal;
  }

  lemma HolderWorks(s: State, w: nat)
    requires Inv(s) && s.mutex.Held? && s.mutex.i < |s.threads| && !InCopy(s.threads[s.mutex.i])
    requires SignalChoice(s.threads, if Producing(s.threads[s.mutex.i]) then CAsleep else PAsleep, w)
    ensures var a, i := Run(s.mutex.i, SomeMessage(), w), s.mutex.i;
            && Enabled(s, a) && Apply(s, a).main == s.main && !s.threads[i].PAdvance?
            && ((i < |Apply(s, a).threads| && InCopy(Apply(s, a).threads[i]))
                || HolderRank(Apply(s, a)) < HolderRank(s))
  {
    hide Verifies, SomeMessage, DataInv, WakeupInv, SignalChoice, Used;
    assert InCritical(s.threads[s.mutex.i]);
  }

  lemma HolderExists(s: State)
    requires Inv(s)
    ensures s.mutex.Held? ==> s.mutex.i < |s.threads|
    ensures s.mutex == HeldByMain ==> s.main != Idle
  {
  }

  lemma {:induction false} GoesOn(s: State)
    requires Inv(s)
    ensures CanGrow(s)
    decreases MainRank(s.main), HolderRank(s)
  {
    hide CanGrow, Enabled, Apply, Inv, Verifies, SomeMessage, SignalChoice, MainRank, HolderRank;
    HolderExists(s);
    if s.mutex.Held? {
      var i := s.mutex.i;
      if InCopy(s.threads[i]) {
        CopyGoesOn(s, i);
      } else {
        var w := Sleeper(s.threads, if Producing(s.threads[i]) then CAsleep else PAsleep);
        var a := Run(i, SomeMessage(), w);
        HolderWorks(s, w);
        StepKeepsInv(s, a);
        if i < |Apply(s, a).threads| && InCopy(Apply(s, a).threads[i]) {
          CopyGoesOn(Apply(s, a), i);
        } else {
          GoesOn(Apply(s, a));
        }
        StepCanGrow(s, a);
      }
    } else if s.main == Idle {
      IdleGoesOn(s);
    } else {
      var w := Sleeper(s.threads, PAsleep);
      MainWorks(s, w);
      StepKeepsInv(s, MainStep(w));
      GoesOn(Apply(s, MainStep(w)));
      StepCanGrow(s, MainStep(w));
    }
  }

  /** In every run whose capacity has stayed below FIXED_SIZE, whatever the threads and commands have done, some
      continuation without a spurious wakeup produces or consumes another message. */
  lemma AlwaysGoesOn(run: seq<State>, acts: seq<Action>)
    requires IsRun(run, acts) && (|acts| > 0 ==> Within(run, |acts| - 1, FIXED_SIZE - 1))
    ensures exists t :: Leads(run[|acts|], t) && Grown(run[|acts|], t)
  {
    hide Inv, Enabled, Apply, Init, Leads;
    Reachable(run, acts, |acts|);
    GoesOn(run[|acts|]);
  }
}
