/** What the semaphore queue can still do from any reachable state, and the one way in which it hangs: a '-' that
    waits for a free slot blocks the command loop, and without a consumer no slot ever becomes free. */
module SemaphoreProgress {
  import opened Messages
  import opened Rings
  import opened Tally
  import opened SemaphoreQueue

  const MAX_THREADS: nat := 100

  predicate Consuming(pc: PC) { pc != Dead && !Producing(pc) }

  function LiveProducer(t: Thread): nat { if Producing(t.pc) then 1 else 0 }

  function LiveConsumer(t: Thread): nat { if Consuming(t.pc) then 1 else 0 }

  /** What the machine leaves open and the program does not: there are at most MAX_THREADS of a kind, and a
      cancelled thread does not get past a cancellation point. */
  predicate Admitted(s: State, a: Action) {
    match a
    case CreateProducer => Total(s.threads, LiveProducer) < MAX_THREADS
    case CreateConsumer => Total(s.threads, LiveConsumer) < MAX_THREADS
    case Run(i, _) => i < |s.threads| && s.threads[i].doomed ==> !CancellationPoint(s.threads[i].pc)
    case _ => true
  }

  /** Some continuation takes `s` to `t`. */
  ghost predicate Leads(s: State, t: State) {
    exists run: seq<State>, acts: seq<Action> ::
      Steps(run, acts) && run[0] == s && run[|acts|] == t && forall k :: 0 <= k < |acts| ==> Admitted(run[k], acts[k])
  }

  lemma LeadsNowhere(s: State)
    ensures Leads(s, s)
  {
    assert Steps([s], []);
  }

  lemma StepLeads(s: State, a: Action, t: State)
    requires Enabled(s, a) && Admitted(s, a) && Leads(Apply(s, a), t)
    ensures Leads(s, t)
  {
    hide Enabled, Apply, Admitted;
    var run: seq<State>, acts: seq<Action> :|
      Steps(run, acts) && run[0] == Apply(s, a) && run[|acts|] == t
      && forall k :: 0 <= k < |acts| ==> Admitted(run[k], acts[k]);
    var run', acts' := [s] + run, [a] + acts;
    forall k | 0 <= k < |acts'|
      ensures Enabled(run'[k], acts'[k]) && run'[k + 1] == Apply(run'[k], acts'[k]) && Admitted(run'[k], acts'[k])
    {
      if k > 0 { assert run'[k] == run[k - 1] && run'[k + 1] == run[k] && acts'[k] == acts[k - 1]; }
    }
    assert Steps(run', acts') && run'[|acts'|] == t;
  }

  // ----- a '-' that never returns

  /** The command loop waits for a free slot, there is none, and there is no consumer to make one. */
  predicate Hung(s: State) {
    s.main == MinusWait && s.empty == 0 && forall i :: 0 <= i < |s.threads| ==> !Consuming(s.threads[i].pc)
  }

  lemma HungStep(s: State, a: Action)
    requires Hung(s) && Enabled(s, a)
    ensures Hung(Apply(s, a))
  {
    hide Fill, Advance, Take, Verifies;
  }

  lemma {:induction false} HungForever(run: seq<State>, acts: seq<Action>, k: nat)
    requires Steps(run, acts) && k < |run| && Hung(run[0])
    ensures Hung(run[k])
  {
    if k > 0 {
      hide Hung, Enabled, Apply;
      HungForever(run, acts, k - 1);
      HungStep(run[k - 1], acts[k - 1]);
    }
  }

  ghost predicate CanReturn(s: State) { exists t :: Leads(s, t) && t.main != MinusWait }

  lemma StepCanReturn(s: State, a: Action)
    requires Enabled(s, a) && Admitted(s, a)
    requires CanReturn(Apply(s, a)) || Apply(s, a).main != MinusWait
    ensures CanReturn(s)
  {
    hide Enabled, Apply, Admitted, Leads;
    LeadsNowhere(Apply(s, a));
    var t :| Leads(Apply(s, a), t) && t.main != MinusWait;
    StepLeads(s, a, t);
  }

  /** Steps until a consumer has posted a free slot. */
  function StepsToSlot(pc: PC): nat {
    match pc
    case CIdle(_) => 6
    case CWait => 5
    case CLock => 4
    case CRead => 3
    case CAdvance(_) => 2
    case CUnlock(_) => 1
    case _ => 0
  }

  lemma {:induction false} SlotComes(s: State, i: nat)
    requires Inv(s) && s.main == MinusWait && i < |s.threads| && Consuming(s.threads[i].pc)
    requires s.mutex == Free || s.mutex == Held(i)
    requires s.threads[i].pc.CIdle? || s.threads[i].pc.CWait? ==> s.full > 0 || s.empty > 0
    ensures CanReturn(s)
    decreases s.empty == 0, StepsToSlot(s.threads[i].pc)
  {
    hide Verifies, TokensInv, DataInv, Total, CanReturn;
    if s.empty > 0 {
      StepCanReturn(s, MainStep);
    } else {
      var a := Run(i, SomeMessage());
      assert Enabled(s, a) by { if s.threads[i].pc.CRead? { HeadInRing(s); } }
      StepKeepsInv(s, a);
      SlotComes(Apply(s, a), i);
      StepCanReturn(s, a);
    }
  }

  lemma HeadInRing(s: State)
    requires DataInv(s)
    ensures s.q.head < |s.q.slots| && s.q.tail < |s.q.slots|
  {
  }

  /** Steps producers have left until they hold no token. */
  function ProducerSteps(t: Thread): nat {
    match t.pc
    case PLock => 5
    case PFill => 4
    case PAdvance => 3
    case PUnlock => 2
    case PPost => 1
    case _ => 0
  }

  /** The thread to run while there is no free slot: a consumer on its way to post one, or a producer that holds
      the mutex or a token. */
  lemma WhoMovesNext(s: State, j: nat) returns (i: nat)
    requires Inv(s) && s.main == MinusWait && s.empty == 0 && j < |s.threads| && Consuming(s.threads[j].pc)
    ensures i < |s.threads| && (s.mutex == Free || s.mutex == Held(i))
    ensures Consuming(s.threads[i].pc) || ProducerSteps(s.threads[i]) > 0
    ensures s.threads[i].pc.CIdle? || s.threads[i].pc.CWait? ==> s.full > 0
  {
    if s.mutex.Held? {
      i := s.mutex.i;
      assert InCritical(s.threads[i].pc);
    } else if x: nat :| x < |s.threads| && Token(s.threads[x]) > 0 {
      i := x;
    } else {
      i := j;
      TotalZero(s.threads, ItemToken);
      TotalZero(s.threads, RoomToken);
    }
  }

  lemma {:induction false} Returns(s: State, j: nat)
    requires Inv(s) && s.main == MinusWait && j < |s.threads| && Consuming(s.threads[j].pc)
    ensures CanReturn(s)
    decreases Total(s.threads, ProducerSteps)
  {
    hide Verifies, TokensInv, DataInv, MutexInv, Total, CanReturn;
    if s.empty > 0 {
      StepCanReturn(s, MainStep);
    } else {
      var i := WhoMovesNext(s, j);
      if Consuming(s.threads[i].pc) {
        SlotComes(s, i);
      } else {
        var a := Run(i, SomeMessage());
        ProducerMoves(s, i);
        StepKeepsInv(s, a);
        Returns(Apply(s, a), j);
        StepCanReturn(s, a);
      }
    }
  }

  lemma HolderEnabled(s: State, i: nat)
    requires Inv(s) && i < |s.threads| && Token(s.threads[i]) > 0 && (s.mutex == Free || s.mutex == Held(i))
    ensures Enabled(s, Run(i, SomeMessage())) && Admitted(s, Run(i, SomeMessage()))
  {
    HeadInRing(s);
    hide Verifies, TokensInv, DataInv;
  }

  lemma ProducerMoves(s: State, i: nat)
    requires Inv(s) && i < |s.threads| && ProducerSteps(s.threads[i]) > 0 && (s.mutex == Free || s.mutex == Held(i))
    ensures var a := Run(i, SomeMessage());
            && Enabled(s, a) && Admitted(s, a)
            && Total(Apply(s, a).threads, ProducerSteps) < Total(s.threads, ProducerSteps)
            && Apply(s, a).main == s.main && |Apply(s, a).threads| == |s.threads|
            && forall x :: 0 <= x < |s.threads| ==>
                 (Consuming(Apply(s, a).threads[x].pc) <==> Consuming(s.threads[x].pc))
  {
    var a := Run(i, SomeMessage());
    hide Verifies, SomeMessage, Inv, Total, Fill, Advance, Admitted;
    HolderEnabled(s, i);
    TotalUpdate(s.threads, i, Apply(s, a).threads[i], ProducerSteps);
  }

  /** Exactly when a '-' that waits for a free slot never returns: when there is none and no consumer lives. */
  lemma MinusHangsIff(run: seq<State>, acts: seq<Action>)
    requires IsRun(run, acts) && run[|acts|].main == MinusWait
    ensures Hung(run[|acts|]) <==> forall t :: Leads(run[|acts|], t) ==> t.main == MinusWait
  {
    var s := run[|acts|];
    Reachable(run, acts, |acts|);
    hide Inv, Enabled, Apply, Init, Admitted;
    if Hung(s) {
      forall t | Leads(s, t) ensures t.main == MinusWait {
        var more: seq<State>, acts': seq<Action> :| Steps(more, acts') && more[0] == s && more[|acts'|] == t;
        HungForever(more, acts', |acts'|);
      }
    } else if s.empty > 0 {
      MainCanTake(s);
    } else {
      var j :| 0 <= j < |s.threads| && Consuming(s.threads[j].pc);
      Returns(s, j);
    }
  }

  lemma MainCanTake(s: State)
    requires s.main == MinusWait && s.empty > 0
    ensures CanReturn(s)
  {
    StepCanReturn(s, MainStep);
  }

  // ----- whether a message can still be produced or consumed

  /** A message was produced or consumed between `s` and `t`. */
  predicate Grown(s: State, t: State) {
    |s.q.produced| < |t.q.produced| || |s.q.consumed| < |t.q.consumed|
  }

  ghost predicate CanGrow(s: State) { exists t :: Leads(s, t) && Grown(s, t) }

  lemma StepCanGrow(s: State, a: Action)
    requires Enabled(s, a) && Admitted(s, a)
    requires CanGrow(Apply(s, a)) || Grown(s, Apply(s, a))
    ensures CanGrow(s)
  {
    var s' := Apply(s, a);
    HistoryChange(s, a);
    hide Enabled, Apply, Admitted, Leads;
    LeadsNowhere(s');
    var t :| Leads(s', t) && (Grown(s', t) || t == s') && Grown(s, t);
    StepLeads(s, a, t);
  }

  /** The command loop hangs and the queue is as full as its capacity allows, with no slot taken by a producer. */
  predicate Frozen(s: State) {
    s.main == MinusWait && Occupancy(s.q) >= s.cap && forall i :: 0 <= i < |s.threads| ==> !Consuming(s.threads[i].pc)
  }

  lemma FrozenIsHung(s: State)
    requires Inv(s) && Frozen(s)
    ensures Hung(s) && forall i :: 0 <= i < |s.threads| ==> RoomToken(s.threads[i]) == 0
  {
    forall i | 0 <= i < |s.threads| ensures RoomToken(s.threads[i]) == 0 { TotalAtLeast(s.threads, i, RoomToken); }
    hide Total;
  }

  lemma FrozenStep(s: State, a: Action)
    requires Inv(s) && Frozen(s) && Enabled(s, a)
    ensures Frozen(Apply(s, a))
    ensures Apply(s, a).q.produced == s.q.produced && Apply(s, a).q.consumed == s.q.consumed
  {
    FrozenIsHung(s);
    HungStep(s, a);
    HistoryChange(s, a);
    hide Inv, Fill, Advance, Take, Verifies;
  }

  lemma {:induction false} FrozenForever(run: seq<State>, acts: seq<Action>, k: nat)
    requires Steps(run, acts) && k < |run| && Inv(run[0]) && Frozen(run[0])
    ensures Inv(run[k]) && Frozen(run[k])
    ensures run[k].q.produced == run[0].q.produced && run[k].q.consumed == run[0].q.consumed
  {
    if k > 0 {
      hide Inv, Frozen, Enabled, Apply;
      FrozenForever(run, acts, k - 1);
      FrozenStep(run[k - 1], acts[k - 1]);
      StepKeepsInv(run[k - 1], acts[k - 1]);
    }
  }

  predicate InCopy(pc: PC) { pc.PFill? || pc.PAdvance? || pc.CRead? || pc.CAdvance? }

  /** A thread that holds the mutex and has not yet moved its index can move it. */
  lemma CopyGoesOn(s: State, i: nat)
    requires Inv(s) && i < |s.threads| && InCopy(s.threads[i].pc)
    ensures CanGrow(s)
    decreases s.threads[i].pc.PFill? || s.threads[i].pc.CRead?
  {
    var a := Run(i, SomeMessage());
    hide Verifies, SomeMessage, TokensInv, DataInv, JoinInv, Total, CanGrow, Admitted;
    HolderEnabled(s, i);
    if s.threads[i].pc.PFill? || s.threads[i].pc.CRead? {
      StepKeepsInv(s, a);
      CopyGoesOn(Apply(s, a), i);
    } else {
      HistoryChange(s, a);
      assert Grown(s, Apply(s, a));
    }
    StepCanGrow(s, a);
  }

  lemma LockGoesOn(s: State, i: nat)
    requires Inv(s) && i < |s.threads| && s.mutex == Free && (s.threads[i].pc.PLock? || s.threads[i].pc.CLock?)
    ensures CanGrow(s)
  {
    var a := Run(i, SomeMessage());
    hide Verifies, SomeMessage, TokensInv, DataInv, JoinInv, Total, CanGrow, Admitted;
    HolderEnabled(s, i);
    StepKeepsInv(s, a);
    CopyGoesOn(Apply(s, a), i);
    StepCanGrow(s, a);
  }

  /** With the mutex and a token free, a thread that waits for the token, or is about to, can take it. */
  lemma WaitGoesOn(s: State, i: nat)
    requires Inv(s) && i < |s.threads| && s.mutex == Free && CancellationPoint(s.threads[i].pc) && !s.threads[i].doomed
    requires if Producing(s.threads[i].pc) then s.empty > 0 else s.full > 0
    ensures CanGrow(s)
    decreases s.threads[i].pc.PIdle? || s.threads[i].pc.CIdle?
  {
    var a := Run(i, SomeMessage());
    hide Verifies, SomeMessage, TokensInv, DataInv, JoinInv, Total, CanGrow;
    StepKeepsInv(s, a);
    if s.threads[i].pc.PWait? || s.threads[i].pc.CWait? {
      LockGoesOn(Apply(s, a), i);
    } else {
      WaitGoesOn(Apply(s, a), i);
    }
    StepCanGrow(s, a);
  }

  /** At its prompt the command loop can create the thread that is missing. */
  lemma CreateGoesOn(s: State, a: Action)
    requires Inv(s) && s.mutex == Free && s.main == Idle && Admitted(s, a)
    requires (a == CreateProducer && s.empty > 0) || (a == CreateConsumer && s.full > 0)
    ensures CanGrow(s)
  {
    hide Verifies, SomeMessage, TokensInv, DataInv, JoinInv, Total, CanGrow;
    StepKeepsInv(s, a);
    WaitGoesOn(Apply(s, a), |s.threads|);
    StepCanGrow(s, a);
  }

  /** With the command loop at its prompt and nobody holding a token, the queue goes on. */
  lemma IdleGoesOn(s: State)
    requires Inv(s) && s.mutex == Free && s.main == Idle && (s.empty > 0 || s.full > 0)
    requires forall i :: 0 <= i < |s.threads| ==> Token(s.threads[i]) == 0
    ensures CanGrow(s)
  {
    hide Verifies, TokensInv, DataInv, Total, CanGrow;
    if s.empty > 0 {
      if i: nat :| i < |s.threads| && Producing(s.threads[i].pc) {
        WaitGoesOn(s, i);
      } else {
        TotalZero(s.threads, LiveProducer);
        CreateGoesOn(s, CreateProducer);
      }
    } else {
      if i: nat :| i < |s.threads| && Consuming(s.threads[i].pc) {
        WaitGoesOn(s, i);
      } else {
        TotalZero(s.threads, LiveConsumer);
        CreateGoesOn(s, CreateConsumer);
      }
    }
  }

  /** Steps a thread has left until it has given back what it holds, its index already moved. */
  function Posts(t: Thread): nat {
    if t.pc.PUnlock? || t.pc.CUnlock? then 2 else if t.pc.PPost? || t.pc.CPost? then 1 else 0
  }

  lemma PostWorks(s: State, i: nat)
    requires Inv(s) && i < |s.threads| && Posts(s.threads[i]) > 0 && (s.mutex == Free || s.mutex == Held(i))
    ensures var a := Run(i, SomeMessage());
            && Enabled(s, a) && Admitted(s, a) && Total(Apply(s, a).threads, Posts) < Total(s.threads, Posts)
            && !Frozen(Apply(s, a))
    requires !Frozen(s)
  {
    var a := Run(i, SomeMessage());
    hide Verifies, SomeMessage, Inv, Total, Admitted;
    HolderEnabled(s, i);
    TotalUpdate(s.threads, i, Apply(s, a).threads[i], Posts);
    if Frozen(Apply(s, a)) {
      forall x | 0 <= x < |s.threads| ensures !Consuming(s.threads[x].pc) {
        assert !Consuming(Apply(s, a).threads[x].pc);
      }
    }
  }

  /** Steps until the command loop is back at its prompt. */
  function MainRank(s: State): nat {
    match s.main
    case Idle => 0
    case BriefHold => 1
    case PlusUnlock => 1
    case MinusUnlock => 1
    case BriefLock => 2
    case PlusInc => 2
    case MinusDec => 2
    case PlusLock => 3
    case MinusLock => 3
    case Join(i) => if i < |s.threads| && s.threads[i].pc != Dead then 4 else 3
    case MinusWait => 4
  }

  /** What brings the command loop on, nobody else holding anything: its own step, or the end of the thread it joins. */
  function MainAction(s: State): Action {
    match s.main
    case Join(i) => if i < |s.threads| && s.threads[i].pc != Dead then Die(i) else MainStep
    case _ => MainStep
  }

  lemma MainWorks(s: State)
    requires Inv(s) && s.main != Idle && (s.main == MinusWait ==> s.empty > 0)
    requires s.mutex == HeldByMain
             || (s.mutex == Free && forall i :: 0 <= i < |s.threads| ==> Token(s.threads[i]) == 0)
    ensures var a := MainAction(s);
            && Enabled(s, a) && Admitted(s, a) && MainRank(Apply(s, a)) < MainRank(s)
            && Total(Apply(s, a).threads, Posts) == Total(s.threads, Posts) && !Frozen(Apply(s, a))
  {
    hide Verifies, DataInv, Total;
    if s.main.Join? && s.threads[s.main.i].pc != Dead {
      TotalUpdate(s.threads, s.main.i, s.threads[s.main.i].(pc := Dead), Posts);
    }
  }

  /** Who can move: a thread that holds the mutex or a token, or nobody holds anything. */
  lemma SomethingHeld(s: State) returns (i: nat)
    requires Inv(s) && s.mutex != HeldByMain
    ensures i < |s.threads| ==>
              (s.mutex == Held(i) && InCritical(s.threads[i].pc))
              || (s.mutex == Free && Token(s.threads[i]) > 0 && !InCritical(s.threads[i].pc))
    ensures i >= |s.threads| ==>
              s.mutex == Free && s.full == Occupancy(s.q)
              && Occupancy(s.q) + s.empty == s.cap + Correction(s.main)
              && forall x :: 0 <= x < |s.threads| ==> Token(s.threads[x]) == 0
  {
    if s.mutex.Held? {
      i := s.mutex.i;
    } else if x: nat :| x < |s.threads| && Token(s.threads[x]) > 0 {
      i := x;
    } else {
      i := |s.threads|;
      TotalZero(s.threads, ItemToken);
      TotalZero(s.threads, RoomToken);
    }
  }

  lemma MainBusy(s: State)
    requires Inv(s) && s.mutex == HeldByMain
    ensures s.main != Idle && s.main != MinusWait
  {
  }

  lemma AtLeastOne(s: State)
    requires Inv(s)
    ensures s.cap >= 1
  {
  }

  lemma ConsumerLives(s: State) returns (j: nat)
    requires Inv(s) && s.main == MinusWait && s.empty == 0 && !Frozen(s) && Occupancy(s.q) == s.cap
    requires s.full == Occupancy(s.q) && forall i :: 0 <= i < |s.threads| ==> Token(s.threads[i]) == 0
    ensures j < |s.threads| && Consuming(s.threads[j].pc) && CancellationPoint(s.threads[j].pc) && !s.threads[j].doomed
    ensures s.full > 0
  {
    hide DataInv, Total;
    j :| j < |s.threads| && Consuming(s.threads[j].pc);
  }

  lemma {:induction false} GoesOn(s: State)
    requires Inv(s) && !Frozen(s)
    ensures CanGrow(s)
    decreases Total(s.threads, Posts), MainRank(s)
  {
    hide CanGrow, Frozen, Enabled, Apply, Admitted, Total, DataInv, TokensInv, MutexInv, JoinInv, MainAction, MainRank;
    if s.mutex == HeldByMain {
      MainBusy(s);
      MainWorks(s);
      StepKeepsInv(s, MainAction(s));
      GoesOn(Apply(s, MainAction(s)));
      StepCanGrow(s, MainAction(s));
    } else {
      var i := SomethingHeld(s);
      if i < |s.threads| {
        if InCopy(s.threads[i].pc) {
          CopyGoesOn(s, i);
        } else if Posts(s.threads[i]) > 0 {
          PostWorks(s, i);
          StepKeepsInv(s, Run(i, SomeMessage()));
          GoesOn(Apply(s, Run(i, SomeMessage())));
          StepCanGrow(s, Run(i, SomeMessage()));
        } else {
          LockGoesOn(s, i);
        }
      } else if s.main == Idle {
        AtLeastOne(s);
        IdleGoesOn(s);
      } else if s.main == MinusWait && s.empty == 0 {
        var j := ConsumerLives(s);
        WaitGoesOn(s, j);
      } else {
        MainWorks(s);
        StepKeepsInv(s, MainAction(s));
        GoesOn(Apply(s, MainAction(s)));
        StepCanGrow(s, MainAction(s));
      }
    }
  }

  /** Exactly when no continuation of a run produces or consumes another message: when a '-' hangs, no consumer
      lives, and the queue is full to its capacity. */
  lemma FrozenIff(run: seq<State>, acts: seq<Action>)
    requires IsRun(run, acts)
    ensures var s := run[|acts|];
            Frozen(s) <==> forall t :: Leads(s, t) ==> t.q.produced == s.q.produced && t.q.consumed == s.q.consumed
  {
    var s := run[|acts|];
    Reachable(run, acts, |acts|);
    hide Inv, Frozen, Enabled, Apply, Init, Admitted;
    if Frozen(s) {
      forall t | Leads(s, t) ensures t.q.produced == s.q.produced && t.q.consumed == s.q.consumed {
        var more: seq<State>, acts': seq<Action> :| Steps(more, acts') && more[0] == s && more[|acts'|] == t;
        FrozenForever(more, acts', |acts'|);
      }
    } else {
      GoesOn(s);
    }
  }
}
