/** The queue of threads with one mutex and two condition variables, and a capacity that commands change while
    producers and consumers run. Spurious wakeups and barging are allowed. */
module ConditionQueue {
  import opened Messages
  import opened Rings
  import opened Tally

  const FIXED_SIZE: nat := 1000
  const INITIAL_QUEUE_SIZE: nat := 10

  /** Where a producer (P) or consumer (C) is. Check: at the test of the wait loop, holding the mutex.
      Asleep: in pthread_cond_wait, not yet woken. Woken: woken, has to take the mutex again. */
  datatype PC =
    | PLock | PCheck | PAsleep | PWoken | PFill | PAdvance | PSignal | PUnlock | PIdle
    | CLock | CCheck | CAsleep | CWoken | CRead
    | CAdvance(msg: Message) | CSignal(msg: Message) | CUnlock(msg: Message) | CIdle(msg: Message)

  datatype MainPC = Idle | BriefLock | BriefHold | PlusLock | PlusTest | PlusSignal | PlusUnlock
                  | MinusLock | MinusTest | MinusUnlock

  datatype Holder = Free | Held(i: nat) | HeldByMain

  datatype State = State(q: Queue, cap: nat, mutex: Holder, threads: seq<PC>, main: MainPC)

  datatype Action =
    | Run(i: nat, m: Message, w: nat)  // thread i takes its next step; m is the message it fills in,
                                       // w the thread it wakes
    | Spurious(i: nat)                 // thread i wakes up without a signal
    | CreateProducer | CreateConsumer | Status | Plus | Minus
    | MainStep(w: nat)

  ghost predicate Init(s: State) {
    && |s.q.slots| == FIXED_SIZE && s.q == EmptyQueue(s.q.slots)
    && s == State(s.q, INITIAL_QUEUE_SIZE, Free, [], Idle)
  }

  /** The occupancy the wait loops test. */
  function Used(q: Queue): nat { UsedMod(FIXED_SIZE, q.head, q.tail) }

  /** pthread_cond_signal: one thread asleep on the condition is woken, if there is one. Waking more than one, which
      POSIX allows, is this step followed by spurious wakeups. */
  predicate SignalChoice(threads: seq<PC>, asleep: PC, w: nat) {
    (exists i :: 0 <= i < |threads| && threads[i] == asleep) ==> w < |threads| && threads[w] == asleep
  }

  function Signal(threads: seq<PC>, asleep: PC, woken: PC, w: nat): seq<PC> {
    if w < |threads| && threads[w] == asleep then threads[w := woken] else threads
  }

  predicate ThreadEnabled(s: State, i: nat, w: nat)
    requires i < |s.threads|
  {
    match s.threads[i]
    case PLock => s.mutex == Free
    case PWoken => s.mutex == Free
    case CLock => s.mutex == Free
    case CWoken => s.mutex == Free
    case PAsleep => false
    case CAsleep => false
    case PFill => s.q.tail < |s.q.slots|
    case PAdvance => s.q.tail < |s.q.slots|
    case CRead => s.q.head < |s.q.slots|
    case PSignal => SignalChoice(s.threads, CAsleep, w)
    case CSignal(_) => SignalChoice(s.threads, PAsleep, w)
    case _ => true
  }

  function MoveTo(s: State, i: nat, pc: PC): State
    requires i < |s.threads|
  {
    s.(threads := s.threads[i := pc])
  }

  function ThreadStep(s: State, i: nat, m: Message, w: nat): State
    requires i < |s.threads| && ThreadEnabled(s, i, w)
  {
    match s.threads[i]
    case PLock => MoveTo(s.(mutex := Held(i)), i, PCheck)
    case PWoken => MoveTo(s.(mutex := Held(i)), i, PCheck)
    case PCheck => if Used(s.q) >= s.cap then MoveTo(s.(mutex := Free), i, PAsleep) else MoveTo(s, i, PFill)
    case PFill => MoveTo(s.(q := Fill(s.q, m)), i, PAdvance)
    case PAdvance => MoveTo(s.(q := Advance(FIXED_SIZE, s.q)), i, PSignal)
    case PSignal => s.(threads := Signal(s.threads[i := PUnlock], CAsleep, CWoken, w))
    case PUnlock => MoveTo(s.(mutex := Free), i, PIdle)
    case PIdle => MoveTo(s, i, PLock)
    case CLock => MoveTo(s.(mutex := Held(i)), i, CCheck)
    case CWoken => MoveTo(s.(mutex := Held(i)), i, CCheck)
    case CCheck => if Used(s.q) == 0 then MoveTo(s.(mutex := Free), i, CAsleep) else MoveTo(s, i, CRead)
    case CRead => MoveTo(s, i, CAdvance(s.q.slots[s.q.head]))
    case CAdvance(msg) => MoveTo(s.(q := Take(FIXED_SIZE, s.q, msg)), i, CSignal(msg))
    case CSignal(msg) => s.(threads := Signal(s.threads[i := CUnlock(msg)], PAsleep, PWoken, w))
    case CUnlock(msg) => MoveTo(s.(mutex := Free), i, CIdle(msg))
    case CIdle(_) => MoveTo(s, i, CLock)
    case _ => s
  }

  predicate Enabled(s: State, a: Action) {
    match a
    case Run(i, m, w) => i < |s.threads| && ThreadEnabled(s, i, w) && (s.threads[i] == PFill ==> Verifies(m))
    case Spurious(i) => i < |s.threads| && (s.threads[i] == PAsleep || s.threads[i] == CAsleep)
    case MainStep(w) =>
      (match s.main
       case Idle => false
       case BriefLock => s.mutex == Free
       case PlusLock => s.mutex == Free
       case MinusLock => s.mutex == Free
       case PlusSignal => SignalChoice(s.threads, PAsleep, w)
       case _ => true)
    case _ => s.main == Idle
  }

  function Apply(s: State, a: Action): State
    requires Enabled(s, a)
  {
    match a
    case Run(i, m, w) => ThreadStep(s, i, m, w)
    case Spurious(i) => MoveTo(s, i, if s.threads[i] == PAsleep then PWoken else CWoken)
    case CreateProducer => s.(threads := s.threads + [PLock], main := BriefLock)
    case CreateConsumer => s.(threads := s.threads + [CLock], main := BriefLock)
    case Status => s.(main := BriefLock)
    case Plus => s.(main := PlusLock)
    case Minus => s.(main := MinusLock)
    case MainStep(w) =>
      (match s.main
       case Idle => s
       case BriefLock => s.(mutex := HeldByMain, main := BriefHold)
       case BriefHold => s.(mutex := Free, main := Idle)
       case PlusLock => s.(mutex := HeldByMain, main := PlusTest)
       case PlusTest => if s.cap < FIXED_SIZE then s.(cap := s.cap + 1, main := PlusSignal) else s.(main := PlusUnlock)
       case PlusSignal => s.(threads := Signal(s.threads, PAsleep, PWoken, w), main := PlusUnlock)
       case PlusUnlock => s.(mutex := Free, main := Idle)
       case MinusLock => s.(mutex := HeldByMain, main := MinusTest)
       case MinusTest => s.(cap := if s.cap > 1 then s.cap - 1 else s.cap, main := MinusUnlock)
       case MinusUnlock => s.(mutex := Free, main := Idle))
  }

  ghost predicate Steps(run: seq<State>, acts: seq<Action>) {
    && |run| == |acts| + 1
    && forall k :: 0 <= k < |acts| ==> Enabled(run[k], acts[k]) && run[k + 1] == Apply(run[k], acts[k])
  }

  ghost predicate IsRun(run: seq<State>, acts: seq<Action>) { Steps(run, acts) && Init(run[0]) }

  /** The capacity stays at or below `limit` up to step `k`. */
  predicate Within(run: seq<State>, k: nat, limit: int)
    requires k < |run|
  {
    forall j :: 0 <= j <= k ==> run[j].cap <= limit
  }

  // ----- the invariant

  predicate InCritical(pc: PC) {
    pc.PCheck? || pc.PFill? || pc.PAdvance? || pc.PSignal? || pc.PUnlock?
    || pc.CCheck? || pc.CRead? || pc.CAdvance? || pc.CSignal? || pc.CUnlock?
  }

  predicate MainInCritical(main: MainPC) {
    main.BriefHold? || main.PlusTest? || main.PlusSignal? || main.PlusUnlock? || main.MinusTest? || main.MinusUnlock?
  }

  function SleepingConsumer(pc: PC): nat { if pc.CAsleep? then 1 else 0 }

  function SleepingProducer(pc: PC): nat { if pc.PAsleep? then 1 else 0 }

  function WokenConsumer(pc: PC): nat { if pc.CWoken? then 1 else 0 }

  function WokenProducer(pc: PC): nat { if pc.PWoken? then 1 else 0 }

  /** Threads inside the critical section that account for a message no sleeping consumer has been woken for. */
  function ConsumerDebt(pc: PC): nat { if pc.CCheck? || pc.CRead? || pc.CAdvance? || pc.PSignal? then 1 else 0 }

  /** The same for a free slot and sleeping producers. */
  function ProducerDebt(pc: PC): nat { if pc.PCheck? || pc.PFill? || pc.PAdvance? || pc.CSignal? then 1 else 0 }

  function MainDebt(main: MainPC): nat { if main.PlusSignal? then 1 else 0 }

  ghost predicate ConsumersAwake(s: State) {
    Total(s.threads, SleepingConsumer) > 0 ==>
      Occupancy(s.q) <= Total(s.threads, WokenConsumer) + Total(s.threads, ConsumerDebt)
  }

  ghost predicate ProducersAwake(s: State) {
    Total(s.threads, SleepingProducer) > 0 ==>
      s.cap - Occupancy(s.q) <= Total(s.threads, WokenProducer) + Total(s.threads, ProducerDebt) + MainDebt(s.main)
  }

  ghost predicate WakeupInv(s: State) { ConsumersAwake(s) && ProducersAwake(s) }

  ghost predicate MutexInv(s: State) {
    && (forall i :: 0 <= i < |s.threads| ==> (InCritical(s.threads[i]) <==> s.mutex == Held(i)))
    && (s.mutex.Held? ==> s.mutex.i < |s.threads|)
    && (MainInCritical(s.main) <==> s.mutex == HeldByMain)
  }

  ghost predicate DataInv(s: State) {
    && QueueInv(FIXED_SIZE, s.q) && Occupancy(s.q) < FIXED_SIZE && 1 <= s.cap
    && (forall m :: m in s.q.produced ==> Verifies(m))
    && (forall i :: 0 <= i < |s.threads| ==> PcData(s, s.threads[i]))
  }

  /** What a thread past its wait loop knows, the mutex being held since the test. */
  ghost predicate PcData(s: State, pc: PC) {
    && (pc.PFill? || pc.PAdvance? ==> Occupancy(s.q) < s.cap)
    && (pc.PAdvance? ==> s.q.tail < |s.q.slots| && Verifies(s.q.slots[s.q.tail]))
    && (pc.CRead? || pc.CAdvance? ==> Occupancy(s.q) > 0)
    && (pc.CAdvance? ==> s.q.head < |s.q.slots| && pc.msg == s.q.slots[s.q.head])
  }

  ghost predicate Inv(s: State) { DataInv(s) && MutexInv(s) && WakeupInv(s) }

  lemma InitInv(s: State)
    requires Init(s)
    ensures Inv(s)
  {
  }

  /** The test of the wait loops is exact as long as the ring is not completely full. */
  lemma UsedIsOccupancy(q: Queue)
    requires QueueInv(FIXED_SIZE, q)
    ensures q.head < FIXED_SIZE && q.tail < FIXED_SIZE
    ensures Used(q) == if Occupancy(q) == FIXED_SIZE then 0 else Occupancy(q)
  {
    StatusValue(FIXED_SIZE, q);
  }

  lemma ThreadKeepsData(s: State, i: nat, m: Message, w: nat)
    requires Inv(s) && i < |s.threads| && ThreadEnabled(s, i, w) && (s.threads[i] == PFill ==> Verifies(m))
    requires s.cap < FIXED_SIZE || !s.threads[i].PAdvance?
    ensures DataInv(ThreadStep(s, i, m, w))
  {
    ThreadKeepsQueue(s, i, m, w);
    UsedIsOccupancy(s.q);
    hide QueueInv, Total, Verifies, WakeupInv, Used, PcData;
    var s' := ThreadStep(s, i, m, w);
    forall j | 0 <= j < |s'.threads| ensures PcData(s', s'.threads[j]) {
      assert PcData(s, s.threads[j]) && PcData(s, s.threads[i]);
      ThreadKeepsPcData(s, i, m, w, j);
    }
  }

  lemma ThreadKeepsQueue(s: State, i: nat, m: Message, w: nat)
    requires DataInv(s) && i < |s.threads| && ThreadEnabled(s, i, w) && (s.cap < FIXED_SIZE || !s.threads[i].PAdvance?)
    ensures QueueInv(FIXED_SIZE, ThreadStep(s, i, m, w).q) && Occupancy(ThreadStep(s, i, m, w).q) < FIXED_SIZE
    ensures s.threads[i].PFill? ==> Fill(s.q, m).slots[s.q.tail] == m
  {
    assert PcData(s, s.threads[i]);
    hide QueueInv;
    match s.threads[i]
    case PFill => FillKeeps(FIXED_SIZE, s.q, m);
    case PAdvance => AdvanceKeeps(FIXED_SIZE, s.q);
    case CAdvance(_) => TakeKeeps(FIXED_SIZE, s.q);
    case _ =>
  }

  lemma ThreadKeepsPcData(s: State, i: nat, m: Message, w: nat, j: nat)
    requires Inv(s) && i < |s.threads| && ThreadEnabled(s, i, w) && (s.threads[i] == PFill ==> Verifies(m))
    requires j < |s.threads|
    requires PcData(s, s.threads[i]) && PcData(s, s.threads[j])
    ensures PcData(ThreadStep(s, i, m, w), ThreadStep(s, i, m, w).threads[j])
  {
    UsedIsOccupancy(s.q);
    hide QueueInv, Total, Verifies, WakeupInv, Used;
  }

  /** A thread takes the mutex when it enters its critical section and frees it when it leaves. */
  lemma MoveKeepsMutex(s: State, s': State, i: nat, t: PC)
    requires i < |s.threads| && MutexInv(s) && s'.threads == s.threads[i := t] && s'.main == s.main
    requires if InCritical(t) == InCritical(s.threads[i]) then s'.mutex == s.mutex
             else if InCritical(t) then s.mutex == Free && s'.mutex == Held(i) else s'.mutex == Free
    ensures MutexInv(s')
  {
    hide InCritical, MainInCritical;
  }

  lemma ThreadKeepsMutex(s: State, i: nat, m: Message, w: nat)
    requires MutexInv(s) && i < |s.threads| && ThreadEnabled(s, i, w)
    requires !s.threads[i].PSignal? && !s.threads[i].CSignal?
    ensures MutexInv(ThreadStep(s, i, m, w))
  {
    hide MutexInv, MainInCritical, Fill, Advance, Take, Used, SignalChoice, Signal;
    MoveKeepsMutex(s, ThreadStep(s, i, m, w), i, ThreadStep(s, i, m, w).threads[i]);
  }

  lemma SignallerKeepsMutex(s: State, i: nat, m: Message, w: nat)
    requires MutexInv(s) && i < |s.threads| && ThreadEnabled(s, i, w)
    requires s.threads[i].PSignal? || s.threads[i].CSignal?
    ensures MutexInv(ThreadStep(s, i, m, w))
  {
    hide SignalChoice, MainInCritical;
  }

  /** How the totals of the invariant change when one thread moves. */
  lemma TotalsAfterMove(threads: seq<PC>, i: nat, pc: PC)
    requires i < |threads|
    ensures var t := threads[i := pc];
            && Total(t, SleepingConsumer) + SleepingConsumer(threads[i])
                == Total(threads, SleepingConsumer) + SleepingConsumer(pc)
            && Total(t, SleepingProducer) + SleepingProducer(threads[i])
                == Total(threads, SleepingProducer) + SleepingProducer(pc)
            && Total(t, WokenConsumer) + WokenConsumer(threads[i]) == Total(threads, WokenConsumer) + WokenConsumer(pc)
            && Total(t, WokenProducer) + WokenProducer(threads[i]) == Total(threads, WokenProducer) + WokenProducer(pc)
            && Total(t, ConsumerDebt) + ConsumerDebt(threads[i]) == Total(threads, ConsumerDebt) + ConsumerDebt(pc)
            && Total(t, ProducerDebt) + ProducerDebt(threads[i]) == Total(threads, ProducerDebt) + ProducerDebt(pc)
  {
    TotalUpdate(threads, i, pc, SleepingConsumer);
    TotalUpdate(threads, i, pc, SleepingProducer);
    TotalUpdate(threads, i, pc, WokenConsumer);
    TotalUpdate(threads, i, pc, WokenProducer);
    TotalUpdate(threads, i, pc, ConsumerDebt);
    TotalUpdate(threads, i, pc, ProducerDebt);
  }

  /** After a signal either nobody sleeps on the condition or one more thread is awake. */
  lemma SignalTotals(threads: seq<PC>, asleep: PC, woken: PC, w: nat)
    requires (asleep == CAsleep && woken == CWoken) || (asleep == PAsleep && woken == PWoken)
    requires SignalChoice(threads, asleep, w)
    ensures var t := Signal(threads, asleep, woken, w);
            && Total(t, ConsumerDebt) == Total(threads, ConsumerDebt)
            && Total(t, ProducerDebt) == Total(threads, ProducerDebt)
            && Total(t, SleepingConsumer) <= Total(threads, SleepingConsumer)
            && Total(t, SleepingProducer) <= Total(threads, SleepingProducer)
            && (asleep == CAsleep ==>
                  (Total(t, SleepingConsumer) == 0 || Total(t, WokenConsumer) == Total(threads, WokenConsumer) + 1)
                  && Total(t, SleepingProducer) == Total(threads, SleepingProducer)
                  && Total(t, WokenProducer) == Total(threads, WokenProducer))
            && (asleep == PAsleep ==>
                  (Total(t, SleepingProducer) == 0 || Total(t, WokenProducer) == Total(threads, WokenProducer) + 1)
                  && Total(t, SleepingConsumer) == Total(threads, SleepingConsumer)
                  && Total(t, WokenConsumer) == Total(threads, WokenConsumer))
  {
    if w < |threads| && threads[w] == asleep {
      TotalsAfterMove(threads, w, woken);
    } else {
      hide Total;
      if asleep == CAsleep { TotalZero(threads, SleepingConsumer); } else { TotalZero(threads, SleepingProducer); }
    }
  }

  lemma SignallerKeepsWakeup(s: State, i: nat, m: Message, w: nat)
    requires Inv(s) && i < |s.threads| && ThreadEnabled(s, i, w) && (s.threads[i].PSignal? || s.threads[i].CSignal?)
    ensures WakeupInv(ThreadStep(s, i, m, w))
  {
    hide Total, PcData, MutexInv, DataInv, SignalChoice, Signal;
    match s.threads[i]
    case PSignal =>
      TotalsAfterMove(s.threads, i, PUnlock);
      SignalMoved(s.threads, i, PUnlock, CAsleep, w);
      SignalTotals(s.threads[i := PUnlock], CAsleep, CWoken, w);
    case CSignal(msg) =>
      TotalsAfterMove(s.threads, i, CUnlock(msg));
      SignalMoved(s.threads, i, CUnlock(msg), PAsleep, w);
      SignalTotals(s.threads[i := CUnlock(msg)], PAsleep, PWoken, w);
  }

  lemma SignalMoved(threads: seq<PC>, i: nat, pc: PC, asleep: PC, w: nat)
    requires i < |threads| && SignalChoice(threads, asleep, w) && threads[i] != asleep && pc != asleep
    ensures SignalChoice(threads[i := pc], asleep, w)
  {
    var t := threads[i := pc];
    if exists j :: 0 <= j < |t| && t[j] == asleep {
      var j :| 0 <= j < |t| && t[j] == asleep;
      assert threads[j] == asleep;
    }
  }

  /** A move that adds no more unclaimed messages than awake consumers keeps the first half of the invariant; a
      consumer falls asleep only on an empty queue. */
  lemma MoveKeepsConsumersAwake(s: State, s': State, i: nat, pc: PC)
    requires i < |s.threads| && ConsumersAwake(s) && s'.threads == s.threads[i := pc]
    requires if pc.CAsleep? then Occupancy(s'.q) <= 0 else
               Occupancy(s'.q) + WokenConsumer(s.threads[i]) + ConsumerDebt(s.threads[i]) <=
               Occupancy(s.q) + WokenConsumer(pc) + ConsumerDebt(pc)
    ensures ConsumersAwake(s')
  {
    TotalUpdate(s.threads, i, pc, SleepingConsumer);
    TotalUpdate(s.threads, i, pc, WokenConsumer);
    TotalUpdate(s.threads, i, pc, ConsumerDebt);
    hide Total;
  }

  lemma MoveKeepsProducersAwake(s: State, s': State, i: nat, pc: PC)
    requires i < |s.threads| && ProducersAwake(s) && s'.threads == s.threads[i := pc] && s'.cap == s.cap
    requires s'.main == s.main
    requires if pc.PAsleep? then s.cap <= Occupancy(s'.q) else
               Occupancy(s.q) + WokenProducer(s.threads[i]) + ProducerDebt(s.threads[i]) <=
               Occupancy(s'.q) + WokenProducer(pc) + ProducerDebt(pc)
    ensures ProducersAwake(s')
  {
    TotalUpdate(s.threads, i, pc, SleepingProducer);
    TotalUpdate(s.threads, i, pc, WokenProducer);
    TotalUpdate(s.threads, i, pc, ProducerDebt);
    hide Total;
  }

  lemma ThreadKeepsWakeup(s: State, i: nat, m: Message, w: nat)
    requires Inv(s) && i < |s.threads| && ThreadEnabled(s, i, w) && !s.threads[i].PSignal? && !s.threads[i].CSignal?
    ensures WakeupInv(ThreadStep(s, i, m, w))
  {
    var s' := ThreadStep(s, i, m, w);
    var pc := s'.threads[i];
    UsedIsOccupancy(s.q);
    hide QueueInv, PcData, MutexInv, Used, ConsumersAwake, ProducersAwake, Verifies, SignalChoice, Signal;
    MoveKeepsConsumersAwake(s, s', i, pc);
    MoveKeepsProducersAwake(s, s', i, pc);
  }

  lemma SpuriousKeepsInv(s: State, i: nat)
    requires Inv(s) && Enabled(s, Spurious(i))
    ensures Inv(Apply(s, Spurious(i)))
  {
    hide QueueInv, Total, Verifies;
    var s' := Apply(s, Spurious(i));
    TotalsAfterMove(s.threads, i, s'.threads[i]);
    forall j | 0 <= j < |s'.threads| ensures PcData(s', s'.threads[j]) { assert PcData(s, s.threads[j]); }
  }

  lemma MainKeepsWakeup(s: State, a: Action)
    requires Inv(s) && Enabled(s, a) && !a.Run? && !a.Spurious?
    ensures WakeupInv(Apply(s, a))
  {
    hide QueueInv, Total, Verifies, MutexInv, SignalChoice, Signal, PcData;
    match a
    case CreateProducer => AppendTotals(s.threads, PLock);
    case CreateConsumer => AppendTotals(s.threads, CLock);
    case MainStep(w) => if s.main.PlusSignal? { SignalTotals(s.threads, PAsleep, PWoken, w); }
    case _ =>
  }

  lemma AppendTotals(threads: seq<PC>, pc: PC)
    requires pc == PLock || pc == CLock
    ensures var t := threads + [pc];
            && Total(t, SleepingConsumer) == Total(threads, SleepingConsumer)
            && Total(t, SleepingProducer) == Total(threads, SleepingProducer)
            && Total(t, WokenConsumer) == Total(threads, WokenConsumer)
            && Total(t, WokenProducer) == Total(threads, WokenProducer)
            && Total(t, ConsumerDebt) == Total(threads, ConsumerDebt)
            && Total(t, ProducerDebt) == Total(threads, ProducerDebt)
  {
    TotalAppend(threads, pc, SleepingConsumer);
    TotalAppend(threads, pc, SleepingProducer);
    TotalAppend(threads, pc, WokenConsumer);
    TotalAppend(threads, pc, WokenProducer);
    TotalAppend(threads, pc, ConsumerDebt);
    TotalAppend(threads, pc, ProducerDebt);
  }

  lemma MainKeepsRest(s: State, a: Action)
    requires Inv(s) && Enabled(s, a) && !a.Run? && !a.Spurious?
    ensures DataInv(Apply(s, a)) && MutexInv(Apply(s, a))
  {
    hide QueueInv, Total, Verifies, WakeupInv, SignalChoice;
    var s' := Apply(s, a);
    forall j | 0 <= j < |s'.threads| ensures PcData(s', s'.threads[j]) {
      if j < |s.threads| { assert PcData(s, s.threads[j]); }
    }
  }

  lemma StepKeepsInv(s: State, a: Action)
    requires Inv(s) && Enabled(s, a)
    requires s.cap < FIXED_SIZE || !(a.Run? && s.threads[a.i].PAdvance?)
    ensures Inv(Apply(s, a))
  {
    hide DataInv, MutexInv, ConsumersAwake, ProducersAwake, ThreadStep, ThreadEnabled;
    match a
    case Run(i, m, w) =>
      ThreadKeepsData(s, i, m, w);
      if s.threads[i].PSignal? || s.threads[i].CSignal? {
        SignallerKeepsWakeup(s, i, m, w);
        SignallerKeepsMutex(s, i, m, w);
      } else {
        ThreadKeepsWakeup(s, i, m, w);
        ThreadKeepsMutex(s, i, m, w);
      }
    case Spurious(i) => SpuriousKeepsInv(s, i);
    case _ => MainKeepsWakeup(s, a); MainKeepsRest(s, a);
  }

  /** Every state of every run has the invariant, as long as the capacity has stayed below FIXED_SIZE. */
  lemma {:induction false} Reachable(run: seq<State>, acts: seq<Action>, k: nat)
    requires IsRun(run, acts) && k < |run| && (k > 0 ==> Within(run, k - 1, FIXED_SIZE - 1))
    ensures Inv(run[k])
  {
    hide Inv, Apply, Enabled, Init;
    if k == 0 { InitInv(run[0]); } else { Reachable(run, acts, k - 1); StepKeepsInv(run[k - 1], acts[k - 1]); }
  }

  // ----- main results

  /** No lost wakeup: whenever the mutex is free, if a consumer sleeps then there are at most as many messages as
      consumers already woken, and if a producer sleeps then at most as many free slots as producers already woken. */
  lemma NoLostWakeup(run: seq<State>, acts: seq<Action>, k: nat)
    requires IsRun(run, acts) && k < |run| && Within(run, k, FIXED_SIZE - 1) && run[k].mutex == Free
    ensures var s := run[k];
            && (CAsleep in s.threads ==> Occupancy(s.q) <= Total(s.threads, WokenConsumer))
            && (PAsleep in s.threads ==> s.cap - Occupancy(s.q) <= Total(s.threads, WokenProducer))
  {
    Reachable(run, acts, k);
    var s := run[k];
    TotalZero(s.threads, ConsumerDebt);
    TotalZero(s.threads, ProducerDebt);
    if CAsleep in s.threads {
      var i :| 0 <= i < |s.threads| && s.threads[i] == CAsleep;
      TotalAtLeast(s.threads, i, SleepingConsumer);
    }
    if PAsleep in s.threads {
      var i :| 0 <= i < |s.threads| && s.threads[i] == PAsleep;
      TotalAtLeast(s.threads, i, SleepingProducer);
    }
  }

  predicate Producing(pc: PC) {
    pc.PLock? || pc.PCheck? || pc.PAsleep? || pc.PWoken? || pc.PFill? || pc.PAdvance?
    || pc.PSignal? || pc.PUnlock? || pc.PIdle?
  }

  /** No deadlock: with a producer and a consumer there is always a thread that can move without a spurious
      wakeup, or the command loop is inside its own critical section. */
  lemma NoDeadlock(run: seq<State>, acts: seq<Action>, k: nat, i: nat, j: nat)
    requires IsRun(run, acts) && k < |run| && Within(run, k, FIXED_SIZE - 1)
    requires i < |run[k].threads| && j < |run[k].threads|
    requires Producing(run[k].threads[i]) && !Producing(run[k].threads[j])
    ensures exists a: Action :: (a.Run? || (a.MainStep? && MainInCritical(run[k].main))) && Enabled(run[k], a)
  {
    Reachable(run, acts, k);
    var s := run[k];
    var m := SomeMessage();
    if s.mutex == HeldByMain {
      var w := Sleeper(s.threads, PAsleep);
      assert Enabled(s, MainStep(w));
    } else if s.mutex.Held? {
      var w := Sleeper(s.threads, if Producing(s.threads[s.mutex.i]) then CAsleep else PAsleep);
      UsedIsOccupancy(s.q);
      assert Enabled(s, Run(s.mutex.i, m, w));
    } else if x :| 0 <= x < |s.threads| && s.threads[x] != PAsleep && s.threads[x] != CAsleep {
      assert Enabled(s, Run(x, m, 0));
    } else {
      SomeoneAwake(run, acts, k, i, j);
    }
  }

  lemma Sleeper(threads: seq<PC>, asleep: PC) returns (w: nat)
    ensures SignalChoice(threads, asleep, w)
  {
    if x: nat :| x < |threads| && threads[x] == asleep { w := x; } else { w := 0; }
  }

  lemma SomeoneAwake(run: seq<State>, acts: seq<Action>, k: nat, i: nat, j: nat)
    requires IsRun(run, acts) && k < |run| && Within(run, k, FIXED_SIZE - 1) && run[k].mutex == Free
    requires i < |run[k].threads| && j < |run[k].threads|
    requires Producing(run[k].threads[i]) && !Producing(run[k].threads[j])
    ensures exists x :: 0 <= x < |run[k].threads| && run[k].threads[x] != PAsleep && run[k].threads[x] != CAsleep
  {
    var s := run[k];
    if s.threads[i] == PAsleep && s.threads[j] == CAsleep {
      NoLostWakeup(run, acts, k);
      Reachable(run, acts, k);
      assert PAsleep in s.threads && CAsleep in s.threads;
      if Total(s.threads, WokenConsumer) > 0 {
        var x := TotalPositive(s.threads, WokenConsumer);
      } else {
        var x := TotalPositive(s.threads, WokenProducer);
      }
    }
  }

  /** First in, first out, and the occupancy the wait loops compute is the true one, in every run whose capacity
      stays below FIXED_SIZE. */
  lemma FirstInFirstOut(run: seq<State>, acts: seq<Action>, k: nat)
    requires IsRun(run, acts) && k < |run| && Within(run, k, FIXED_SIZE - 1)
    ensures var q := run[k].q;
            && q.consumed <= q.produced && Used(q) == |q.produced| - |q.consumed| < FIXED_SIZE
            && q.tail == |q.produced| % FIXED_SIZE && q.head == |q.consumed| % FIXED_SIZE
            && (forall m :: m in q.consumed ==> Verifies(m))
  {
    Reachable(run, acts, k);
    UsedIsOccupancy(run[k].q);
    var q := run[k].q;
    forall m | m in q.consumed ensures Verifies(m) { assert m in q.produced; }
  }

  /** No producer overwrites an unread slot; the message a consumer copies is the oldest unread one, and it verifies. */
  lemma SlotsAreSafe(run: seq<State>, acts: seq<Action>, k: nat, i: nat)
    requires IsRun(run, acts) && k < |run| && i < |run[k].threads| && Within(run, k, FIXED_SIZE - 1)
    ensures var s, pc := run[k], run[k].threads[i];
            && (pc.PFill? || pc.PAdvance? ==>
                  forall j :: |s.q.consumed| <= j < |s.q.produced| ==> j % FIXED_SIZE != s.q.tail)
            && (pc.CRead? || pc.CAdvance? ==>
                  (|s.q.consumed| < |s.q.produced| && s.q.head < |s.q.slots|
                   && s.q.slots[s.q.head] == s.q.produced[|s.q.consumed|] && Verifies(s.q.slots[s.q.head])))
            && (pc.CAdvance? ==> pc.msg == s.q.produced[|s.q.consumed|])
  {
    Reachable(run, acts, k);
    var s, pc := run[k], run[k].threads[i];
    assert PcData(s, pc);
    if pc.PFill? || pc.PAdvance? { TailSlotIsFree(FIXED_SIZE, s.q); }
    if pc.CRead? || pc.CAdvance? {
      HeadIsOldest(FIXED_SIZE, s.q);
      assert s.q.produced[|s.q.consumed|] in s.q.produced;
    }
  }

  lemma StepKeepsMutex(s: State, a: Action)
    requires MutexInv(s) && Enabled(s, a)
    ensures MutexInv(Apply(s, a))
  {
    hide Fill, Advance, Take, Used, SignalChoice, Verifies, MutexInv;
    match a
    case Run(i, m, w) =>
      if s.threads[i].PSignal? || s.threads[i].CSignal? {
        SignallerKeepsMutex(s, i, m, w);
      } else {
        ThreadKeepsMutex(s, i, m, w);
      }
    case _ => MainKeepsMutex(s, a);
  }

  lemma MainKeepsMutex(s: State, a: Action)
    requires MutexInv(s) && Enabled(s, a) && !a.Run?
    ensures MutexInv(Apply(s, a))
  {
    hide SignalChoice, Verifies;
  }

  lemma {:induction false} MutexReachable(run: seq<State>, acts: seq<Action>, k: nat)
    requires IsRun(run, acts) && k < |run|
    ensures MutexInv(run[k])
  {
    if k > 0 {
      hide MutexInv, Apply, Enabled, Init;
      MutexReachable(run, acts, k - 1);
      StepKeepsMutex(run[k - 1], acts[k - 1]);
    }
  }

  /** At any capacity at most one thread, or the command loop, is between lock and unlock. */
  lemma MutualExclusion(run: seq<State>, acts: seq<Action>, k: nat, i: nat, j: nat)
    requires IsRun(run, acts) && k < |run| && i < |run[k].threads| && j < |run[k].threads|
    requires InCritical(run[k].threads[i])
    ensures InCritical(run[k].threads[j]) ==> i == j
    ensures !MainInCritical(run[k].main)
  {
    MutexReachable(run, acts, k);
  }

  /** A producer never lifts the occupancy above the capacity; an over-full queue, left by '-', only shrinks. */
  lemma OnlyFillsToCapacity(run: seq<State>, acts: seq<Action>, k: nat)
    requires IsRun(run, acts) && k < |acts| && Within(run, k, FIXED_SIZE - 1)
    ensures Occupancy(run[k + 1].q) > Occupancy(run[k].q) ==> Occupancy(run[k + 1].q) <= run[k + 1].cap
    ensures Occupancy(run[k].q) >= run[k].cap ==> Occupancy(run[k + 1].q) <= Occupancy(run[k].q)
  {
    Reachable(run, acts, k);
    var s, a := run[k], acts[k];
    assert a.Run? ==> PcData(s, s.threads[a.i]);
    hide QueueInv, Total, WakeupInv, MutexInv;
  }

  /** Over any stretch of a run in which the queue stays at or above its capacity the occupancy never grows. */
  lemma {:induction false} OverfullShrinks(run: seq<State>, acts: seq<Action>, i: nat, j: nat)
    requires IsRun(run, acts) && i <= j < |run| && Within(run, j, FIXED_SIZE - 1)
    requires forall k :: i <= k < j ==> Occupancy(run[k].q) >= run[k].cap
    ensures Occupancy(run[j].q) <= Occupancy(run[i].q)
    decreases j
  {
    if i < j {
      OverfullShrinks(run, acts, i, j - 1);
      OnlyFillsToCapacity(run, acts, j - 1);
    }
  }

  /** Every step is a step of the abstract queue bounded by the current capacity. */
  lemma RefinesFifo(run: seq<State>, acts: seq<Action>, k: nat)
    requires IsRun(run, acts) && k < |acts| && Within(run, k, FIXED_SIZE - 1)
    ensures |run[k].q.consumed| <= |run[k].q.produced| && |run[k + 1].q.consumed| <= |run[k + 1].q.produced|
    ensures FifoStep(run[k].cap, Abstract(run[k].q), Abstract(run[k + 1].q))
  {
    hide Inv, Apply, Enabled;
    Reachable(run, acts, k);
    StepRefines(run[k], acts[k]);
  }

  /** The history grows by the slot at `tail` when a producer advances, shrinks from the front when a consumer does,
      and does not change otherwise. */
  lemma HistoryChange(s: State, a: Action)
    requires Enabled(s, a)
    ensures var q' := Apply(s, a).q;
            if a.Run? && s.threads[a.i].PAdvance? then q' == Advance(FIXED_SIZE, s.q)
            else if a.Run? && s.threads[a.i].CAdvance? then q' == Take(FIXED_SIZE, s.q, s.threads[a.i].msg)
            else q'.produced == s.q.produced && q'.consumed == s.q.consumed
  {
    hide Advance, Take, Verifies;
  }

  lemma StepRefines(s: State, a: Action)
    requires Inv(s) && s.cap < FIXED_SIZE && Enabled(s, a)
    ensures |s.q.consumed| <= |s.q.produced| && |Apply(s, a).q.consumed| <= |Apply(s, a).q.produced|
    ensures FifoStep(s.cap, Abstract(s.q), Abstract(Apply(s, a).q))
  {
    StepKeepsInv(s, a);
    HistoryChange(s, a);
    assert QueueInv(FIXED_SIZE, s.q) && QueueInv(FIXED_SIZE, Apply(s, a).q);
    if a.Run? && s.threads[a.i].PAdvance? {
      assert PcData(s, s.threads[a.i]);
      hide Inv, Apply, Enabled, QueueInv, Enqueues, Dequeues;
      AdvanceEnqueues(FIXED_SIZE, s.q);
    } else if a.Run? && s.threads[a.i].CAdvance? {
      assert PcData(s, s.threads[a.i]);
      hide Inv, Apply, Enabled, QueueInv, Enqueues, Dequeues;
      TakeDequeues(FIXED_SIZE, s.q);
    }
  }
}
