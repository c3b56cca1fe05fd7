/** The queue of threads with two counting semaphores, a mutex, and a capacity that commands change while
    producers and consumers run. Any number of threads, any interleaving. */
module SemaphoreQueue {
  import opened Messages
  import opened Rings
  import opened Tally

  const FIXED_SIZE: nat := 1000
  const QUEUE_SIZE: nat := 10

  /** Where a producer (P) or consumer (C) is. A consumer past its read carries the copied message. */
  datatype PC =
    | PWait | PLock | PFill | PAdvance | PUnlock | PPost | PIdle
    | CWait | CLock | CRead | CAdvance(msg: Message) | CUnlock(msg: Message) | CPost(msg: Message) | CIdle(msg: Message)
    | Dead

  /** A thread, and whether pthread_cancel has been called on it. */
  datatype Thread = Thread(pc: PC, doomed: bool)

  /** Where the command loop is. Brief: a command that takes the mutex only to count threads or to read the
      status. Join(i): waiting for thread i to end. */
  datatype MainPC = Idle | BriefLock | BriefHold | Join(i: nat)
                  | PlusLock | PlusInc | PlusUnlock | MinusWait | MinusLock | MinusDec | MinusUnlock

  datatype Holder = Free | Held(i: nat) | HeldByMain

  datatype State = State(q: Queue, cap: nat, empty: nat, full: nat, mutex: Holder, threads: seq<Thread>, main: MainPC)

  datatype Action =
    | Run(i: nat, m: Message)   // thread i takes its next step; m is the message if it fills a slot
    | Die(i: nat)               // thread i acts on its cancellation
    | CreateProducer | CreateConsumer | Cancel(i: nat) | Status
    | Plus | Minus | MainStep

  ghost predicate Init(s: State) {
    && |s.q.slots| == FIXED_SIZE && s.q == EmptyQueue(s.q.slots)
    && s == State(s.q, QUEUE_SIZE, QUEUE_SIZE, 0, Free, [], Idle)
  }

  /** sem_wait, printf and sleep: the calls of the two loops at which a deferred cancellation acts
      (POSIX.1-2017, section 2.9.5 of the System Interfaces volume). */
  predicate CancellationPoint(pc: PC) { pc == PWait || pc == PIdle || pc == CWait || pc.CIdle? }

  predicate ThreadEnabled(s: State, i: nat)
    requires i < |s.threads|
  {
    match s.threads[i].pc
    case PWait => s.empty > 0
    case CWait => s.full > 0
    case PLock => s.mutex == Free
    case CLock => s.mutex == Free
    case PFill => s.q.tail < |s.q.slots|
    case PAdvance => s.q.tail < |s.q.slots|
    case CRead => s.q.head < |s.q.slots|
    case Dead => false
    case _ => true
  }

  function MoveTo(s: State, i: nat, pc: PC): State
    requires i < |s.threads|
  {
    s.(threads := s.threads[i := s.threads[i].(pc := pc)])
  }

  function ThreadStep(s: State, i: nat, m: Message): State
    requires i < |s.threads| && ThreadEnabled(s, i)
  {
    match s.threads[i].pc
    case PWait => MoveTo(s.(empty := s.empty - 1), i, PLock)
    case PLock => MoveTo(s.(mutex := Held(i)), i, PFill)
    case PFill => MoveTo(s.(q := Fill(s.q, m)), i, PAdvance)
    case PAdvance => MoveTo(s.(q := Advance(FIXED_SIZE, s.q)), i, PUnlock)
    case PUnlock => MoveTo(s.(mutex := Free), i, PPost)
    case PPost => MoveTo(s.(full := s.full + 1), i, PIdle)
    case PIdle => MoveTo(s, i, PWait)
    case CWait => MoveTo(s.(full := s.full - 1), i, CLock)
    case CLock => MoveTo(s.(mutex := Held(i)), i, CRead)
    case CRead => MoveTo(s, i, CAdvance(s.q.slots[s.q.head]))
    case CAdvance(msg) => MoveTo(s.(q := Take(FIXED_SIZE, s.q, msg)), i, CUnlock(msg))
    case CUnlock(msg) => MoveTo(s.(mutex := Free), i, CPost(msg))
    case CPost(msg) => MoveTo(s.(empty := s.empty + 1), i, CIdle(msg))
    case CIdle(_) => MoveTo(s, i, CWait)
    case Dead => s
  }

  predicate Enabled(s: State, a: Action) {
    match a
    case Run(i, m) => i < |s.threads| && ThreadEnabled(s, i) && (s.threads[i].pc == PFill ==> Verifies(m))
    case Die(i) => i < |s.threads| && s.threads[i].doomed && CancellationPoint(s.threads[i].pc)
    case Cancel(i) => s.main == Idle && i < |s.threads|
    case MainStep =>
      (match s.main
       case Idle => false
       case Join(i) => i < |s.threads| && s.threads[i].pc == Dead
       case BriefLock => s.mutex == Free
       case PlusLock => s.mutex == Free
       case MinusLock => s.mutex == Free
       case MinusWait => s.empty > 0
       case MinusDec => s.cap > 0
       case _ => true)
    case _ => s.main == Idle
  }

  function Apply(s: State, a: Action): State
    requires Enabled(s, a)
  {
    match a
    case Run(i, m) => ThreadStep(s, i, m)
    case Die(i) => MoveTo(s, i, Dead)
    case CreateProducer => s.(threads := s.threads + [Thread(PWait, false)], main := BriefLock)
    case CreateConsumer => s.(threads := s.threads + [Thread(CWait, false)], main := BriefLock)
    case Cancel(i) => s.(threads := s.threads[i := s.threads[i].(doomed := true)], main := Join(i))
    case Status => s.(main := BriefLock)
    case Plus => if s.cap < FIXED_SIZE then s.(empty := s.empty + 1, main := PlusLock) else s
    case Minus => if s.cap > 1 then s.(main := MinusWait) else s
    case MainStep =>
      (match s.main
       case Idle => s
       case BriefLock => s.(mutex := HeldByMain, main := BriefHold)
       case BriefHold => s.(mutex := Free, main := Idle)
       case Join(_) => s.(main := BriefLock)
       case PlusLock => s.(mutex := HeldByMain, main := PlusInc)
       case PlusInc => s.(cap := s.cap + 1, main := PlusUnlock)
       case PlusUnlock => s.(mutex := Free, main := Idle)
       case MinusWait => s.(empty := s.empty - 1, main := MinusLock)
       case MinusLock => s.(mutex := HeldByMain, main := MinusDec)
       case MinusDec => s.(cap := s.cap - 1, main := MinusUnlock)
       case MinusUnlock => s.(mutex := Free, main := Idle))
  }

  ghost predicate Steps(run: seq<State>, acts: seq<Action>) {
    && |run| == |acts| + 1
    && forall k :: 0 <= k < |acts| ==> Enabled(run[k], acts[k]) && run[k + 1] == Apply(run[k], acts[k])
  }

  ghost predicate IsRun(run: seq<State>, acts: seq<Action>) { Steps(run, acts) && Init(run[0]) }

  // ----- tokens

  /** A thread between its sem_wait and its sem_post holds one token. */
  function Token(t: Thread): nat {
    if t.pc.PWait? || t.pc.PIdle? || t.pc.CWait? || t.pc.CIdle? || t.pc.Dead? then 0 else 1
  }

  /** The token stands for a message in the ring: produced but not posted, or waited for but not consumed. */
  function ItemToken(t: Thread): nat {
    if t.pc.PUnlock? || t.pc.PPost? || t.pc.CLock? || t.pc.CRead? || t.pc.CAdvance? then 1 else 0
  }

  /** The token stands for a free slot. */
  function RoomToken(t: Thread): nat {
    if t.pc.PLock? || t.pc.PFill? || t.pc.PAdvance? || t.pc.CUnlock? || t.pc.CPost? then 1 else 0
  }

  /** Half-done '+' has posted and not yet counted; half-done '-' has waited and not yet counted. */
  function Correction(main: MainPC): int {
    if main.PlusLock? || main.PlusInc? then 1 else if main.MinusLock? || main.MinusDec? then -1 else 0
  }

  predicate InCritical(pc: PC) { pc.PFill? || pc.PAdvance? || pc.PUnlock? || pc.CRead? || pc.CAdvance? || pc.CUnlock? }

  predicate MainInCritical(main: MainPC) {
    main.BriefHold? || main.PlusInc? || main.PlusUnlock? || main.MinusDec? || main.MinusUnlock?
  }

  // ----- the invariant

  ghost predicate TokensInv(s: State) {
    && Occupancy(s.q) == s.full + Total(s.threads, ItemToken)
    && Occupancy(s.q) + s.empty + Total(s.threads, RoomToken) == s.cap + Correction(s.main)
    && 1 <= s.cap <= FIXED_SIZE
    && (s.main.PlusLock? || s.main.PlusInc? ==> s.cap < FIXED_SIZE)
    && (s.main.MinusWait? || s.main.MinusLock? || s.main.MinusDec? ==> s.cap > 1)
  }

  ghost predicate MutexInv(s: State) {
    && (forall i :: 0 <= i < |s.threads| ==> (InCritical(s.threads[i].pc) <==> s.mutex == Held(i)))
    && (s.mutex.Held? ==> s.mutex.i < |s.threads|)
    && (MainInCritical(s.main) <==> s.mutex == HeldByMain)
  }

  ghost predicate DataInv(s: State) {
    && QueueInv(FIXED_SIZE, s.q)
    && (forall m :: m in s.q.produced ==> Verifies(m))
    && (forall i :: 0 <= i < |s.threads| && s.threads[i].pc == PAdvance ==> Verifies(s.q.slots[s.q.tail]))
    && (forall i :: 0 <= i < |s.threads| && s.threads[i].pc.CAdvance? ==> s.threads[i].pc.msg == s.q.slots[s.q.head])
  }

  /** Only the thread the command loop waits for is cancelled and still alive. */
  ghost predicate JoinInv(s: State) {
    && (s.main.Join? ==> s.main.i < |s.threads| && s.threads[s.main.i].doomed)
    && (forall i :: 0 <= i < |s.threads| && s.threads[i].doomed && s.threads[i].pc != Dead ==> s.main == Join(i))
  }

  ghost predicate Inv(s: State) { DataInv(s) && TokensInv(s) && MutexInv(s) && JoinInv(s) }

  lemma InitInv(s: State)
    requires Init(s)
    ensures Inv(s)
  {
  }

  /** A move that accounts for what it takes and gives keeps the token equations. */
  lemma MoveKeepsTokens(s: State, s': State, i: nat, t: Thread)
    requires i < |s.threads| && TokensInv(s) && s'.threads == s.threads[i := t] && s'.cap == s.cap
    requires s'.main == s.main || (s.main == Idle && s'.main.Join?)
    requires Occupancy(s'.q) - s'.full - ItemToken(t) == Occupancy(s.q) - s.full - ItemToken(s.threads[i])
    requires Occupancy(s'.q) + s'.empty + RoomToken(t) == Occupancy(s.q) + s.empty + RoomToken(s.threads[i])
    ensures TokensInv(s')
  {
    TotalUpdate(s.threads, i, t, ItemToken);
    TotalUpdate(s.threads, i, t, RoomToken);
    hide Total, ItemToken, RoomToken, Occupancy;
  }

  /** A producer that holds a token finds a free slot; a consumer that holds one finds a message. */
  lemma TokenBuys(s: State, i: nat)
    requires TokensInv(s) && i < |s.threads|
    ensures RoomToken(s.threads[i]) == 1 ==> Occupancy(s.q) < FIXED_SIZE
    ensures ItemToken(s.threads[i]) == 1 ==> Occupancy(s.q) > 0
  {
    TotalAtLeast(s.threads, i, ItemToken);
    TotalAtLeast(s.threads, i, RoomToken);
  }

  lemma ThreadKeepsData(s: State, i: nat, m: Message)
    requires Inv(s) && i < |s.threads| && ThreadEnabled(s, i) && (s.threads[i].pc == PFill ==> Verifies(m))
    ensures DataInv(ThreadStep(s, i, m))
  {
    TokenBuys(s, i);
    hide QueueInv, Total, Verifies, TokensInv, Occupancy;
    match s.threads[i].pc
    case PFill => FillKeeps(FIXED_SIZE, s.q, m);
    case PAdvance => AdvanceKeeps(FIXED_SIZE, s.q);
    case CAdvance(_) => TakeKeeps(FIXED_SIZE, s.q);
    case _ =>
  }

  lemma ThreadKeepsTokens(s: State, i: nat, m: Message)
    requires TokensInv(s) && i < |s.threads| && ThreadEnabled(s, i)
    ensures TokensInv(ThreadStep(s, i, m))
  {
    hide TokensInv, Verifies;
    MoveKeepsTokens(s, ThreadStep(s, i, m), i, ThreadStep(s, i, m).threads[i]);
  }

  /** A thread takes the mutex when it enters its critical section and frees it when it leaves. */
  lemma MoveKeepsMutex(s: State, s': State, i: nat, t: Thread)
    requires i < |s.threads| && MutexInv(s) && s'.threads == s.threads[i := t] && s'.main == s.main
    requires if InCritical(t.pc) == InCritical(s.threads[i].pc) then s'.mutex == s.mutex
             else if InCritical(t.pc) then s.mutex == Free && s'.mutex == Held(i) else s'.mutex == Free
    ensures MutexInv(s')
  {
    hide InCritical, MainInCritical;
  }

  lemma ThreadKeepsMutex(s: State, i: nat, m: Message)
    requires MutexInv(s) && i < |s.threads| && ThreadEnabled(s, i)
    ensures MutexInv(ThreadStep(s, i, m))
  {
    hide MutexInv, MainInCritical, Fill, Advance, Take;
    MoveKeepsMutex(s, ThreadStep(s, i, m), i, ThreadStep(s, i, m).threads[i]);
  }

  lemma DieKeepsInv(s: State, i: nat)
    requires Inv(s) && i < |s.threads| && CancellationPoint(s.threads[i].pc)
    ensures Inv(MoveTo(s, i, Dead))
  {
    hide QueueInv, TokensInv, Verifies;
    MoveKeepsTokens(s, MoveTo(s, i, Dead), i, MoveTo(s, i, Dead).threads[i]);
  }

  lemma MainKeepsTokens(s: State, a: Action)
    requires TokensInv(s) && Enabled(s, a) && !a.Run? && !a.Die?
    ensures TokensInv(Apply(s, a))
  {
    hide Total, Verifies, ItemToken, RoomToken, Occupancy;
    match a
    case CreateProducer => AppendTotals(s.threads, PWait);
    case CreateConsumer => AppendTotals(s.threads, CWait);
    case Cancel(i) => CancelTotals(s, i);
    case _ =>
  }

  lemma AppendTotals(threads: seq<Thread>, pc: PC)
    requires CancellationPoint(pc)
    ensures Total(threads + [Thread(pc, false)], ItemToken) == Total(threads, ItemToken)
    ensures Total(threads + [Thread(pc, false)], RoomToken) == Total(threads, RoomToken)
  {
    TotalAppend(threads, Thread(pc, false), ItemToken);
    TotalAppend(threads, Thread(pc, false), RoomToken);
  }

  lemma CancelTotals(s: State, i: nat)
    requires TokensInv(s) && Enabled(s, Cancel(i))
    ensures TokensInv(Apply(s, Cancel(i)))
  {
    hide TokensInv;
    MoveKeepsTokens(s, Apply(s, Cancel(i)), i, s.threads[i].(doomed := true));
  }

  lemma MainKeepsData(s: State, a: Action)
    requires DataInv(s) && Enabled(s, a) && !a.Run? && !a.Die?
    ensures DataInv(Apply(s, a))
  {
    hide QueueInv, Verifies;
  }

  lemma MainKeepsMutex(s: State, a: Action)
    requires MutexInv(s) && Enabled(s, a) && !a.Run? && !a.Die?
    ensures MutexInv(Apply(s, a))
  {
    hide Verifies;
  }

  lemma StepKeepsJoin(s: State, a: Action)
    requires JoinInv(s) && Enabled(s, a)
    ensures JoinInv(Apply(s, a))
  {
    hide Verifies, Fill, Advance, Take;
  }

  lemma StepKeepsInv(s: State, a: Action)
    requires Inv(s) && Enabled(s, a)
    ensures Inv(Apply(s, a))
  {
    StepKeepsJoin(s, a);
    hide DataInv, TokensInv, MutexInv, JoinInv, ThreadStep, ThreadEnabled;
    match a
    case Run(i, m) => ThreadKeepsData(s, i, m); ThreadKeepsTokens(s, i, m); ThreadKeepsMutex(s, i, m);
    case Die(i) => DieKeepsInv(s, i);
    case _ => MainKeepsTokens(s, a); MainKeepsData(s, a); MainKeepsMutex(s, a);
  }

  /** Every state of every run has the invariant. */
  lemma {:induction false} Reachable(run: seq<State>, acts: seq<Action>, k: nat)
    requires IsRun(run, acts) && k < |run|
    ensures Inv(run[k])
  {
    hide Inv, Apply, Enabled, Init;
    if k == 0 { InitInv(run[0]); } else { Reachable(run, acts, k - 1); StepKeepsInv(run[k - 1], acts[k - 1]); }
  }

  // ----- main results

  /** Token conservation under live resizing, and the bound it gives. */
  lemma TokenConservation(run: seq<State>, acts: seq<Action>, k: nat)
    requires IsRun(run, acts) && k < |run|
    ensures var s := run[k];
            && s.empty + s.full + Total(s.threads, Token) == s.cap + Correction(s.main)
            && 0 <= Occupancy(s.q) <= s.cap + Correction(s.main) <= FIXED_SIZE
  {
    Reachable(run, acts, k);
    TotalSum(run[k].threads, ItemToken, RoomToken, Token);
  }

  /** First in, first out, in every run with any number of threads and resizes: what was consumed is a prefix of
      what was produced, the indices are the two counts modulo the ring size, and every consumed message verifies. */
  lemma FirstInFirstOut(run: seq<State>, acts: seq<Action>, k: nat)
    requires IsRun(run, acts) && k < |run|
    ensures var q := run[k].q;
            && q.consumed <= q.produced && |q.produced| - |q.consumed| <= FIXED_SIZE
            && q.tail == |q.produced| % FIXED_SIZE && q.head == |q.consumed| % FIXED_SIZE
            && (forall m :: m in q.consumed ==> Verifies(m))
  {
    Reachable(run, acts, k);
    var q := run[k].q;
    forall m | m in q.consumed ensures Verifies(m) { assert m in q.produced; }
  }

  /** No producer overwrites an unread slot; the message a consumer copies is the oldest unread one, and it verifies. */
  lemma SlotsAreSafe(run: seq<State>, acts: seq<Action>, k: nat, i: nat)
    requires IsRun(run, acts) && k < |run| && i < |run[k].threads|
    ensures var s, pc := run[k], run[k].threads[i].pc;
            && (pc.PFill? || pc.PAdvance? ==>
                  forall j :: |s.q.consumed| <= j < |s.q.produced| ==> j % FIXED_SIZE != s.q.tail)
            && (pc.CRead? || pc.CAdvance? ==>
                  (|s.q.consumed| < |s.q.produced| && s.q.head < |s.q.slots|
                   && s.q.slots[s.q.head] == s.q.produced[|s.q.consumed|] && Verifies(s.q.slots[s.q.head])))
            && (pc.CAdvance? ==> pc.msg == s.q.produced[|s.q.consumed|])
  {
    Reachable(run, acts, k);
    var s, pc := run[k], run[k].threads[i].pc;
    TokenBuys(s, i);
    if pc.PFill? || pc.PAdvance? { TailSlotIsFree(FIXED_SIZE, s.q); }
    if pc.CRead? || pc.CAdvance? {
      HeadIsOldest(FIXED_SIZE, s.q);
      assert s.q.produced[|s.q.consumed|] in s.q.produced;
    }
  }

  /** Every step is a step of the abstract queue whose bound is the capacity, corrected for a half-done resize. */
  lemma RefinesFifo(run: seq<State>, acts: seq<Action>, k: nat)
    requires IsRun(run, acts) && k < |acts|
    ensures |run[k].q.consumed| <= |run[k].q.produced| && |run[k + 1].q.consumed| <= |run[k + 1].q.produced|
    ensures FifoStep(run[k].cap + Correction(run[k].main), Abstract(run[k].q), Abstract(run[k + 1].q))
  {
    Reachable(run, acts, k);
    Reachable(run, acts, k + 1);
    StepRefines(run[k], acts[k]);
  }

  /** The history grows by the slot at `tail` when a producer advances, shrinks from the front when a consumer does,
      and does not change otherwise. */
  lemma HistoryChange(s: State, a: Action)
    requires Enabled(s, a)
    ensures var q' := Apply(s, a).q;
            if a.Run? && s.threads[a.i].pc.PAdvance? then q' == Advance(FIXED_SIZE, s.q)
            else if a.Run? && s.threads[a.i].pc.CAdvance? then q' == Take(FIXED_SIZE, s.q, s.threads[a.i].pc.msg)
            else q'.produced == s.q.produced && q'.consumed == s.q.consumed
  {
    hide Advance, Take, Verifies;
  }

  lemma StepRefines(s: State, a: Action)
    requires Inv(s) && Enabled(s, a)
    ensures |s.q.consumed| <= |s.q.produced| && |Apply(s, a).q.consumed| <= |Apply(s, a).q.produced|
    ensures FifoStep(s.cap + Correction(s.main), Abstract(s.q), Abstract(Apply(s, a).q))
  {
    StepKeepsInv(s, a);
    HistoryChange(s, a);
    assert QueueInv(FIXED_SIZE, s.q) && QueueInv(FIXED_SIZE, Apply(s, a).q);
    if a.Run? && s.threads[a.i].pc.PAdvance? {
      TokenBuys(s, a.i);
      TotalAtLeast(s.threads, a.i, RoomToken);
      assert Occupancy(s.q) < s.cap + Correction(s.main);
      hide Inv, Apply, Enabled, QueueInv, Enqueues, Dequeues;
      AdvanceEnqueues(FIXED_SIZE, s.q);
    } else if a.Run? && s.threads[a.i].pc.CAdvance? {
      TokenBuys(s, a.i);
      hide Inv, Apply, Enabled, QueueInv, Enqueues, Dequeues;
      TakeDequeues(FIXED_SIZE, s.q);
    }
  }

  /** The calls at which a cancelled thread ends are exactly the places where it holds no token; the mutex is
      never held there. So the commands that end threads lose no token and kill no mutex holder. */
  lemma CancellationIsHarmless(run: seq<State>, acts: seq<Action>, k: nat, i: nat)
    requires IsRun(run, acts) && k < |run| && i < |run[k].threads| && run[k].threads[i].pc != Dead
    ensures CancellationPoint(run[k].threads[i].pc) <==> Token(run[k].threads[i]) == 0
    ensures CancellationPoint(run[k].threads[i].pc) ==> run[k].mutex != Held(i)
    ensures k < |acts| && acts[k] == Die(i) ==>
              Total(run[k + 1].threads, Token) == Total(run[k].threads, Token) && run[k + 1].mutex == run[k].mutex
              && run[k + 1].empty == run[k].empty && run[k + 1].full == run[k].full && run[k + 1].q == run[k].q
  {
    Reachable(run, acts, k);
    TotalUpdate(run[k].threads, i, run[k].threads[i].(pc := Dead), Token);
  }

  /** At most one thread, or the command loop, is between lock and unlock. */
  lemma MutualExclusion(run: seq<State>, acts: seq<Action>, k: nat, i: nat, j: nat)
    requires IsRun(run, acts) && k < |run| && i < |run[k].threads| && j < |run[k].threads|
    requires InCritical(run[k].threads[i].pc)
    ensures InCritical(run[k].threads[j].pc) ==> i == j
    ensures !MainInCritical(run[k].main)
  {
    Reachable(run, acts, k);
  }

  /** The status command, which reads under the mutex, shows produced minus consumed, and 0 for a full ring. */
  lemma StatusIsRight(run: seq<State>, acts: seq<Action>, k: nat)
    requires IsRun(run, acts) && k < |run|
    ensures var q := run[k].q;
            q.head < FIXED_SIZE && q.tail < FIXED_SIZE
            && UsedMod(FIXED_SIZE, q.head, q.tail) == if Occupancy(q) == FIXED_SIZE then 0 else Occupancy(q)
  {
    Reachable(run, acts, k);
    StatusValue(FIXED_SIZE, run[k].q);
  }

  predicate Producing(pc: PC) {
    pc.PWait? || pc.PLock? || pc.PFill? || pc.PAdvance? || pc.PUnlock? || pc.PPost? || pc.PIdle?
  }

  /** No deadlock: with a live producer and a live consumer there is always a thread that can move on, or the
      command loop is inside its own critical section, also while a '-' waits for a free slot. That a message can
      still be produced or consumed, and when not, is the subject of SemaphoreProgress. */
  lemma NoDeadlock(run: seq<State>, acts: seq<Action>, k: nat, i: nat, j: nat)
    requires IsRun(run, acts) && k < |run| && i < |run[k].threads| && j < |run[k].threads|
    requires Producing(run[k].threads[i].pc) && !Producing(run[k].threads[j].pc) && run[k].threads[j].pc != Dead
    ensures exists a: Action :: (a.Run? || (a.MainStep? && MainInCritical(run[k].main))) && Enabled(run[k], a)
  {
    Reachable(run, acts, k);
    var s := run[k];
    var m := SomeMessage();
    if s.mutex == HeldByMain {
      assert Enabled(s, MainStep);
    } else if s.mutex.Held? {
      assert Enabled(s, Run(s.mutex.i, m));
    } else if x :| 0 <= x < |s.threads| && Token(s.threads[x]) == 1 {
      assert Enabled(s, Run(x, m));
    } else if x :| 0 <= x < |s.threads| && (s.threads[x].pc.PIdle? || s.threads[x].pc.CIdle?) {
      assert Enabled(s, Run(x, m));
    } else {
      TokenConservation(run, acts, k);
      TotalZero(s.threads, Token);
      if s.empty > 0 { assert Enabled(s, Run(i, m)); } else { assert Enabled(s, Run(j, m)); }
    }
  }
}
