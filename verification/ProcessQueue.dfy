/** The queue of processes in shared memory, guarded by three System V semaphores. Any wait may be interrupted and
    any semaphore operation may fail; a process that fails after its first wait ends and leaks what it holds. */
module ProcessQueue {
  import opened Messages
  import opened Rings
  import opened Tally

  const QUEUE_SIZE: nat := 10

  /** What a dead process took and never gave back: a token for a free slot or for a message. */
  datatype Leak = NoToken | RoomLost | ItemLost

  /** Where a producer (P) or consumer (C) is. Top: at the test of the loop. Dead: after _exit. */
  datatype PC =
    | PTop | PWait | PLock | PFill | PAdvance | PUnlock | PPost | PIdle
    | CTop | CWait | CLock | CRead | CAdvance(msg: Message)
    | CUnlock(msg: Message) | CPost(msg: Message) | CIdle(msg: Message)
    | Dead(leak: Leak, mutexLost: bool)

  /** A process, and whether its signal handler has set needTerminate. */
  datatype Process = Process(pc: PC, term: bool)

  /** Where the command loop is: at its prompt, or in waitpid for process i, which it has sent SIGTERM. */
  datatype MainPC = Idle | WaitPid(i: nat)

  datatype State = State(q: Queue, mutex: nat, fill: nat, empty: nat, procs: seq<Process>, main: MainPC)

  datatype Action =
    | Run(i: nat, m: Message)             // process i takes its next step; m is the message if it fills a slot
    | Fail(i: nat, interrupted: bool)     // the semaphore operation process i is at returns -1, with EINTR or not
    | Signalled(i: nat)                   // SIGINT or SIGTERM from elsewhere reaches process i
    | SpawnProducer | SpawnConsumer
    | Kill(i: nat) | Reap                 // a command that ends process i: the signal, the return from waitpid

  ghost predicate Init(s: State) {
    && |s.q.slots| == QUEUE_SIZE && s.q == EmptyQueue(s.q.slots)
    && s == State(s.q, 1, 0, QUEUE_SIZE, [], Idle)
  }

  predicate CanRun(s: State, pc: PC) {
    match pc
    case PWait => s.empty > 0
    case CWait => s.fill > 0
    case PLock => s.mutex > 0
    case CLock => s.mutex > 0
    case PFill => s.q.tail < |s.q.slots|
    case PAdvance => s.q.tail < |s.q.slots|
    case CRead => s.q.head < |s.q.slots|
    case Dead(_, _) => false
    case _ => true
  }

  function MoveTo(s: State, i: nat, pc: PC): State
    requires i < |s.procs|
  {
    s.(procs := s.procs[i := s.procs[i].(pc := pc)])
  }

  function RunStep(s: State, i: nat, m: Message): State
    requires i < |s.procs| && CanRun(s, s.procs[i].pc)
  {
    match s.procs[i].pc
    case PTop => MoveTo(s, i, if s.procs[i].term then Dead(NoToken, false) else PWait)
    case PWait => MoveTo(s.(empty := s.empty - 1), i, PLock)
    case PLock => MoveTo(s.(mutex := s.mutex - 1), i, PFill)
    case PFill => MoveTo(s.(q := Fill(s.q, m)), i, PAdvance)
    case PAdvance => MoveTo(s.(q := Advance(QUEUE_SIZE, s.q)), i, PUnlock)
    case PUnlock => MoveTo(s.(mutex := s.mutex + 1), i, PPost)
    case PPost => MoveTo(s.(fill := s.fill + 1), i, PIdle)
    case PIdle => MoveTo(s, i, PTop)
    case CTop => MoveTo(s, i, if s.procs[i].term then Dead(NoToken, false) else CWait)
    case CWait => MoveTo(s.(fill := s.fill - 1), i, CLock)
    case CLock => MoveTo(s.(mutex := s.mutex - 1), i, CRead)
    case CRead => MoveTo(s, i, CAdvance(s.q.slots[s.q.head]))
    case CAdvance(msg) => MoveTo(s.(q := Take(QUEUE_SIZE, s.q, msg)), i, CUnlock(msg))
    case CUnlock(msg) => MoveTo(s.(mutex := s.mutex + 1), i, CPost(msg))
    case CPost(msg) => MoveTo(s.(empty := s.empty + 1), i, CIdle(msg))
    case CIdle(_) => MoveTo(s, i, CTop)
    case Dead(_, _) => s
  }

  predicate AtSemaphore(pc: PC) {
    pc.PWait? || pc.PLock? || pc.PUnlock? || pc.PPost? || pc.CWait? || pc.CLock? || pc.CUnlock? || pc.CPost?
  }

  /** Only the first wait goes round the loop again, and only on EINTR; every other failure leaves the loop. */
  function AfterFailure(pc: PC, interrupted: bool): PC
    requires AtSemaphore(pc)
  {
    match pc
    case PWait => if interrupted then PTop else Dead(NoToken, false)
    case CWait => if interrupted then CTop else Dead(NoToken, false)
    case PLock => Dead(RoomLost, false)
    case PUnlock => Dead(ItemLost, true)
    case PPost => Dead(ItemLost, false)
    case CLock => Dead(ItemLost, false)
    case CUnlock(_) => Dead(RoomLost, true)
    case CPost(_) => Dead(RoomLost, false)
  }

  predicate Enabled(s: State, a: Action) {
    match a
    case Run(i, m) => i < |s.procs| && CanRun(s, s.procs[i].pc) && (s.procs[i].pc == PFill ==> Verifies(m))
    case Fail(i, _) => i < |s.procs| && AtSemaphore(s.procs[i].pc)
    case Signalled(i) => i < |s.procs|
    case Kill(i) => s.main == Idle && i < |s.procs|
    case Reap => s.main.WaitPid? && s.main.i < |s.procs| && s.procs[s.main.i].pc.Dead?
    case _ => s.main == Idle
  }

  function SetTerm(s: State, i: nat): State
    requires i < |s.procs|
  {
    s.(procs := s.procs[i := s.procs[i].(term := true)])
  }

  function Apply(s: State, a: Action): State
    requires Enabled(s, a)
  {
    match a
    case Run(i, m) => RunStep(s, i, m)
    case Fail(i, interrupted) => MoveTo(s, i, AfterFailure(s.procs[i].pc, interrupted))
    case Signalled(i) => SetTerm(s, i)
    case Kill(i) => SetTerm(s, i).(main := WaitPid(i))
    case Reap => s.(main := Idle)
    case SpawnProducer => s.(procs := s.procs + [Process(PTop, false)])
    case SpawnConsumer => s.(procs := s.procs + [Process(CTop, false)])
  }

  ghost predicate Steps(run: seq<State>, acts: seq<Action>) {
    && |run| == |acts| + 1
    && forall k :: 0 <= k < |acts| ==> Enabled(run[k], acts[k]) && run[k + 1] == Apply(run[k], acts[k])
  }

  ghost predicate IsRun(run: seq<State>, acts: seq<Action>) { Steps(run, acts) && Init(run[0]) }

  // ----- tokens

  /** A token for a message, held by a live process or leaked. */
  function ItemToken(p: Process): nat {
    if p.pc.PUnlock? || p.pc.PPost? || p.pc.CLock? || p.pc.CRead? || p.pc.CAdvance?
       || (p.pc.Dead? && p.pc.leak.ItemLost?) then 1 else 0
  }

  /** A token for a free slot, held by a live process or leaked. */
  function RoomToken(p: Process): nat {
    if p.pc.PLock? || p.pc.PFill? || p.pc.PAdvance? || p.pc.CUnlock? || p.pc.CPost?
       || (p.pc.Dead? && p.pc.leak.RoomLost?) then 1 else 0
  }

  /** A token held by a live process, between its wait and its post. */
  function HeldToken(p: Process): nat {
    if p.pc.Dead? || p.pc.PTop? || p.pc.PWait? || p.pc.PIdle? || p.pc.CTop? || p.pc.CWait? || p.pc.CIdle? then 0 else 1
  }

  function LeakedToken(p: Process): nat { if p.pc.Dead? && p.pc.leak != NoToken then 1 else 0 }

  function LeakedRoom(p: Process): nat { if p.pc.Dead? && p.pc.leak.RoomLost? then 1 else 0 }

  function LeakedItem(p: Process): nat { if p.pc.Dead? && p.pc.leak.ItemLost? then 1 else 0 }

  function AnyToken(p: Process): nat { ItemToken(p) + RoomToken(p) }

  predicate InCritical(pc: PC) { pc.PFill? || pc.PAdvance? || pc.PUnlock? || pc.CRead? || pc.CAdvance? || pc.CUnlock? }

  function Holding(p: Process): nat { if InCritical(p.pc) then 1 else 0 }

  function LeakedMutex(p: Process): nat { if p.pc.Dead? && p.pc.mutexLost then 1 else 0 }

  /** The process took the mutex and has not given it back, dead or alive. */
  function Owns(p: Process): nat { Holding(p) + LeakedMutex(p) }

  // ----- the invariant

  ghost predicate TokensInv(s: State) {
    && Occupancy(s.q) == s.fill + Total(s.procs, ItemToken)
    && Occupancy(s.q) + s.empty + Total(s.procs, RoomToken) == QUEUE_SIZE
    && s.mutex + Total(s.procs, Owns) == 1
  }

  ghost predicate DataInv(s: State) {
    && QueueInv(QUEUE_SIZE, s.q)
    && (forall m :: m in s.q.produced ==> Verifies(m))
    && (forall i :: 0 <= i < |s.procs| && s.procs[i].pc == PAdvance ==> Verifies(s.q.slots[s.q.tail]))
    && (forall i :: 0 <= i < |s.procs| && s.procs[i].pc.CAdvance? ==> s.procs[i].pc.msg == s.q.slots[s.q.head])
  }

  /** The process the command loop waits for has been told to end. */
  ghost predicate MainInv(s: State) {
    s.main.WaitPid? ==> s.main.i < |s.procs| && (s.procs[s.main.i].term || s.procs[s.main.i].pc.Dead?)
  }

  ghost predicate Inv(s: State) { DataInv(s) && TokensInv(s) && MainInv(s) }

  lemma InitInv(s: State)
    requires Init(s)
    ensures Inv(s)
  {
  }

  /** A move that accounts for what it takes and gives keeps the token equations. */
  lemma MoveKeepsTokens(s: State, s': State, i: nat, p: Process)
    requires i < |s.procs| && TokensInv(s) && s'.procs == s.procs[i := p]
    requires Occupancy(s'.q) - s'.fill - ItemToken(p) == Occupancy(s.q) - s.fill - ItemToken(s.procs[i])
    requires Occupancy(s'.q) + s'.empty + RoomToken(p) == Occupancy(s.q) + s.empty + RoomToken(s.procs[i])
    requires s'.mutex + Owns(p) == s.mutex + Owns(s.procs[i])
    ensures TokensInv(s')
  {
    TotalUpdate(s.procs, i, p, ItemToken);
    TotalUpdate(s.procs, i, p, RoomToken);
    TotalUpdate(s.procs, i, p, Owns);
    hide Total, ItemToken, RoomToken, Owns, Occupancy;
  }

  /** A process that holds the mutex finds it taken; a producer with a token finds a free slot, a consumer a message. */
  lemma TokenBuys(s: State, i: nat)
    requires TokensInv(s) && i < |s.procs|
    ensures RoomToken(s.procs[i]) == 1 ==> Occupancy(s.q) < QUEUE_SIZE
    ensures ItemToken(s.procs[i]) == 1 ==> Occupancy(s.q) > 0
    ensures Owns(s.procs[i]) == 1 ==> s.mutex == 0
  {
    TotalAtLeast(s.procs, i, ItemToken);
    TotalAtLeast(s.procs, i, RoomToken);
    TotalAtLeast(s.procs, i, Owns);
  }

  lemma OneOwner(s: State, i: nat, j: nat)
    requires TokensInv(s) && i < |s.procs| && j < |s.procs| && Owns(s.procs[i]) > 0 && Owns(s.procs[j]) > 0
    ensures i == j
  {
    if i < j { TotalOfTwo(s.procs, i, j, Owns); }
    if j < i { TotalOfTwo(s.procs, j, i, Owns); }
  }

  /** While a process holds the mutex no other is in its critical section. */
  lemma OthersOutside(s: State, i: nat)
    requires TokensInv(s) && i < |s.procs|
    ensures Owns(s.procs[i]) > 0 ==> forall j :: 0 <= j < |s.procs| && j != i ==> !InCritical(s.procs[j].pc)
  {
    forall j | 0 <= j < |s.procs| && j != i && Owns(s.procs[i]) > 0 ensures !InCritical(s.procs[j].pc) {
      if InCritical(s.procs[j].pc) { OneOwner(s, i, j); }
    }
  }

  predicate ChangesQueue(pc: PC) { pc.PFill? || pc.PAdvance? || pc.CAdvance? }

  lemma WriterKeepsData(s: State, i: nat, m: Message)
    requires Inv(s) && i < |s.procs| && CanRun(s, s.procs[i].pc) && (s.procs[i].pc == PFill ==> Verifies(m))
    requires ChangesQueue(s.procs[i].pc)
    ensures DataInv(RunStep(s, i, m))
  {
    TokenBuys(s, i);
    OthersOutside(s, i);
    hide QueueInv, Total, Verifies, TokensInv, Occupancy;
    match s.procs[i].pc
    case PFill => FillKeeps(QUEUE_SIZE, s.q, m);
    case PAdvance => AdvanceKeeps(QUEUE_SIZE, s.q);
    case CAdvance(_) => TakeKeeps(QUEUE_SIZE, s.q);
  }

  lemma RunKeepsData(s: State, i: nat, m: Message)
    requires Inv(s) && i < |s.procs| && CanRun(s, s.procs[i].pc) && (s.procs[i].pc == PFill ==> Verifies(m))
    ensures DataInv(RunStep(s, i, m))
  {
    hide QueueInv, Verifies, TokensInv, Fill, Advance, Take;
    if ChangesQueue(s.procs[i].pc) { WriterKeepsData(s, i, m); } else { assert RunStep(s, i, m).q == s.q; }
  }

  predicate Producing(pc: PC) {
    pc.PTop? || pc.PWait? || pc.PLock? || pc.PFill? || pc.PAdvance? || pc.PUnlock? || pc.PPost? || pc.PIdle?
  }

  lemma ProducerKeepsTokens(s: State, i: nat, m: Message)
    requires TokensInv(s) && i < |s.procs| && CanRun(s, s.procs[i].pc) && Producing(s.procs[i].pc)
    ensures TokensInv(RunStep(s, i, m))
  {
    hide TokensInv, Verifies;
    MoveKeepsTokens(s, RunStep(s, i, m), i, RunStep(s, i, m).procs[i]);
  }

  lemma ConsumerKeepsTokens(s: State, i: nat, m: Message)
    requires TokensInv(s) && i < |s.procs| && CanRun(s, s.procs[i].pc) && !Producing(s.procs[i].pc)
    ensures TokensInv(RunStep(s, i, m))
  {
    hide TokensInv, Verifies;
    MoveKeepsTokens(s, RunStep(s, i, m), i, RunStep(s, i, m).procs[i]);
  }

  lemma RunKeepsMain(s: State, i: nat, m: Message)
    requires MainInv(s) && i < |s.procs| && CanRun(s, s.procs[i].pc)
    ensures MainInv(RunStep(s, i, m))
  {
    hide Fill, Advance, Take;
  }

  lemma FailKeepsInv(s: State, i: nat, interrupted: bool)
    requires Inv(s) && i < |s.procs| && AtSemaphore(s.procs[i].pc)
    ensures Inv(MoveTo(s, i, AfterFailure(s.procs[i].pc, interrupted)))
  {
    hide QueueInv, TokensInv, Verifies;
    var s' := MoveTo(s, i, AfterFailure(s.procs[i].pc, interrupted));
    MoveKeepsTokens(s, s', i, s'.procs[i]);
  }

  lemma SpawnKeepsTokens(s: State, p: Process)
    requires TokensInv(s) && (p.pc.PTop? || p.pc.CTop?)
    ensures TokensInv(s.(procs := s.procs + [p]))
  {
    TotalAppend(s.procs, p, ItemToken);
    TotalAppend(s.procs, p, RoomToken);
    TotalAppend(s.procs, p, Owns);
    hide Total;
  }

  lemma MainKeepsInv(s: State, a: Action)
    requires Inv(s) && Enabled(s, a) && !a.Run? && !a.Fail?
    ensures Inv(Apply(s, a))
  {
    match a
    case Signalled(i) => MoveKeepsTokens(s, Apply(s, a), i, s.procs[i].(term := true));
    case Kill(i) => MoveKeepsTokens(s, Apply(s, a), i, s.procs[i].(term := true));
    case Reap => MainMoves(s, Idle);
    case SpawnProducer => SpawnKeepsTokens(s, Process(PTop, false));
    case SpawnConsumer => SpawnKeepsTokens(s, Process(CTop, false));
    hide QueueInv, TokensInv, Verifies, Total;
  }

  lemma MainMoves(s: State, main: MainPC)
    requires TokensInv(s)
    ensures TokensInv(s.(main := main))
  {
  }

  lemma StepKeepsInv(s: State, a: Action)
    requires Inv(s) && Enabled(s, a)
    ensures Inv(Apply(s, a))
  {
    hide DataInv, TokensInv, MainInv, RunStep, CanRun;
    match a
    case Run(i, m) =>
      RunKeepsMain(s, i, m);
      RunKeepsData(s, i, m);
      if Producing(s.procs[i].pc) { ProducerKeepsTokens(s, i, m); } else { ConsumerKeepsTokens(s, i, m); }
    case Fail(i, interrupted) => FailKeepsInv(s, i, interrupted);
    case _ => MainKeepsInv(s, a);
  }

  /** Every state of every run has the invariant. */
  lemma {:induction false} Reachable(run: seq<State>, acts: seq<Action>, k: nat)
    requires IsRun(run, acts) && k < |run|
    ensures Inv(run[k])
  {
    hide Inv, Apply, Enabled, Init;
    if k == 0 { InitInv(run[0]); } else { Reachable(run, acts, k - 1); StepKeepsInv(run[k - 1], acts[k - 1]); }
  }

  // ----- safety

  lemma StateTokens(s: State)
    requires TokensInv(s)
    ensures s.empty + s.fill + Total(s.procs, HeldToken) + Total(s.procs, LeakedToken) == QUEUE_SIZE
    ensures s.mutex + Total(s.procs, Holding) + Total(s.procs, LeakedMutex) == 1
    ensures Total(s.procs, LeakedItem) <= Occupancy(s.q) <= QUEUE_SIZE - Total(s.procs, LeakedRoom)
  {
    TotalSum(s.procs, ItemToken, RoomToken, AnyToken);
    TotalSum(s.procs, HeldToken, LeakedToken, AnyToken);
    TotalSum(s.procs, Holding, LeakedMutex, Owns);
    TotalLeq(s.procs, LeakedItem, ItemToken);
    TotalLeq(s.procs, LeakedRoom, RoomToken);
  }

  /** No token and no mutex is ever made or lost unnoticed, and the queue holds at least the messages whose tokens
      leaked and leaves at least the slots whose tokens leaked unused. */
  lemma TokenConservation(run: seq<State>, acts: seq<Action>, k: nat)
    requires IsRun(run, acts) && k < |run|
    ensures var s := run[k];
            && s.empty + s.fill + Total(s.procs, HeldToken) + Total(s.procs, LeakedToken) == QUEUE_SIZE
            && s.mutex + Total(s.procs, Holding) + Total(s.procs, LeakedMutex) == 1
            && Total(s.procs, LeakedItem) <= Occupancy(s.q) <= QUEUE_SIZE - Total(s.procs, LeakedRoom)
  {
    Reachable(run, acts, k);
    StateTokens(run[k]);
  }

  /** Interruptions and failures change nothing about the order: what was consumed is a prefix of what was
      produced, the indices are the two counts modulo the ring size, and every consumed message verifies. */
  lemma FirstInFirstOut(run: seq<State>, acts: seq<Action>, k: nat)
    requires IsRun(run, acts) && k < |run|
    ensures var q := run[k].q;
            && q.consumed <= q.produced && |q.produced| - |q.consumed| <= QUEUE_SIZE
            && q.tail == |q.produced| % QUEUE_SIZE && q.head == |q.consumed| % QUEUE_SIZE
            && (forall m :: m in q.consumed ==> Verifies(m))
  {
    Reachable(run, acts, k);
    var q := run[k].q;
    forall m | m in q.consumed ensures Verifies(m) { assert m in q.produced; }
  }

  /** No producer overwrites an unread slot; the message a consumer copies is the oldest unread one, and it verifies. */
  lemma SlotsAreSafe(run: seq<State>, acts: seq<Action>, k: nat, i: nat)
    requires IsRun(run, acts) && k < |run| && i < |run[k].procs|
    ensures var s, pc := run[k], run[k].procs[i].pc;
            && (pc.PFill? || pc.PAdvance? ==>
                  forall j :: |s.q.consumed| <= j < |s.q.produced| ==> j % QUEUE_SIZE != s.q.tail)
            && (pc.CRead? || pc.CAdvance? ==>
                  (|s.q.consumed| < |s.q.produced| && s.q.head < |s.q.slots|
                   && s.q.slots[s.q.head] == s.q.produced[|s.q.consumed|] && Verifies(s.q.slots[s.q.head])))
            && (pc.CAdvance? ==> pc.msg == s.q.produced[|s.q.consumed|])
  {
    Reachable(run, acts, k);
    var s, pc := run[k], run[k].procs[i].pc;
    TokenBuys(s, i);
    if pc.PFill? || pc.PAdvance? { TailSlotIsFree(QUEUE_SIZE, s.q); }
    if pc.CRead? || pc.CAdvance? {
      HeadIsOldest(QUEUE_SIZE, s.q);
      assert s.q.produced[|s.q.consumed|] in s.q.produced;
    }
  }

  /** At most one process is between taking the mutex and giving it back, counting those that died in between. */
  lemma MutualExclusion(run: seq<State>, acts: seq<Action>, k: nat, i: nat, j: nat)
    requires IsRun(run, acts) && k < |run| && i < |run[k].procs| && j < |run[k].procs|
    requires Owns(run[k].procs[i]) > 0 && Owns(run[k].procs[j]) > 0
    ensures i == j
  {
    Reachable(run, acts, k);
    OneOwner(run[k], i, j);
  }

  /** Every step is a step of the abstract queue whose bound is the ring size less the leaked free slots. */
  lemma RefinesFifo(run: seq<State>, acts: seq<Action>, k: nat)
    requires IsRun(run, acts) && k < |acts|
    ensures |run[k].q.consumed| <= |run[k].q.produced| && |run[k + 1].q.consumed| <= |run[k + 1].q.produced|
    ensures FifoStep(QUEUE_SIZE - Total(run[k].procs, LeakedRoom), Abstract(run[k].q), Abstract(run[k + 1].q))
  {
    hide Inv, Apply, Enabled, Init;
    Reachable(run, acts, k);
    StepRefines(run[k], acts[k]);
  }

  /** The history grows by the slot at `tail` when a producer advances, shrinks from the front when a consumer does,
      and does not change otherwise. */
  lemma HistoryChange(s: State, a: Action)
    requires Enabled(s, a)
    ensures var q' := Apply(s, a).q;
            if a.Run? && s.procs[a.i].pc.PAdvance? then q' == Advance(QUEUE_SIZE, s.q)
            else if a.Run? && s.procs[a.i].pc.CAdvance? then q' == Take(QUEUE_SIZE, s.q, s.procs[a.i].pc.msg)
            else q'.produced == s.q.produced && q'.consumed == s.q.consumed
  {
    hide Advance, Take, Verifies;
  }

  lemma StepRefines(s: State, a: Action)
    requires Inv(s) && Enabled(s, a)
    ensures |s.q.consumed| <= |s.q.produced| && |Apply(s, a).q.consumed| <= |Apply(s, a).q.produced|
    ensures FifoStep(QUEUE_SIZE - Total(s.procs, LeakedRoom), Abstract(s.q), Abstract(Apply(s, a).q))
  {
    StepKeepsInv(s, a);
    HistoryChange(s, a);
    assert QueueInv(QUEUE_SIZE, s.q) && QueueInv(QUEUE_SIZE, Apply(s, a).q);
    if a.Run? && s.procs[a.i].pc.PAdvance? {
      LeakedRoomBelow(s, a.i);
      assert Occupancy(s.q) < QUEUE_SIZE;
      hide Inv, Apply, Enabled, QueueInv, Enqueues, Dequeues;
      AdvanceEnqueues(QUEUE_SIZE, s.q);
    } else if a.Run? && s.procs[a.i].pc.CAdvance? {
      TokenBuys(s, a.i);
      hide Inv, Apply, Enabled, QueueInv, Enqueues, Dequeues;
      TakeDequeues(QUEUE_SIZE, s.q);
    }
  }

  /** A producer's room token comes on top of the leaked ones. */
  lemma LeakedRoomBelow(s: State, i: nat)
    requires i < |s.procs| && TokensInv(s) && s.procs[i].pc.PAdvance?
    ensures Occupancy(s.q) < QUEUE_SIZE - Total(s.procs, LeakedRoom)
  {
    var rest := s.procs[i := Process(PTop, false)];
    TotalUpdate(s.procs, i, Process(PTop, false), LeakedRoom);
    TotalUpdate(s.procs, i, Process(PTop, false), RoomToken);
    TotalLeq(rest, LeakedRoom, RoomToken);
    hide Total;
  }

  /** The status command, taken as a consistent snapshot: produced minus consumed, except that a full ring shows 0. */
  lemma StatusIsRight(run: seq<State>, acts: seq<Action>, k: nat)
    requires IsRun(run, acts) && k < |run|
    ensures var q := run[k].q;
            q.head < QUEUE_SIZE && q.tail < QUEUE_SIZE
            && UsedSplit(QUEUE_SIZE, q.head, q.tail) == if Occupancy(q) == QUEUE_SIZE then 0 else Occupancy(q)
  {
    Reachable(run, acts, k);
    StatusValue(QUEUE_SIZE, run[k].q);
    StatusFormulasAgree(QUEUE_SIZE, run[k].q.head, run[k].q.tail);
  }

  // ----- what leaks cost

  /** Steps before step `k` in which a process failed after its first wait. */
  function Losses(run: seq<State>, acts: seq<Action>, k: nat): nat
    requires k <= |acts| <= |run|
  {
    if k == 0 then 0 else
      Losses(run, acts, k - 1)
      + (if acts[k - 1].Fail? && acts[k - 1].i < |run[k - 1].procs|
            && !run[k - 1].procs[acts[k - 1].i].pc.PWait? && !run[k - 1].procs[acts[k - 1].i].pc.CWait? then 1 else 0)
  }

  /** Exactly one token leaks for every failure after the first wait; signals, an interrupted first wait and an
      ordinary end leak none. */
  lemma {:induction false} LeaksCounted(run: seq<State>, acts: seq<Action>, k: nat)
    requires IsRun(run, acts) && k < |run|
    ensures Total(run[k].procs, LeakedToken) == Losses(run, acts, k)
  {
    if k > 0 {
      hide Apply;
      LeaksCounted(run, acts, k - 1);
      StepLeaks(run[k - 1], acts[k - 1]);
    }
  }

  lemma StepLeaks(s: State, a: Action)
    requires Enabled(s, a)
    ensures Total(Apply(s, a).procs, LeakedToken) == Total(s.procs, LeakedToken)
              + (if a.Fail? && !s.procs[a.i].pc.PWait? && !s.procs[a.i].pc.CWait? then 1 else 0)
    ensures Total(Apply(s, a).procs, LeakedMutex) >= Total(s.procs, LeakedMutex)
    ensures !a.Fail? || s.procs[a.i].pc.PWait? || s.procs[a.i].pc.CWait? ==>
              Total(Apply(s, a).procs, LeakedMutex) == Total(s.procs, LeakedMutex)
  {
    hide Verifies, Fill, Advance, Take, Total, CanRun;
    var s' := Apply(s, a);
    if a.Reap? {
    } else if a.SpawnProducer? || a.SpawnConsumer? {
      TotalAppend(s.procs, s'.procs[|s.procs|], LeakedToken);
      TotalAppend(s.procs, s'.procs[|s.procs|], LeakedMutex);
    } else {
      TotalUpdate(s.procs, a.i, s'.procs[a.i], LeakedToken);
      TotalUpdate(s.procs, a.i, s'.procs[a.i], LeakedMutex);
    }
  }

  /** Leaks have stopped the queue: every token is gone, or the mutex is. */
  ghost predicate Stopped(s: State) { Total(s.procs, LeakedToken) >= QUEUE_SIZE || Total(s.procs, LeakedMutex) > 0 }

  /** Once that has happened no message is ever produced or consumed again. */
  lemma StoppedForever(run: seq<State>, acts: seq<Action>, k: nat, j: nat)
    requires IsRun(run, acts) && k <= j < |run| && Stopped(run[k])
    ensures Stopped(run[j]) && run[j].q.produced == run[k].q.produced && run[j].q.consumed == run[k].q.consumed
  {
    Reachable(run, acts, k);
    hide Apply, Enabled, Init, Stopped, Inv;
    var more, acts' := run[k..], acts[k..];
    forall n | 0 <= n < |acts'| ensures Enabled(more[n], acts'[n]) && more[n + 1] == Apply(more[n], acts'[n]) {
      assert more[n] == run[k + n] && more[n + 1] == run[k + n + 1] && acts'[n] == acts[k + n];
    }
    StoppedFrom(more, acts', j - k);
  }

  lemma {:induction false} StoppedFrom(run: seq<State>, acts: seq<Action>, k: nat)
    requires Steps(run, acts) && Inv(run[0]) && Stopped(run[0]) && k < |run|
    ensures Inv(run[k]) && Stopped(run[k])
    ensures run[k].q.produced == run[0].q.produced && run[k].q.consumed == run[0].q.consumed
  {
    if k > 0 {
      hide Apply, Enabled, Init, Stopped, Inv;
      StoppedFrom(run, acts, k - 1);
      StepKeepsInv(run[k - 1], acts[k - 1]);
      StoppedStep(run[k - 1], acts[k - 1]);
    }
  }

  lemma StoppedStep(s: State, a: Action)
    requires Inv(s) && Enabled(s, a) && Stopped(s)
    ensures Stopped(Apply(s, a))
    ensures Apply(s, a).q.produced == s.q.produced && Apply(s, a).q.consumed == s.q.consumed
  {
    StateTokens(s);
    StepLeaks(s, a);
    HistoryChange(s, a);
    hide Apply, Enabled, Verifies, Total, Inv;
    if a.Run? && a.i < |s.procs| {
      TotalAtLeast(s.procs, a.i, HeldToken);
      TotalAtLeast(s.procs, a.i, Holding);
    }
  }

  // ----- until then the queue can go on

  /** Some continuation takes `s` to `t`. */
  ghost predicate Leads(s: State, t: State) {
    exists run: seq<State>, acts: seq<Action> :: Steps(run, acts) && run[0] == s && run[|acts|] == t
  }

  lemma LeadsNowhere(s: State)
    ensures Leads(s, s)
  {
    assert Steps([s], []);
  }

  lemma StepLeads(s: State, a: Action, t: State)
    requires Enabled(s, a) && Leads(Apply(s, a), t)
    ensures Leads(s, t)
  {
    hide Enabled, Apply;
    var run: seq<State>, acts: seq<Action> :| Steps(run, acts) && run[0] == Apply(s, a) && run[|acts|] == t;
    var run', acts' := [s] + run, [a] + acts;
    forall k | 0 <= k < |acts'| ensures Enabled(run'[k], acts'[k]) && run'[k + 1] == Apply(run'[k], acts'[k]) {
      if k > 0 { assert run'[k] == run[k - 1] && run'[k + 1] == run[k] && acts'[k] == acts[k - 1]; }
    }
    assert Steps(run', acts') && run'[|acts'|] == t;
  }

  /** A message was produced or consumed between `s` and `t`. */
  predicate Grown(s: State, t: State) {
    |s.q.produced| < |t.q.produced| || |s.q.consumed| < |t.q.consumed|
  }

  /** From `s` a message can still be produced or consumed. */
  ghost predicate CanGrow(s: State) { exists t :: Leads(s, t) && Grown(s, t) }

  /** A step after which the queue can go on, and that took nothing away, shows that it can go on before. */
  lemma StepCanGrow(s: State, a: Action)
    requires Enabled(s, a)
    requires CanGrow(Apply(s, a)) || Grown(s, Apply(s, a))
    ensures CanGrow(s)
  {
    var s' := Apply(s, a);
    HistoryChange(s, a);
    hide Enabled, Apply, Leads;
    LeadsNowhere(s');
    var t :| Leads(s', t) && (Grown(s', t) || t == s') && Grown(s, t);
    StepLeads(s, a, t);
  }

  predicate InCopy(pc: PC) { pc.PFill? || pc.PAdvance? || pc.CRead? || pc.CAdvance? }

  /** A process that holds the mutex and has not yet moved its index can move it. */
  lemma CopyGoesOn(s: State, i: nat)
    requires Inv(s) && i < |s.procs| && InCopy(s.procs[i].pc)
    ensures CanGrow(s)
    decreases s.procs[i].pc.PFill? || s.procs[i].pc.CRead?
  {
    var a := Run(i, SomeMessage());
    hide Verifies, TokensInv, Total, CanGrow;
    assert Enabled(s, a);
    if s.procs[i].pc.PFill? || s.procs[i].pc.CRead? {
      StepKeepsInv(s, a);
      CopyGoesOn(Apply(s, a), i);
    } else {
      HistoryChange(s, a);
      assert Grown(s, Apply(s, a));
    }
    StepCanGrow(s, a);
  }

  /** With the mutex free a process that waits for it can take it. */
  lemma LockGoesOn(s: State, i: nat)
    requires Inv(s) && i < |s.procs| && s.mutex > 0 && (s.procs[i].pc.PLock? || s.procs[i].pc.CLock?)
    ensures CanGrow(s)
  {
    var a := Run(i, SomeMessage());
    hide Verifies, TokensInv, DataInv, Total, CanGrow;
    StepKeepsInv(s, a);
    CopyGoesOn(Apply(s, a), i);
    StepCanGrow(s, a);
  }

  /** With the mutex and a token free a process that waits for the token, or is about to, can take it. */
  lemma WaitGoesOn(s: State, i: nat)
    requires Inv(s) && i < |s.procs| && s.mutex > 0
    requires if Producing(s.procs[i].pc) then s.empty > 0 else s.fill > 0
    requires s.procs[i].pc.PWait? || s.procs[i].pc.CWait? || (s.procs[i].pc.PTop? && !s.procs[i].term)
             || (s.procs[i].pc.CTop? && !s.procs[i].term)
    ensures CanGrow(s)
    decreases s.procs[i].pc.PTop? || s.procs[i].pc.CTop?
  {
    var a := Run(i, SomeMessage());
    hide Verifies, TokensInv, DataInv, Total, CanGrow;
    StepKeepsInv(s, a);
    if s.procs[i].pc.PWait? || s.procs[i].pc.CWait? {
      LockGoesOn(Apply(s, a), i);
    } else {
      WaitGoesOn(Apply(s, a), i);
    }
    StepCanGrow(s, a);
  }

  /** The command loop can spawn the process that is missing. */
  lemma SpawnGoesOn(s: State)
    requires Inv(s) && s.mutex > 0 && (s.empty > 0 || s.fill > 0) && s.main == Idle
    ensures CanGrow(s)
  {
    var a := if s.empty > 0 then SpawnProducer else SpawnConsumer;
    hide Verifies, TokensInv, DataInv, Total, CanGrow;
    StepKeepsInv(s, a);
    WaitGoesOn(Apply(s, a), |s.procs|);
    StepCanGrow(s, a);
  }

  /** Steps a process has left until it has given back what it holds, its index already moved. */
  function Posts(p: Process): nat {
    if p.pc.PUnlock? || p.pc.CUnlock? then 2 else if p.pc.PPost? || p.pc.CPost? then 1 else 0
  }

  /** Steps until the command loop is back at its prompt, when nobody holds a token. */
  function MainRank(s: State): nat {
    if !s.main.WaitPid? || s.main.i >= |s.procs| then 0 else
      match s.procs[s.main.i].pc
      case Dead(_, _) => 1
      case PTop => 2
      case CTop => 2
      case _ => 3
  }

  /** The end of the process the command loop waits for: it goes round to its loop test, its wait for a token
      being interrupted, and ends; then waitpid returns. */
  function EndStep(s: State): Action
    requires s.main.WaitPid? && s.main.i < |s.procs|
  {
    var i := s.main.i;
    if s.procs[i].pc.Dead? then Reap
    else if s.procs[i].pc.PWait? || s.procs[i].pc.CWait? then Fail(i, true)
    else Run(i, SomeMessage())
  }

  lemma EndStepWorks(s: State)
    requires Inv(s) && s.main.WaitPid? && s.main.i < |s.procs| && HeldToken(s.procs[s.main.i]) == 0
    ensures Enabled(s, EndStep(s)) && MainRank(Apply(s, EndStep(s))) < MainRank(s)
    ensures Total(Apply(s, EndStep(s)).procs, Posts) == Total(s.procs, Posts)
    ensures Stopped(Apply(s, EndStep(s))) <==> Stopped(s)
  {
    hide Verifies, TokensInv, DataInv, Total;
    StepLeaks(s, EndStep(s));
    var s' := Apply(s, EndStep(s));
    if !s.procs[s.main.i].pc.Dead? { TotalUpdate(s.procs, s.main.i, s'.procs[s.main.i], Posts); }
  }

  lemma PostWorks(s: State, i: nat)
    requires Inv(s) && i < |s.procs| && Posts(s.procs[i]) > 0
    ensures var a := Run(i, SomeMessage());
            Enabled(s, a) && Total(Apply(s, a).procs, Posts) < Total(s.procs, Posts)
            && (Stopped(Apply(s, a)) <==> Stopped(s))
  {
    hide Verifies, TokensInv, DataInv, Total;
    var a := Run(i, SomeMessage());
    StepLeaks(s, a);
    TotalUpdate(s.procs, i, Apply(s, a).procs[i], Posts);
  }

  /** In a state that is not stopped somebody holds a token and can use it or give it back, or nobody does and a
      token is free. */
  lemma SomethingToDo(s: State) returns (i: nat)
    requires Inv(s) && !Stopped(s)
    ensures i < |s.procs| ==>
              (InCopy(s.procs[i].pc) || Posts(s.procs[i]) > 0
               || (s.mutex > 0 && (s.procs[i].pc.PLock? || s.procs[i].pc.CLock?)))
    ensures i >= |s.procs| ==>
              (s.mutex > 0 && (s.empty > 0 || s.fill > 0)
               && forall x :: 0 <= x < |s.procs| ==> HeldToken(s.procs[x]) == 0)
  {
    StateTokens(s);
    hide Verifies, DataInv, TokensInv, Total;
    if s.mutex == 0 {
      i := TotalPositive(s.procs, Holding);
    } else if x: nat :| x < |s.procs| && HeldToken(s.procs[x]) > 0 {
      i := x;
    } else {
      i := |s.procs|;
      TotalZero(s.procs, HeldToken);
    }
  }

  /** As long as not all tokens and not the mutex have leaked, a message can still be produced or consumed. */
  lemma {:induction false} GoesOn(s: State)
    requires Inv(s) && !Stopped(s)
    ensures CanGrow(s)
    decreases Total(s.procs, Posts), MainRank(s)
  {
    hide Inv, CanGrow, Stopped, Enabled, Apply, Total, Verifies, EndStep, MainRank;
    var i := SomethingToDo(s);
    if i < |s.procs| {
      if InCopy(s.procs[i].pc) {
        CopyGoesOn(s, i);
      } else if Posts(s.procs[i]) > 0 {
        PostWorks(s, i);
        var a := Run(i, SomeMessage());
        StepKeepsInv(s, a);
        GoesOn(Apply(s, a));
        StepCanGrow(s, a);
      } else {
        LockGoesOn(s, i);
      }
    } else if s.main == Idle {
      SpawnGoesOn(s);
    } else {
      MainWaits(s);
      EndStepWorks(s);
      var a := EndStep(s);
      StepKeepsInv(s, a);
      GoesOn(Apply(s, a));
      StepCanGrow(s, a);
    }
  }

  lemma MainWaits(s: State)
    requires Inv(s) && s.main != Idle
    ensures s.main.WaitPid? && s.main.i < |s.procs|
  {
  }

  /** Exactly when no continuation of a run produces or consumes another message: when all tokens have leaked, or
      the mutex has. */
  lemma StoppedIff(run: seq<State>, acts: seq<Action>)
    requires IsRun(run, acts)
    ensures var s := run[|acts|];
            Stopped(s) <==> forall t :: Leads(s, t) ==> t.q.produced == s.q.produced && t.q.consumed == s.q.consumed
  {
    var s := run[|acts|];
    Reachable(run, acts, |acts|);
    hide Inv, Stopped, Enabled, Apply, Init;
    if Stopped(s) {
      forall t | Leads(s, t) ensures t.q.produced == s.q.produced && t.q.consumed == s.q.consumed {
        var more: seq<State>, acts': seq<Action> :| Steps(more, acts') && more[0] == s && more[|acts'|] == t;
        StoppedFrom(more, acts', |acts'|);
      }
    } else {
      GoesOn(s);
    }
  }

  predicate BetweenRounds(pc: PC) { pc.PTop? || pc.PIdle? || pc.CTop? || pc.CIdle? }

  /** Nor is there a deadlock until then: with a live producer and a live consumer some process can take its next
      step without the command loop. */
  lemma NoDeadlock(run: seq<State>, acts: seq<Action>, k: nat, i: nat, j: nat)
    requires IsRun(run, acts) && k < |run| && i < |run[k].procs| && j < |run[k].procs| && !Stopped(run[k])
    requires Producing(run[k].procs[i].pc) && !Producing(run[k].procs[j].pc) && !run[k].procs[j].pc.Dead?
    ensures exists x, m :: Enabled(run[k], Run(x, m))
  {
    Reachable(run, acts, k);
    TokenConservation(run, acts, k);
    var s := run[k];
    var m := SomeMessage();
    if s.mutex == 0 {
      var x := TotalPositive(s.procs, Holding);
      assert Enabled(s, Run(x, m));
    } else if x :| 0 <= x < |s.procs| && HeldToken(s.procs[x]) == 1 {
      assert Enabled(s, Run(x, m));
    } else if x :| 0 <= x < |s.procs| && BetweenRounds(s.procs[x].pc) {
      assert Enabled(s, Run(x, m));
    } else {
      TotalZero(s.procs, HeldToken);
      if s.empty > 0 { assert Enabled(s, Run(i, m)); } else { assert Enabled(s, Run(j, m)); }
    }
  }
}
