/** What the commands of a run say about its states: the capacity, what the command loop is doing, and which kind
    each thread is and why it ended if it did. */
module SemaphoreHistory {
  import opened Messages
  import opened Rings
  import opened SemaphoreQueue
  import opened SemaphoreProgress

  // ----- the capacity

  /** The capacity that the '+' and '-' commands given so far ask for. */
  function CapacityAsked(acts: seq<Action>, k: nat): (cap: nat)
    requires k <= |acts|
    ensures 1 <= cap <= FIXED_SIZE
  {
    if k == 0 then QUEUE_SIZE
    else
      var cap := CapacityAsked(acts, k - 1);
      match acts[k - 1]
      case Plus => if cap < FIXED_SIZE then cap + 1 else cap
      case Minus => if cap > 1 then cap - 1 else cap
      case _ => cap
  }

  /** A '+' or '-' that is under way has still to be counted. */
  function StillToCount(main: MainPC): int {
    if main.PlusLock? || main.PlusInc? then 1
    else if main.MinusWait? || main.MinusLock? || main.MinusDec? then -1 else 0
  }

  lemma StepCounts(s: State, a: Action)
    requires TokensInv(s) && Enabled(s, a)
    ensures var before, after := s.cap + StillToCount(s.main), Apply(s, a).cap + StillToCount(Apply(s, a).main);
            match a
            case Plus => after == if before < FIXED_SIZE then before + 1 else before
            case Minus => after == if before > 1 then before - 1 else before
            case _ => after == before
  {
    hide Fill, Advance, Take, Verifies;
  }

  /** In every state the capacity is what the commands so far ask for, less what the one under way has still to
      count. */
  lemma {:induction false} CapacityFollowsCommands(run: seq<State>, acts: seq<Action>, k: nat)
    requires IsRun(run, acts) && k < |run|
    ensures run[k].cap + StillToCount(run[k].main) == CapacityAsked(acts, k)
    ensures run[k].main == Idle ==> run[k].cap == CapacityAsked(acts, k)
  {
    if k > 0 {
      hide Apply, Enabled, TokensInv, DataInv, MutexInv;
      CapacityFollowsCommands(run, acts, k - 1);
      Reachable(run, acts, k - 1);
      StepCounts(run[k - 1], acts[k - 1]);
    }
  }

  // ----- the command loop

  datatype Command = None | Last(a: Action)

  predicate IsCommand(a: Action) {
    a.CreateProducer? || a.CreateConsumer? || a.Cancel? || a.Status? || a.Plus? || a.Minus?
  }

  /** The last command given. */
  function LastCommand(acts: seq<Action>, k: nat): Command
    requires k <= |acts|
  {
    if k == 0 then None else if IsCommand(acts[k - 1]) then Last(acts[k - 1]) else LastCommand(acts, k - 1)
  }

  /** Where the command loop can be while it carries out a command. */
  predicate Carries(main: MainPC, c: Command) {
    match main
    case Idle => true
    case Join(i) => c == Last(Cancel(i))
    case PlusLock => c == Last(Plus)
    case PlusInc => c == Last(Plus)
    case PlusUnlock => c == Last(Plus)
    case MinusWait => c == Last(Minus)
    case MinusLock => c == Last(Minus)
    case MinusDec => c == Last(Minus)
    case MinusUnlock => c == Last(Minus)
    case _ => c.Last? && (c.a.CreateProducer? || c.a.CreateConsumer? || c.a.Cancel? || c.a.Status?)
  }

  lemma StepCarries(s: State, a: Action, c: Command)
    requires Enabled(s, a) && Carries(s.main, c)
    ensures Carries(Apply(s, a).main, if IsCommand(a) then Last(a) else c)
  {
    hide Fill, Advance, Take, Verifies;
  }

  /** The command loop is always carrying out the last command given; in particular it waits for a free slot only
      for a '-'. */
  lemma {:induction false} LoopFollowsCommands(run: seq<State>, acts: seq<Action>, k: nat)
    requires IsRun(run, acts) && k < |run|
    ensures Carries(run[k].main, LastCommand(acts, k))
  {
    if k > 0 {
      hide Apply, Enabled, Carries, IsCommand;
      LoopFollowsCommands(run, acts, k - 1);
      StepCarries(run[k - 1], acts[k - 1], LastCommand(acts, k - 1));
    } else {
      assert Carries(Idle, None);
    }
  }

  /** A command that takes the mutex to count a thread or to show the status. */
  predicate NeedsMutex(a: Action) { a.CreateProducer? || a.CreateConsumer? || a.Cancel? || a.Status? }

  /** The command loop gives the mutex back after counting or showing. */
  predicate CountsOrShows(s: State, a: Action) { a.MainStep? && s.main.BriefHold? }

  function Needed(acts: seq<Action>, k: nat): nat
    requires k <= |acts|
  {
    if k == 0 then 0 else Needed(acts, k - 1) + (if NeedsMutex(acts[k - 1]) then 1 else 0)
  }

  function Done(run: seq<State>, acts: seq<Action>, k: nat): nat
    requires k <= |acts| <= |run|
  {
    if k == 0 then 0 else Done(run, acts, k - 1) + (if CountsOrShows(run[k - 1], acts[k - 1]) then 1 else 0)
  }

  function Pending(main: MainPC): nat { if main.BriefLock? || main.BriefHold? || main.Join? then 1 else 0 }

  lemma StepPending(s: State, a: Action)
    requires Enabled(s, a)
    ensures Pending(s.main) + (if NeedsMutex(a) then 1 else 0)
              == Pending(Apply(s, a).main) + (if CountsOrShows(s, a) then 1 else 0)
    ensures CountsOrShows(s, a) && MutexInv(s) ==> s.mutex == HeldByMain
  {
    hide Fill, Advance, Take, Verifies;
  }

  /** Each command that counts a thread or shows the status does so once, before the next command, and holding the
      mutex. */
  lemma {:induction false} CountsUnderMutex(run: seq<State>, acts: seq<Action>, k: nat)
    requires IsRun(run, acts) && k < |run|
    ensures Needed(acts, k) == Done(run, acts, k) + Pending(run[k].main)
    ensures k < |acts| && CountsOrShows(run[k], acts[k]) ==> run[k].mutex == HeldByMain
  {
    hide Apply, Enabled, NeedsMutex, CountsOrShows, DataInv, TokensInv, MutexInv, Pending;
    Reachable(run, acts, k);
    if k < |acts| { StepPending(run[k], acts[k]); }
    if k > 0 {
      CountsUnderMutex(run, acts, k - 1);
      StepPending(run[k - 1], acts[k - 1]);
    } else {
      NothingPending();
    }
  }

  lemma NothingPending()
    ensures Pending(Idle) == 0
  {
  }

  // ----- the threads

  /** Threads in the order in which they were created: true for a producer. */
  function Kinds(acts: seq<Action>, k: nat): (kinds: seq<bool>)
    requires k <= |acts|
  {
    if k == 0 then []
    else
      match acts[k - 1]
      case CreateProducer => Kinds(acts, k - 1) + [true]
      case CreateConsumer => Kinds(acts, k - 1) + [false]
      case _ => Kinds(acts, k - 1)
  }

  predicate Cancelled(acts: seq<Action>, k: nat, i: nat)
    requires k <= |acts|
  {
    k > 0 && (acts[k - 1] == Cancel(i) || Cancelled(acts, k - 1, i))
  }

  predicate FateOf(t: Thread, producer: bool, cancelled: bool) {
    (t.doomed <==> cancelled) && (if t.pc == Dead then cancelled else Producing(t.pc) <==> producer)
  }

  lemma StepFate(s: State, a: Action, i: nat, producer: bool, cancelled: bool)
    requires Enabled(s, a) && i < |s.threads| && FateOf(s.threads[i], producer, cancelled)
    ensures i < |Apply(s, a).threads|
    ensures FateOf(Apply(s, a).threads[i], producer, a == Cancel(i) || cancelled)
  {
    hide Fill, Advance, Take, Verifies;
  }

  lemma StepCreates(s: State, a: Action)
    requires Enabled(s, a)
    ensures var n := |s.threads|;
            if a.CreateProducer? || a.CreateConsumer?
            then |Apply(s, a).threads| == n + 1 && FateOf(Apply(s, a).threads[n], a.CreateProducer?, false)
            else |Apply(s, a).threads| == n
    ensures a.Cancel? ==> a.i < |s.threads|
  {
    hide Fill, Advance, Take, Verifies;
  }

  lemma {:induction false} FateBefore(run: seq<State>, acts: seq<Action>, k: nat, i: nat)
    requires IsRun(run, acts) && k < |run| && i >= |run[k].threads|
    ensures !Cancelled(acts, k, i)
  {
    if k > 0 {
      hide Apply, Enabled;
      StepCreates(run[k - 1], acts[k - 1]);
      FateBefore(run, acts, k - 1, i);
    }
  }

  /** The fate of every thread: a live one is of the kind it was created as, and a thread ends only if it was
      cancelled. */
  lemma {:induction false} FatesExplained(run: seq<State>, acts: seq<Action>, k: nat, i: nat)
    requires IsRun(run, acts) && k < |run|
    ensures |run[k].threads| == |Kinds(acts, k)|
    ensures i < |run[k].threads| ==> FateOf(run[k].threads[i], Kinds(acts, k)[i], Cancelled(acts, k, i))
  {
    if k > 0 {
      hide Apply, Enabled, FateOf;
      FatesExplained(run, acts, k - 1, i);
      var s, a := run[k - 1], acts[k - 1];
      StepCreates(s, a);
      if i < |s.threads| {
        StepFate(s, a, i, Kinds(acts, k - 1)[i], Cancelled(acts, k - 1, i));
      } else {
        FateBefore(run, acts, k - 1, i);
      }
    }
  }

  // ----- the message a consumer checks

  predicate CarriesConsumed(s: State, pc: PC) { pc.CUnlock? || pc.CPost? || pc.CIdle? ==> pc.msg in s.q.consumed }

  lemma StepKeepsCarried(s: State, a: Action)
    requires Enabled(s, a) && forall i :: 0 <= i < |s.threads| ==> CarriesConsumed(s, s.threads[i].pc)
    ensures var s' := Apply(s, a); forall i :: 0 <= i < |s'.threads| ==> CarriesConsumed(s', s'.threads[i].pc)
  {
    hide Fill, Advance, Take, Verifies;
    var s' := Apply(s, a);
    ConsumedGrows(s, a);
    forall i | 0 <= i < |s'.threads| ensures CarriesConsumed(s', s'.threads[i].pc) {
      if i < |s.threads| { assert CarriesConsumed(s, s.threads[i].pc); }
    }
  }

  lemma ConsumedGrows(s: State, a: Action)
    requires Enabled(s, a)
    ensures forall m :: m in s.q.consumed ==> m in Apply(s, a).q.consumed
    ensures a.Run? && s.threads[a.i].pc.CAdvance? ==> s.threads[a.i].pc.msg in Apply(s, a).q.consumed
  {
    hide Enabled, Apply;
    HistoryChange(s, a);
  }

  lemma {:induction false} AllCarry(run: seq<State>, acts: seq<Action>, k: nat)
    requires IsRun(run, acts) && k < |run|
    ensures forall i :: 0 <= i < |run[k].threads| ==> CarriesConsumed(run[k], run[k].threads[i].pc)
  {
    if k > 0 {
      hide Apply, Enabled, CarriesConsumed;
      AllCarry(run, acts, k - 1);
      StepKeepsCarried(run[k - 1], acts[k - 1]);
    }
  }

  /** The message whose hash a consumer checks after its turn is one that was consumed, and it verifies. */
  lemma CheckedMessageVerifies(run: seq<State>, acts: seq<Action>, k: nat, i: nat)
    requires IsRun(run, acts) && k < |run| && i < |run[k].threads| && run[k].threads[i].pc.CIdle?
    ensures run[k].threads[i].pc.msg in run[k].q.consumed && Verifies(run[k].threads[i].pc.msg)
  {
    hide Apply, Enabled, Verifies;
    AllCarry(run, acts, k);
    FirstInFirstOut(run, acts, k);
  }

  // ----- turns

  /** The step is thread `i` producing or consuming a message. */
  predicate TakesMessage(s: State, a: Action, i: nat)
    requires Enabled(s, a)
  {
    a.Run? && a.i == i
    && (|Apply(s, a).q.produced| > |s.q.produced| || |Apply(s, a).q.consumed| > |s.q.consumed|)
  }

  /** The step is thread `i` reporting its message and sleeping. */
  predicate ReportsMessage(s: State, a: Action, i: nat) {
    a.Run? && a.i == i && i < |s.threads| && (s.threads[i].pc.PIdle? || s.threads[i].pc.CIdle?)
  }

  /** How many messages thread `i` has produced or consumed. */
  function Taken(run: seq<State>, acts: seq<Action>, k: nat, i: nat): nat
    requires k <= |acts| <= |run| && forall j :: 0 <= j < k ==> Enabled(run[j], acts[j])
  {
    if k == 0 then 0 else Taken(run, acts, k - 1, i) + (if TakesMessage(run[k - 1], acts[k - 1], i) then 1 else 0)
  }

  function Reported(run: seq<State>, acts: seq<Action>, k: nat, i: nat): nat
    requires k <= |acts| <= |run|
  {
    if k == 0 then 0 else Reported(run, acts, k - 1, i) + (if ReportsMessage(run[k - 1], acts[k - 1], i) then 1 else 0)
  }

  /** A message taken and not yet reported. */
  function ToReport(pc: PC): nat {
    if pc.PUnlock? || pc.PPost? || pc.PIdle? || pc.CUnlock? || pc.CPost? || pc.CIdle? then 1 else 0
  }

  lemma StepTurns(s: State, a: Action, i: nat)
    requires Enabled(s, a) && i < |s.threads| <= |Apply(s, a).threads| && Apply(s, a).threads[i].pc != Dead
    ensures ToReport(s.threads[i].pc) + (if TakesMessage(s, a, i) then 1 else 0)
              == ToReport(Apply(s, a).threads[i].pc) + (if ReportsMessage(s, a, i) then 1 else 0)
  {
    hide Verifies;
  }

  /** Nothing is taken or reported before the thread exists; then it starts with nothing to report. */
  lemma {:induction false} NoTurnsBefore(run: seq<State>, acts: seq<Action>, k: nat, i: nat)
    requires IsRun(run, acts) && k < |run| && i >= |run[k].threads|
    ensures Taken(run, acts, k, i) == 0 && Reported(run, acts, k, i) == 0
    ensures k < |acts| && i < |run[k + 1].threads| ==> ToReport(run[k + 1].threads[i].pc) == 0
  {
    if k > 0 {
      NewIsIdle(run[k - 1], acts[k - 1], i);
      NoTurnsBefore(run, acts, k - 1, i);
    }
    if k < |acts| { NewIsIdle(run[k], acts[k], i); }
    hide Enabled, Apply, ToReport, TakesMessage, ReportsMessage;
  }

  lemma NewIsIdle(s: State, a: Action, i: nat)
    requires Enabled(s, a)
    ensures |s.threads| <= |Apply(s, a).threads|
    ensures i >= |s.threads| ==>
              (!TakesMessage(s, a, i) && !ReportsMessage(s, a, i)
               && (i < |Apply(s, a).threads| ==> ToReport(Apply(s, a).threads[i].pc) == 0))
  {
    hide Verifies, Fill, Advance, Take;
  }

  /** A thread reports every message it takes, once, before it takes the next: up to the one in hand it has reported
      as many as it has produced or consumed. */
  lemma {:induction false} TurnsAreReported(run: seq<State>, acts: seq<Action>, k: nat, i: nat)
    requires IsRun(run, acts) && k < |run| && i < |run[k].threads| && run[k].threads[i].pc != Dead
    ensures Taken(run, acts, k, i) == Reported(run, acts, k, i) + ToReport(run[k].threads[i].pc)
  {
    hide Apply, Enabled, TakesMessage, ReportsMessage, ToReport;
    if k > 0 {
      var s, a := run[k - 1], acts[k - 1];
      NewIsIdle(s, a, i);
      if i < |s.threads| {
        DeadStay(s, a, i);
        TurnsAreReported(run, acts, k - 1, i);
        StepTurns(s, a, i);
      } else {
        NoTurnsBefore(run, acts, k - 1, i);
      }
    }
  }

  lemma DeadStay(s: State, a: Action, i: nat)
    requires Enabled(s, a) && i < |s.threads| <= |Apply(s, a).threads| && Apply(s, a).threads[i].pc != Dead
    ensures s.threads[i].pc != Dead
  {
    hide Verifies, Fill, Advance, Take;
  }
}
