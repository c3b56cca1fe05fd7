/** What the commands of a run say about its states: the capacity, what the command loop is doing, and which kind
    each thread is. */
module ConditionHistory {
  import opened Messages
  import opened Rings
  import opened ConditionQueue

  // ----- the capacity

  /** The capacity that the '+' and '-' commands given so far ask for. */
  function CapacityAsked(acts: seq<Action>, k: nat): (cap: nat)
    requires k <= |acts|
    ensures 1 <= cap <= FIXED_SIZE
  {
    if k == 0 then INITIAL_QUEUE_SIZE
    else
      var cap := CapacityAsked(acts, k - 1);
      match acts[k - 1]
      case Plus => if cap < FIXED_SIZE then cap + 1 else cap
      case Minus => if cap > 1 then cap - 1 else cap
      case _ => cap
  }

  /** What the capacity will be once the command under way has done its test. */
  function WillBe(s: State): int {
    if (s.main.PlusLock? || s.main.PlusTest?) && s.cap < FIXED_SIZE then s.cap + 1
    else if (s.main.MinusLock? || s.main.MinusTest?) && s.cap > 1 then s.cap - 1 else s.cap
  }

  lemma StepCounts(s: State, a: Action)
    requires Enabled(s, a)
    ensures match a
            case Plus => WillBe(Apply(s, a)) == if WillBe(s) < FIXED_SIZE then WillBe(s) + 1 else WillBe(s)
            case Minus => WillBe(Apply(s, a)) == if WillBe(s) > 1 then WillBe(s) - 1 else WillBe(s)
            case _ => WillBe(Apply(s, a)) == WillBe(s)
  {
    hide Fill, Advance, Take, Verifies, Used, SignalChoice, Signal;
  }

  /** In every state the capacity is what the commands so far ask for, once the one under way has made its test. */
  lemma {:induction false} CapacityFollowsCommands(run: seq<State>, acts: seq<Action>, k: nat)
    requires IsRun(run, acts) && k < |run|
    ensures WillBe(run[k]) == CapacityAsked(acts, k)
    ensures run[k].main == Idle ==> run[k].cap == CapacityAsked(acts, k)
  {
    if k > 0 {
      hide Apply, Enabled;
      CapacityFollowsCommands(run, acts, k - 1);
      StepCounts(run[k - 1], acts[k - 1]);
    }
  }

  // ----- the command loop

  datatype Command = None | Last(a: Action)

  predicate IsCommand(a: Action) {
    a.CreateProducer? || a.CreateConsumer? || a.Status? || a.Plus? || a.Minus?
  }

  /** The last command given. */
  function LastCommand(acts: seq<Action>, k: nat): Command
    requires k <= |acts|
  {
    if k == 0 then None else if IsCommand(acts[k - 1]) then Last(acts[k - 1]) else LastCommand(acts, k - 1)
  }

  /** Where the command loop can be while it carries out a command. */
  predicate Carries(main: MainPC, c: Command) {
    match main
    case Idle => true
    case PlusLock => c == Last(Plus)
    case PlusTest => c == Last(Plus)
    case PlusSignal => c == Last(Plus)
    case PlusUnlock => c == Last(Plus)
    case MinusLock => c == Last(Minus)
    case MinusTest => c == Last(Minus)
    case MinusUnlock => c == Last(Minus)
    case _ => c.Last? && (c.a.CreateProducer? || c.a.CreateConsumer? || c.a.Status?)
  }

  lemma StepCarries(s: State, a: Action, c: Command)
    requires Enabled(s, a) && Carries(s.main, c)
    ensures Carries(Apply(s, a).main, if IsCommand(a) then Last(a) else c)
  {
    hide Fill, Advance, Take, Verifies, Used, SignalChoice;
  }

  /** The command loop is always carrying out the last command given. */
  lemma {:induction false} LoopFollowsCommands(run: seq<State>, acts: seq<Action>, k: nat)
    requires IsRun(run, acts) && k < |run|
    ensures Carries(run[k].main, LastCommand(acts, k))
  {
    if k > 0 {
      hide Apply, Enabled, Carries, IsCommand;
      LoopFollowsCommands(run, acts, k - 1);
      StepCarries(run[k - 1], acts[k - 1], LastCommand(acts, k - 1));
    } else {
      assert Carries(Idle, None);
    }
  }

  /** A command that takes the mutex to count a thread or to show the status. */
  predicate NeedsMutex(a: Action) { a.CreateProducer? || a.CreateConsumer? || a.Status? }

  /** The command loop gives the mutex back after counting or showing. */
  predicate CountsOrShows(s: State, a: Action) { a.MainStep? && s.main.BriefHold? }

  function Needed(acts: seq<Action>, k: nat): nat
    requires k <= |acts|
  {
    if k == 0 then 0 else Needed(acts, k - 1) + (if NeedsMutex(acts[k - 1]) then 1 else 0)
  }

  function Done(run: seq<State>, acts: seq<Action>, k: nat): nat
    requires k <= |acts| <= |run|
  {
    if k == 0 then 0 else Done(run, acts, k - 1) + (if CountsOrShows(run[k - 1], acts[k - 1]) then 1 else 0)
  }

  function Pending(main: MainPC): nat { if main.BriefLock? || main.BriefHold? then 1 else 0 }

  lemma StepPending(s: State, a: Action)
    requires Enabled(s, a)
    ensures Pending(s.main) + (if NeedsMutex(a) then 1 else 0)
              == Pending(Apply(s, a).main) + (if CountsOrShows(s, a) then 1 else 0)
    ensures CountsOrShows(s, a) && MutexInv(s) ==> s.mutex == HeldByMain
  {
    hide Fill, Advance, Take, Verifies, Used, SignalChoice, Signal;
  }

  /** Each command that counts a thread or shows the status does so once, before the next command, and holding the
      mutex. */
  lemma {:induction false} CountsUnderMutex(run: seq<State>, acts: seq<Action>, k: nat)
    requires IsRun(run, acts) && k < |run|
    ensures Needed(acts, k) == Done(run, acts, k) + Pending(run[k].main)
    ensures k < |acts| && CountsOrShows(run[k], acts[k]) ==> run[k].mutex == HeldByMain
  {
    hide Apply, Enabled, NeedsMutex, CountsOrShows, MutexInv, Pending;
    MutexReachable(run, acts, k);
    if k < |acts| { StepPending(run[k], acts[k]); }
    if k > 0 {
      CountsUnderMutex(run, acts, k - 1);
      StepPending(run[k - 1], acts[k - 1]);
    } else {
      NothingPending();
    }
  }

  lemma NothingPending()
    ensures Pending(Idle) == 0
  {
  }

  // ----- the threads

  /** Threads in the order in which they were created: true for a producer. */
  function Kinds(acts: seq<Action>, k: nat): (kinds: seq<bool>)
    requires k <= |acts|
  {
    if k == 0 then []
    else
      match acts[k - 1]
      case CreateProducer => Kinds(acts, k - 1) + [true]
      case CreateConsumer => Kinds(acts, k - 1) + [false]
      case _ => Kinds(acts, k - 1)
  }

  lemma StepKinds(s: State, a: Action, i: nat)
    requires Enabled(s, a)
    ensures var n, s' := |s.threads|, Apply(s, a);
            && |s'.threads| == (if a.CreateProducer? || a.CreateConsumer? then n + 1 else n)
            && (i < n ==> Producing(s'.threads[i]) == Producing(s.threads[i]))
            && (a.CreateProducer? ==> Producing(s'.threads[n])) && (a.CreateConsumer? ==> !Producing(s'.threads[n]))
  {
    hide Fill, Advance, Take, Verifies, Used, SignalChoice;
  }

  /** Every thread stays of the kind it was created as. */
  lemma {:induction false} KindsStay(run: seq<State>, acts: seq<Action>, k: nat, i: nat)
    requires IsRun(run, acts) && k < |run|
    ensures |run[k].threads| == |Kinds(acts, k)|
    ensures i < |run[k].threads| ==> Producing(run[k].threads[i]) == Kinds(acts, k)[i]
  {
    if k > 0 {
      hide Apply, Enabled, Producing;
      KindsStay(run, acts, k - 1, i);
      StepKinds(run[k - 1], acts[k - 1], i);
    }
  }

  predicate IsAsleep(pc: PC) { pc == PAsleep || pc == CAsleep }

  predicate IsWoken(pc: PC) { pc == PWoken || pc == CWoken }

  lemma StepWakes(s: State, a: Action, i: nat)
    requires Enabled(s, a) && i < |s.threads|
    ensures i < |Apply(s, a).threads|
    ensures var before, after := s.threads[i], Apply(s, a).threads[i];
            && (IsWoken(after) && !IsWoken(before) ==> IsAsleep(before))
            && (IsAsleep(before) && !IsAsleep(after) ==> IsWoken(after))
            && (a == Spurious(i) ==> IsWoken(after)) && Producing(after) == Producing(before)
  {
    hide Used, SignalChoice, Verifies, Fill, Advance, Take;
  }

  /** Woken means woken: a thread is woken only out of its sleep, leaves its sleep only woken, and a spurious wakeup
      wakes it. */
  lemma SleepersAreWoken(run: seq<State>, acts: seq<Action>, k: nat, i: nat)
    requires IsRun(run, acts) && k < |acts| && i < |run[k].threads|
    ensures i < |run[k + 1].threads|
    ensures IsWoken(run[k + 1].threads[i]) && !IsWoken(run[k].threads[i]) ==> IsAsleep(run[k].threads[i])
    ensures IsAsleep(run[k].threads[i]) && !IsAsleep(run[k + 1].threads[i]) ==> IsWoken(run[k + 1].threads[i])
    ensures acts[k] == Spurious(i) ==> IsWoken(run[k + 1].threads[i])
    ensures Producing(run[k + 1].threads[i]) == Producing(run[k].threads[i])
  {
    hide Enabled, Apply, Init, IsWoken, IsAsleep, Producing;
    StepWakes(run[k], acts[k], i);
  }

  // ----- the message a consumer checks

  predicate CarriesConsumed(s: State, pc: PC) { pc.CSignal? || pc.CUnlock? || pc.CIdle? ==> pc.msg in s.q.consumed }

  lemma StepKeepsCarried(s: State, a: Action)
    requires Enabled(s, a) && forall i :: 0 <= i < |s.threads| ==> CarriesConsumed(s, s.threads[i])
    ensures var s' := Apply(s, a); forall i :: 0 <= i < |s'.threads| ==> CarriesConsumed(s', s'.threads[i])
  {
    hide Fill, Advance, Take, Verifies, Used, SignalChoice;
    var s' := Apply(s, a);
    ConsumedGrows(s, a);
    forall i | 0 <= i < |s'.threads| ensures CarriesConsumed(s', s'.threads[i]) {
      if i < |s.threads| { assert CarriesConsumed(s, s.threads[i]); }
    }
  }

  lemma ConsumedGrows(s: State, a: Action)
    requires Enabled(s, a)
    ensures forall m :: m in s.q.consumed ==> m in Apply(s, a).q.consumed
    ensures a.Run? && s.threads[a.i].CAdvance? ==> s.threads[a.i].msg in Apply(s, a).q.consumed
  {
    hide Enabled, Apply;
    HistoryChange(s, a);
  }

  lemma {:induction false} AllCarry(run: seq<State>, acts: seq<Action>, k: nat)
    requires IsRun(run, acts) && k < |run|
    ensures forall i :: 0 <= i < |run[k].threads| ==> CarriesConsumed(run[k], run[k].threads[i])
  {
    if k > 0 {
      hide Apply, Enabled, CarriesConsumed;
      AllCarry(run, acts, k - 1);
      StepKeepsCarried(run[k - 1], acts[k - 1]);
    }
  }

  /** The message whose hash a consumer checks after its turn is one that was consumed, and it verifies. */
  lemma CheckedMessageVerifies(run: seq<State>, acts: seq<Action>, k: nat, i: nat)
    requires IsRun(run, acts) && k < |run| && i < |run[k].threads| && run[k].threads[i].CIdle?
    requires Within(run, k, FIXED_SIZE - 1)
    ensures run[k].threads[i].msg in run[k].q.consumed && Verifies(run[k].threads[i].msg)
  {
    hide Apply, Enabled, Verifies;
    AllCarry(run, acts, k);
    FirstInFirstOut(run, acts, k);
  }

  // ----- turns

  /** The step is thread `i` producing or consuming a message. */
  predicate TakesMessage(s: State, a: Action, i: nat)
    requires Enabled(s, a)
  {
    a.Run? && a.i == i
    && (|Apply(s, a).q.produced| > |s.q.produced| || |Apply(s, a).q.consumed| > |s.q.consumed|)
  }

  /** The step is thread `i` reporting its message and sleeping. */
  predicate ReportsMessage(s: State, a: Action, i: nat) {
    a.Run? && a.i == i && i < |s.threads| && (s.threads[i].PIdle? || s.threads[i].CIdle?)
  }

  /** How many messages thread `i` has produced or consumed. */
  function Taken(run: seq<State>, acts: seq<Action>, k: nat, i: nat): nat
    requires k <= |acts| <= |run| && forall j :: 0 <= j < k ==> Enabled(run[j], acts[j])
  {
    if k == 0 then 0 else Taken(run, acts, k - 1, i) + (if TakesMessage(run[k - 1], acts[k - 1], i) then 1 else 0)
  }

  function Reported(run: seq<State>, acts: seq<Action>, k: nat, i: nat): nat
    requires k <= |acts| <= |run|
  {
    if k == 0 then 0 else Reported(run, acts, k - 1, i) + (if ReportsMessage(run[k - 1], acts[k - 1], i) then 1 else 0)
  }

  /** A message taken and not yet reported. */
  function ToReport(pc: PC): nat {
    if pc.PSignal? || pc.PUnlock? || pc.PIdle? || pc.CSignal? || pc.CUnlock? || pc.CIdle? then 1 else 0
  }

  lemma StepTurns(s: State, a: Action, i: nat)
    requires Enabled(s, a) && i < |s.threads| <= |Apply(s, a).threads|
    ensures ToReport(s.threads[i]) + (if TakesMessage(s, a, i) then 1 else 0)
              == ToReport(Apply(s, a).threads[i]) + (if ReportsMessage(s, a, i) then 1 else 0)
  {
    hide Verifies, Used, SignalChoice;
  }

  /** Nothing is taken or reported before the thread exists; then it starts with nothing to report. */
  lemma {:induction false} NoTurnsBefore(run: seq<State>, acts: seq<Action>, k: nat, i: nat)
    requires IsRun(run, acts) && k < |run| && i >= |run[k].threads|
    ensures Taken(run, acts, k, i) == 0 && Reported(run, acts, k, i) == 0
    ensures k < |acts| && i < |run[k + 1].threads| ==> ToReport(run[k + 1].threads[i]) == 0
  {
    if k > 0 {
      NewIsIdle(run[k - 1], acts[k - 1], i);
      NoTurnsBefore(run, acts, k - 1, i);
    }
    if k < |acts| { NewIsIdle(run[k], acts[k], i); }
    hide Enabled, Apply, ToReport, TakesMessage, ReportsMessage;
  }

  lemma NewIsIdle(s: State, a: Action, i: nat)
    requires Enabled(s, a)
    ensures |s.threads| <= |Apply(s, a).threads|
    ensures i >= |s.threads| ==>
              (!TakesMessage(s, a, i) && !ReportsMessage(s, a, i)
               && (i < |Apply(s, a).threads| ==> ToReport(Apply(s, a).threads[i]) == 0))
  {
    hide Verifies, Fill, Advance, Take, Used, SignalChoice;
  }

  /** A thread reports every message it takes, once, before it takes the next: up to the one in hand it has reported
      as many as it has produced or consumed. */
  lemma {:induction false} TurnsAreReported(run: seq<State>, acts: seq<Action>, k: nat, i: nat)
    requires IsRun(run, acts) && k < |run| && i < |run[k].threads|
    ensures Taken(run, acts, k, i) == Reported(run, acts, k, i) + ToReport(run[k].threads[i])
  {
    hide Apply, Enabled, TakesMessage, ReportsMessage, ToReport;
    if k > 0 {
      var s, a := run[k - 1], acts[k - 1];
      NewIsIdle(s, a, i);
      if i < |s.threads| {
        TurnsAreReported(run, acts, k - 1, i);
        StepTurns(s, a, i);
      } else {
        NoTurnsBefore(run, acts, k - 1, i);
      }
    }
  }
}
