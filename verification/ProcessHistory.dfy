/** What the actions of a run say about its processes: which kind each is, why it ended if it did, and that one that
    has not been told to end can always take another turn. */
module ProcessHistory {
  import opened Messages
  import opened Rings
  import opened Tally
  import opened ProcessQueue

  // ----- the fate of a process

  /** Processes in the order in which they were spawned: true for a producer. */
  function Kinds(acts: seq<Action>, k: nat): (kinds: seq<bool>)
    requires k <= |acts|
  {
    if k == 0 then []
    else
      match acts[k - 1]
      case SpawnProducer => Kinds(acts, k - 1) + [true]
      case SpawnConsumer => Kinds(acts, k - 1) + [false]
      case _ => Kinds(acts, k - 1)
  }

  predicate Tells(a: Action, i: nat) { a == Signalled(i) || a == Kill(i) }

  /** Process `i` has been sent a signal. */
  predicate Told(acts: seq<Action>, k: nat, i: nat)
    requires k <= |acts|
  {
    k > 0 && (Tells(acts[k - 1], i) || Told(acts, k - 1, i))
  }

  predicate AtFirstWait(pc: PC) { pc == PWait || pc == CWait }

  /** A failure of process `i` other than an interruption of its first wait. */
  predicate Fatal(s: State, a: Action, i: nat) {
    a.Fail? && a.i == i && i < |s.procs| && !(a.interrupted && AtFirstWait(s.procs[i].pc))
  }

  predicate FailedFatally(run: seq<State>, acts: seq<Action>, k: nat, i: nat)
    requires k <= |acts| <= |run|
  {
    k > 0 && (Fatal(run[k - 1], acts[k - 1], i) || FailedFatally(run, acts, k - 1, i))
  }

  /** A consumer past its turn carries a message that was consumed. */
  predicate CarriesConsumed(s: State, pc: PC) { pc.CUnlock? || pc.CPost? || pc.CIdle? ==> pc.msg in s.q.consumed }

  predicate FateOf(p: Process, producer: bool, told: bool, failed: bool) {
    && (p.term <==> told)
    && (failed ==> p.pc.Dead?)
    && (p.pc.Dead? ==> told || failed)
    && (!p.pc.Dead? ==> (Producing(p.pc) <==> producer))
  }

  lemma RunFate(s: State, i: nat, m: Message, producer: bool, told: bool, failed: bool)
    requires i < |s.procs| && CanRun(s, s.procs[i].pc) && FateOf(s.procs[i], producer, told, failed)
    ensures |RunStep(s, i, m).procs| == |s.procs| && FateOf(RunStep(s, i, m).procs[i], producer, told, failed)
  {
    hide Fill, Advance, Take;
  }

  lemma OthersFate(s: State, i: nat, m: Message, j: nat)
    requires i < |s.procs| && CanRun(s, s.procs[i].pc) && j < |s.procs| && j != i
    ensures |RunStep(s, i, m).procs| == |s.procs| && RunStep(s, i, m).procs[j] == s.procs[j]
  {
    hide Fill, Advance, Take;
  }

  lemma StepFate(s: State, a: Action, i: nat, producer: bool, told: bool, failed: bool)
    requires Enabled(s, a) && i < |s.procs| && FateOf(s.procs[i], producer, told, failed)
    ensures i < |Apply(s, a).procs|
    ensures FateOf(Apply(s, a).procs[i], producer, Tells(a, i) || told, Fatal(s, a, i) || failed)
  {
    hide RunStep, CanRun, Verifies;
    if a.Run? {
      if a.i == i { RunFate(s, i, a.m, producer, told, failed); } else { OthersFate(s, a.i, a.m, i); }
    }
  }

  lemma StepSpawns(s: State, a: Action)
    requires Enabled(s, a)
    ensures var n := |s.procs|;
            if a.SpawnProducer? || a.SpawnConsumer?
            then |Apply(s, a).procs| == n + 1 && FateOf(Apply(s, a).procs[n], a.SpawnProducer?, false, false)
            else |Apply(s, a).procs| == n
  {
    hide Fill, Advance, Take, Verifies;
  }

  /** Nothing is told and nothing fails before it is spawned. */
  lemma {:induction false} FateBefore(run: seq<State>, acts: seq<Action>, k: nat, i: nat)
    requires IsRun(run, acts) && k < |run| && i >= |run[k].procs|
    ensures !Told(acts, k, i) && !FailedFatally(run, acts, k, i)
  {
    if k > 0 {
      hide Apply;
      StepSpawns(run[k - 1], acts[k - 1]);
      FateBefore(run, acts, k - 1, i);
    }
  }

  /** The fate of every process: its kind is the one it was spawned as; its termination flag is set exactly if it was
      sent a signal; it is dead only if it was sent a signal or failed fatally, and always if it failed fatally. */
  lemma {:induction false} FatesExplained(run: seq<State>, acts: seq<Action>, k: nat, i: nat)
    requires IsRun(run, acts) && k < |run|
    ensures |run[k].procs| == |Kinds(acts, k)|
    ensures i < |run[k].procs| ==>
              FateOf(run[k].procs[i], Kinds(acts, k)[i], Told(acts, k, i), FailedFatally(run, acts, k, i))
  {
    hide Apply, Enabled, FateOf, Tells, Fatal;
    if k > 0 {
      FatesExplained(run, acts, k - 1, i);
      var s, a := run[k - 1], acts[k - 1];
      StepSpawns(s, a);
      if i < |s.procs| {
        StepFate(s, a, i, Kinds(acts, k - 1)[i], Told(acts, k - 1, i), FailedFatally(run, acts, k - 1, i));
      } else {
        FateBefore(run, acts, k - 1, i);
        SpawnTellsNobody(s, a, i);
      }
    }
  }

  lemma SpawnTellsNobody(s: State, a: Action, i: nat)
    requires Enabled(s, a) && i >= |s.procs|
    ensures !Tells(a, i) && !Fatal(s, a, i)
  {
  }

  /** The command loop has sent process `i` SIGTERM. */
  predicate Killed(acts: seq<Action>, k: nat, i: nat)
    requires k <= |acts|
  {
    k > 0 && (acts[k - 1] == Kill(i) || Killed(acts, k - 1, i))
  }

  lemma StepKills(s: State, a: Action, i: nat)
    requires Enabled(s, a)
    ensures var s' := Apply(s, a);
            && |s.procs| <= |s'.procs| && (a == Kill(i) ==> i < |s.procs|)
            && (i < |s.procs| && (a == Kill(i) || s.main == WaitPid(i) || s.procs[i].pc.Dead?) ==>
                  s'.main == WaitPid(i) || s'.procs[i].pc.Dead?)
  {
    hide Fill, Advance, Take, Verifies;
  }

  /** A process the command loop has killed is gone when the loop goes on: it is dead, or still waited for. */
  lemma {:induction false} KilledAreGone(run: seq<State>, acts: seq<Action>, k: nat, i: nat)
    requires IsRun(run, acts) && k < |run| && Killed(acts, k, i)
    ensures i < |run[k].procs| && (run[k].procs[i].pc.Dead? || run[k].main == WaitPid(i))
  {
    hide Apply, Enabled;
    StepKills(run[k - 1], acts[k - 1], i);
    if Killed(acts, k - 1, i) { KilledAreGone(run, acts, k - 1, i); }
  }

  lemma StepCarries(s: State, a: Action)
    requires Enabled(s, a) && forall i :: 0 <= i < |s.procs| ==> CarriesConsumed(s, s.procs[i].pc)
    ensures var s' := Apply(s, a); forall i :: 0 <= i < |s'.procs| ==> CarriesConsumed(s', s'.procs[i].pc)
  {
    hide Fill, Advance, Take, Verifies;
    var s' := Apply(s, a);
    HistoryChange(s, a);
    ConsumedGrows(s, a);
    forall i | 0 <= i < |s'.procs| ensures CarriesConsumed(s', s'.procs[i].pc) {
      if i < |s.procs| { assert CarriesConsumed(s, s.procs[i].pc); }
    }
  }

  lemma ConsumedGrows(s: State, a: Action)
    requires Enabled(s, a)
    ensures forall m :: m in s.q.consumed ==> m in Apply(s, a).q.consumed
    ensures a.Run? && s.procs[a.i].pc.CAdvance? ==> s.procs[a.i].pc.msg in Apply(s, a).q.consumed
  {
    hide Enabled, Apply;
    HistoryChange(s, a);
  }

  lemma {:induction false} AllCarry(run: seq<State>, acts: seq<Action>, k: nat)
    requires IsRun(run, acts) && k < |run|
    ensures forall i :: 0 <= i < |run[k].procs| ==> CarriesConsumed(run[k], run[k].procs[i].pc)
  {
    if k > 0 {
      hide Apply, Enabled, CarriesConsumed;
      AllCarry(run, acts, k - 1);
      StepCarries(run[k - 1], acts[k - 1]);
    }
  }

  /** The message whose hash a consumer checks after its turn is one that was consumed, and it verifies. */
  lemma CheckedMessageVerifies(run: seq<State>, acts: seq<Action>, k: nat, i: nat)
    requires IsRun(run, acts) && k < |run| && i < |run[k].procs| && run[k].procs[i].pc.CIdle?
    ensures run[k].procs[i].pc.msg in run[k].q.consumed && Verifies(run[k].procs[i].pc.msg)
  {
    hide Apply, Enabled, Verifies;
    AllCarry(run, acts, k);
    FirstInFirstOut(run, acts, k);
  }

  // ----- another turn of a given process

  /** In some continuation process `i`, undisturbed, produces or consumes a message itself. */
  ghost predicate CanTurn(s: State, i: nat) {
    exists run: seq<State>, acts: seq<Action> ::
      Steps(run, acts) && run[0] == s && |acts| > 0 && TurnOf(run, acts, i) && Undisturbed(acts, i)
  }

  /** The last step is process `i` producing or consuming a message. */
  predicate TurnOf(run: seq<State>, acts: seq<Action>, i: nat)
    requires |run| == |acts| + 1 && |acts| > 0
  {
    var n := |acts| - 1;
    acts[n].Run? && acts[n].i == i && Grown(run[n], run[n + 1])
  }

  predicate Disturbs(a: Action, i: nat) { Tells(a, i) || (a.Fail? && a.i == i) }

  predicate Undisturbed(acts: seq<Action>, i: nat) { forall k :: 0 <= k < |acts| ==> !Disturbs(acts[k], i) }

  lemma TurnNow(s: State, a: Action, i: nat)
    requires Enabled(s, a) && a.Run? && a.i == i && Grown(s, Apply(s, a))
    ensures CanTurn(s, i)
  {
    hide Enabled, Apply, Grown;
    assert Steps([s, Apply(s, a)], [a]) && TurnOf([s, Apply(s, a)], [a], i) && Undisturbed([a], i);
  }

  lemma TurnLater(s: State, a: Action, i: nat)
    requires Enabled(s, a) && !Disturbs(a, i) && CanTurn(Apply(s, a), i)
    ensures CanTurn(s, i)
  {
    hide Enabled, Apply, Grown, Disturbs;
    var run: seq<State>, acts: seq<Action> :|
      Steps(run, acts) && run[0] == Apply(s, a) && |acts| > 0 && TurnOf(run, acts, i) && Undisturbed(acts, i);
    var run', acts' := [s] + run, [a] + acts;
    forall k | 0 <= k < |acts'|
      ensures Enabled(run'[k], acts'[k]) && run'[k + 1] == Apply(run'[k], acts'[k]) && !Disturbs(acts'[k], i)
    {
      if k > 0 { assert run'[k] == run[k - 1] && run'[k + 1] == run[k] && acts'[k] == acts[k - 1]; }
    }
    var n := |acts| - 1;
    assert acts'[n + 1] == acts[n] && run'[n + 1] == run[n] && run'[n + 2] == run[n + 1];
    assert Steps(run', acts') && TurnOf(run', acts', i) && Undisturbed(acts', i);
  }

  /** Between two turns, holding nothing. */
  predicate Ready(p: Process) {
    p.pc.PWait? || p.pc.CWait? || (!p.term && (p.pc.PTop? || p.pc.CTop? || p.pc.PIdle? || p.pc.CIdle?))
  }

  lemma IndicesInRing(s: State)
    requires DataInv(s)
    ensures s.q.head < |s.q.slots| && s.q.tail < |s.q.slots|
  {
  }

  /** Steps to the end of the turn. */
  function StepsToTurn(pc: PC): nat {
    match pc
    case PIdle => 6
    case PTop => 5
    case PWait => 4
    case PLock => 3
    case PFill => 2
    case CIdle(_) => 6
    case CTop => 5
    case CWait => 4
    case CLock => 3
    case CRead => 2
    case _ => 1
  }

  predicate TokenFor(s: State, pc: PC) { if Producing(pc) then s.empty > 0 else s.fill > 0 }

  /** A process that has its token, or finds one free, and is not kept out by the mutex takes its turn. */
  lemma {:induction false} TakesTurn(s: State, i: nat)
    requires Inv(s) && i < |s.procs|
    requires InCopy(s.procs[i].pc)
             || (s.mutex > 0 && (s.procs[i].pc.PLock? || s.procs[i].pc.CLock?))
             || (s.mutex > 0 && Ready(s.procs[i]) && TokenFor(s, s.procs[i].pc))
    ensures CanTurn(s, i)
    decreases StepsToTurn(s.procs[i].pc)
  {
    hide Verifies, SomeMessage, TokensInv, DataInv, Total, CanTurn;
    var a := Run(i, SomeMessage());
    IndicesInRing(s);
    StepKeepsInv(s, a);
    if s.procs[i].pc.PAdvance? || s.procs[i].pc.CAdvance? {
      HistoryChange(s, a);
      TurnNow(s, a, i);
    } else {
      TakesTurn(Apply(s, a), i);
      TurnLater(s, a, i);
    }
  }

  /** Steps of a process that supplies the token another one needs. */
  function StepsToPost(pc: PC): nat {
    match pc
    case PTop => 7
    case PWait => 6
    case PLock => 5
    case PFill => 4
    case PAdvance => 3
    case PUnlock => 2
    case PPost => 1
    case CTop => 7
    case CWait => 6
    case CLock => 5
    case CRead => 4
    case CAdvance(_) => 3
    case CUnlock(_) => 2
    case CPost(_) => 1
    case _ => 0
  }

  /** The other kind of process, on its way round, posts the token that process `i` is waiting for. */
  lemma {:induction false} Supplies(s: State, x: nat, i: nat)
    requires Inv(s) && x < |s.procs| && i < |s.procs| && Ready(s.procs[i])
    requires !s.procs[x].pc.Dead? && Producing(s.procs[x].pc) != Producing(s.procs[i].pc)
    requires StepsToPost(s.procs[x].pc) > 0 && (s.procs[x].pc.PTop? || s.procs[x].pc.CTop? ==> !s.procs[x].term)
    requires s.mutex > 0 || InCritical(s.procs[x].pc)
    requires StepsToPost(s.procs[x].pc) >= 6 ==> TokenFor(s, s.procs[x].pc)
    ensures CanTurn(s, i)
    decreases StepsToPost(s.procs[x].pc)
  {
    hide Verifies, SomeMessage, TokensInv, DataInv, Total, CanTurn, StepsToTurn;
    var a := Run(x, SomeMessage());
    IndicesInRing(s);
    StepKeepsInv(s, a);
    if s.procs[x].pc.PPost? || s.procs[x].pc.CPost? {
      TakesTurn(Apply(s, a), i);
    } else {
      Supplies(Apply(s, a), x, i);
    }
    TurnLater(s, a, i);
  }

  /** With everybody's hands empty and the command loop at its prompt, whoever is missing can be spawned. */
  lemma TurnFromIdle(s: State, i: nat)
    requires Inv(s) && i < |s.procs| && Ready(s.procs[i])
    requires s.main == Idle && s.mutex > 0 && (s.empty > 0 || s.fill > 0)
    ensures CanTurn(s, i)
  {
    hide Verifies, TokensInv, DataInv, Total, CanTurn, StepsToTurn;
    if TokenFor(s, s.procs[i].pc) {
      TakesTurn(s, i);
    } else {
      var a := if Producing(s.procs[i].pc) then SpawnConsumer else SpawnProducer;
      StepKeepsInv(s, a);
      Supplies(Apply(s, a), |s.procs|, i);
      TurnLater(s, a, i);
    }
  }

  /** Steps until a process has given back what it holds. */
  function HeldSteps(p: Process): nat { if HeldToken(p) == 0 then 0 else StepsToPost(p.pc) }

  /** A holder that is not kept out moves on; it stays alive and as it was told, and nobody else changes. */
  lemma HolderMoves(s: State, x: nat, i: nat)
    requires Inv(s) && x < |s.procs| && i < |s.procs| && HeldToken(s.procs[x]) > 0
    requires s.mutex > 0 || InCritical(s.procs[x].pc)
    ensures var a := Run(x, SomeMessage());
            && Enabled(s, a) && !Disturbs(a, i) && Total(Apply(s, a).procs, HeldSteps) < Total(s.procs, HeldSteps)
            && (Stopped(Apply(s, a)) <==> Stopped(s)) && i < |Apply(s, a).procs|
            && Apply(s, a).procs[i].term == s.procs[i].term
            && (Apply(s, a).procs[i].pc.Dead? <==> s.procs[i].pc.Dead?)
  {
    hide Verifies, SomeMessage, TokensInv, DataInv, Total, Stopped;
    var a := Run(x, SomeMessage());
    IndicesInRing(s);
    StepLeaks(s, a);
    SameStop(s, Apply(s, a));
    TotalUpdate(s.procs, x, Apply(s, a).procs[x], HeldSteps);
  }

  lemma SameStop(s: State, s': State)
    requires Total(s'.procs, LeakedToken) == Total(s.procs, LeakedToken)
    requires Total(s'.procs, LeakedMutex) == Total(s.procs, LeakedMutex)
    ensures Stopped(s') <==> Stopped(s)
  {
  }

  /** The command loop comes back to its prompt without touching a process that was not told to end. */
  lemma EndMoves(s: State, i: nat)
    requires Inv(s) && s.main.WaitPid? && s.main.i < |s.procs| && HeldToken(s.procs[s.main.i]) == 0
    requires i < |s.procs| && !s.procs[i].pc.Dead? && !s.procs[i].term
    ensures var a := EndStep(s);
            && Enabled(s, a) && !Disturbs(a, i) && MainRank(Apply(s, a)) < MainRank(s)
            && Total(Apply(s, a).procs, HeldSteps) == Total(s.procs, HeldSteps)
            && (Stopped(Apply(s, a)) <==> Stopped(s))
            && i < |Apply(s, a).procs| && Apply(s, a).procs[i] == s.procs[i]
  {
    hide Verifies, SomeMessage, TokensInv, DataInv, Total, Stopped;
    EndStepWorks(s);
    var s' := Apply(s, EndStep(s));
    if !s.procs[s.main.i].pc.Dead? { TotalUpdate(s.procs, s.main.i, s'.procs[s.main.i], HeldSteps); }
  }

  /** Who has something in hand, if anybody. */
  lemma WhoHolds(s: State) returns (x: nat)
    requires Inv(s) && !Stopped(s)
    ensures x < |s.procs| ==> HeldToken(s.procs[x]) > 0 && (s.mutex > 0 || InCritical(s.procs[x].pc))
    ensures x >= |s.procs| ==>
              (s.mutex > 0 && (s.empty > 0 || s.fill > 0)
               && forall y :: 0 <= y < |s.procs| ==> HeldToken(s.procs[y]) == 0)
  {
    hide Verifies, DataInv, Total;
    StateTokens(s);
    if s.mutex == 0 {
      x := TotalPositive(s.procs, Holding);
    } else if y: nat :| y < |s.procs| && HeldToken(s.procs[y]) > 0 {
      x := y;
    } else {
      x := |s.procs|;
      TotalZero(s.procs, HeldToken);
    }
  }

  lemma {:induction false} TurnComes(s: State, i: nat)
    requires Inv(s) && !Stopped(s) && i < |s.procs| && !s.procs[i].pc.Dead? && !s.procs[i].term
    ensures CanTurn(s, i)
    decreases Total(s.procs, HeldSteps), MainRank(s)
  {
    hide Inv, CanTurn, Stopped, Enabled, Apply, Total, Verifies, SomeMessage, EndStep, MainRank;
    hide HeldSteps, StepsToTurn, Disturbs;
    var x := WhoHolds(s);
    if x < |s.procs| {
      var a := Run(x, SomeMessage());
      HolderMoves(s, x, i);
      StepKeepsInv(s, a);
      if InCopy(s.procs[i].pc) {
        TakesTurn(s, i);
      } else {
        TurnComes(Apply(s, a), i);
        TurnLater(s, a, i);
      }
    } else if s.main == Idle {
      HandsEmpty(s.procs[i]);
      TurnFromIdle(s, i);
    } else {
      MainWaits(s);
      EndMoves(s, i);
      StepKeepsInv(s, EndStep(s));
      TurnComes(Apply(s, EndStep(s)), i);
      TurnLater(s, EndStep(s), i);
    }
  }

  lemma HandsEmpty(p: Process)
    requires HeldToken(p) == 0 && !p.pc.Dead? && !p.term
    ensures Ready(p)
  {
  }

  /** Unless the queue has stopped for good, every process that is alive and was not told to end can, undisturbed,
      produce or consume another message itself. */
  lemma EveryProcessGoesOn(run: seq<State>, acts: seq<Action>, i: nat)
    requires IsRun(run, acts) && i < |run[|acts|].procs|
    requires !run[|acts|].procs[i].pc.Dead? && !Told(acts, |acts|, i)
    ensures CanTurn(run[|acts|], i) <==> !Stopped(run[|acts|])
  {
    hide Enabled, Apply, Inv, Init, Stopped, Verifies, TurnOf, Undisturbed;
    var s := run[|acts|];
    Reachable(run, acts, |acts|);
    FatesExplained(run, acts, |acts|, i);
    if Stopped(s) {
      if CanTurn(s, i) {
        var more: seq<State>, acts': seq<Action> :|
          Steps(more, acts') && more[0] == s && |acts'| > 0 && TurnOf(more, acts', i) && Undisturbed(acts', i);
        StoppedFrom(more, acts', |acts'|);
        StoppedFrom(more, acts', |acts'| - 1);
        TurnGrows(more, acts', i);
      }
    } else {
      TurnComes(s, i);
    }
  }

  lemma TurnGrows(run: seq<State>, acts: seq<Action>, i: nat)
    requires |run| == |acts| + 1 && |acts| > 0 && TurnOf(run, acts, i)
    ensures Grown(run[|acts| - 1], run[|acts|])
  {
  }

  // ----- turns

  /** The step is process `i` producing or consuming a message. */
  predicate TakesMessage(s: State, a: Action, i: nat)
    requires Enabled(s, a)
  {
    a.Run? && a.i == i
    && (|Apply(s, a).q.produced| > |s.q.produced| || |Apply(s, a).q.consumed| > |s.q.consumed|)
  }

  /** The step is process `i` reporting its message and sleeping. */
  predicate ReportsMessage(s: State, a: Action, i: nat) {
    a.Run? && a.i == i && i < |s.procs| && (s.procs[i].pc.PIdle? || s.procs[i].pc.CIdle?)
  }

  /** How many messages process `i` has produced or consumed. */
  function Taken(run: seq<State>, acts: seq<Action>, k: nat, i: nat): nat
    requires k <= |acts| <= |run| && forall j :: 0 <= j < k ==> Enabled(run[j], acts[j])
  {
    if k == 0 then 0 else Taken(run, acts, k - 1, i) + (if TakesMessage(run[k - 1], acts[k - 1], i) then 1 else 0)
  }

  function Reported(run: seq<State>, acts: seq<Action>, k: nat, i: nat): nat
    requires k <= |acts| <= |run|
  {
    if k == 0 then 0 else Reported(run, acts, k - 1, i) + (if ReportsMessage(run[k - 1], acts[k - 1], i) then 1 else 0)
  }

  /** A message taken and not yet reported. */
  function ToReport(pc: PC): nat {
    if pc.PUnlock? || pc.PPost? || pc.PIdle? || pc.CUnlock? || pc.CPost? || pc.CIdle? then 1 else 0
  }

  lemma StepTurns(s: State, a: Action, i: nat)
    requires Enabled(s, a) && i < |s.procs| <= |Apply(s, a).procs| && !Apply(s, a).procs[i].pc.Dead?
    ensures ToReport(s.procs[i].pc) + (if TakesMessage(s, a, i) then 1 else 0)
              == ToReport(Apply(s, a).procs[i].pc) + (if ReportsMessage(s, a, i) then 1 else 0)
  {
    hide Verifies;
  }

  /** Nothing is taken or reported before the process exists; then it starts with nothing to report. */
  lemma {:induction false} NoTurnsBefore(run: seq<State>, acts: seq<Action>, k: nat, i: nat)
    requires IsRun(run, acts) && k < |run| && i >= |run[k].procs|
    ensures Taken(run, acts, k, i) == 0 && Reported(run, acts, k, i) == 0
    ensures k < |acts| && i < |run[k + 1].procs| ==> ToReport(run[k + 1].procs[i].pc) == 0
  {
    if k > 0 {
      NewIsIdle(run[k - 1], acts[k - 1], i);
      NoTurnsBefore(run, acts, k - 1, i);
    }
    if k < |acts| { NewIsIdle(run[k], acts[k], i); }
    hide Enabled, Apply, ToReport, TakesMessage, ReportsMessage;
  }

  lemma NewIsIdle(s: State, a: Action, i: nat)
    requires Enabled(s, a)
    ensures |s.procs| <= |Apply(s, a).procs|
    ensures i >= |s.procs| ==>
              (!TakesMessage(s, a, i) && !ReportsMessage(s, a, i)
               && (i < |Apply(s, a).procs| ==> ToReport(Apply(s, a).procs[i].pc) == 0))
  {
    hide Verifies, Fill, Advance, Take;
  }

  /** A process reports every message it takes, once, before it takes the next: up to the one in hand it has reported
      as many as it has produced or consumed. */
  lemma {:induction false} TurnsAreReported(run: seq<State>, acts: seq<Action>, k: nat, i: nat)
    requires IsRun(run, acts) && k < |run| && i < |run[k].procs| && !run[k].procs[i].pc.Dead?
    ensures Taken(run, acts, k, i) == Reported(run, acts, k, i) + ToReport(run[k].procs[i].pc)
  {
    hide Apply, Enabled, TakesMessage, ReportsMessage, ToReport;
    if k > 0 {
      var s, a := run[k - 1], acts[k - 1];
      NewIsIdle(s, a, i);
      if i < |s.procs| {
        DeadStay(s, a, i);
        TurnsAreReported(run, acts, k - 1, i);
        StepTurns(s, a, i);
      } else {
        NoTurnsBefore(run, acts, k - 1, i);
      }
    }
  }

  lemma DeadStay(s: State, a: Action, i: nat)
    requires Enabled(s, a) && i < |s.procs| <= |Apply(s, a).procs| && !Apply(s, a).procs[i].pc.Dead?
    ensures !s.procs[i].pc.Dead?
  {
    hide Verifies, Fill, Advance, Take;
  }
}
