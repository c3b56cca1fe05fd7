/** Every interleaving of the part sort ends: apart from qsort's own work, each step uses up a budget
    that is fixed when the threads start. */
module PartTermination {
  import opened Records
  import opened Slices
  import opened MergeRounds
  import opened PartSorter
  import opened Tally

  /** Steps one merge round can cost one thread, at most. */
  function RoundCost(c: Config): nat { 2 * |c.input| + 8 }

  /** What the rounds from round `r` on can still cost one thread. */
  function RoundsLeft(c: Config, r: nat): nat {
    if r <= Log2(c.blocks) then Pos(RoundCost(c), Log2(c.blocks) - r) else 0
  }

  function Remaining(total: nat, used: nat): nat { if used <= total then total - used else 0 }

  /** Upper bound on the steps a thread at `pc` still takes, claims of further blocks aside. */
  function Budget(c: Config, pc: PC): nat {
    match pc
    case Sorting(_) => RoundsLeft(c, 0) + 5
    case Marking(_) => RoundsLeft(c, 0) + 4
    case Claiming => RoundsLeft(c, 0) + 3
    case Arriving(r) => RoundsLeft(c, r) + 2
    case Waiting(r) => RoundsLeft(c, r) + 1
    case Merging(r, i, j) => RoundsLeft(c, r + 1) + 4 + |c.input| + Remaining(|c.input|, i + j)
    case Copying(r, k) => RoundsLeft(c, r + 1) + 3 + Remaining(|c.input|, k)
    case Returned => 0
  }

  function BudgetOf(c: Config): PC -> nat { pc => Budget(c, pc) }

  function Free(entry: nat): nat { if entry == 0 then 3 else 0 }

  function Work(c: Config, s: State): nat { Total(s.pcs, BudgetOf(c)) + Total(s.map_, Free) }

  lemma RoundBudget(c: Config, r: nat)
    requires r < Log2(c.blocks)
    ensures RoundsLeft(c, r) == RoundsLeft(c, r + 1) + RoundCost(c)
  {
  }

  /** Every step but qsort's own uses up at least one unit of work. */
  lemma StepUsesWork(c: Config, s: State, a: Action)
    requires Inv(c, s) && Enabled(c, s, a)
    ensures a.QsortMove? ==> Work(c, Apply(c, s, a)) == Work(c, s)
    ensures !a.QsortMove? ==> Work(c, Apply(c, s, a)) < Work(c, s)
  {
    var t, s' := a.t, Apply(c, s, a);
    if !a.QsortMove? {
      PcUsesBudget(c, s, a);
      hide Budget, Inv, Shape;
      assert s'.pcs == s.pcs[t := s'.pcs[t]];
      TotalUpdate(s.pcs, t, s'.pcs[t], BudgetOf(c));
      if a.Claim? && FirstFree(s.map_) < |s.map_| { TotalUpdate(s.map_, FirstFree(s.map_), 1, Free); }
      if a.Mark? { TotalUpdate(s.map_, s.pcs[t].b, 2, Free); }
    }
  }

  /** The step moves thread `a.t` and no other, and its budget pays for the step; claiming a block costs two
      units of the budget that the free map entry provided. */
  predicate PaysForStep(c: Config, s: State, a: Action)
    requires Shape(c, s) && Enabled(c, s, a)
  {
    var s' := Apply(c, s, a);
    && |s'.pcs| == |s.pcs| && s'.pcs == s.pcs[a.t := s'.pcs[a.t]]
    && var free := a.Claim? && FirstFree(s.map_) < |s.map_|;
       Budget(c, s'.pcs[a.t]) + (if free then 0 else 1) <= Budget(c, s.pcs[a.t]) + (if free then 2 else 0)
  }

  lemma ClaimPays(c: Config, s: State, a: Action)
    requires Shape(c, s) && Enabled(c, s, a) && (a.QsortEnd? || a.Mark? || a.Claim? || a.Arrive?)
    ensures PaysForStep(c, s, a)
  {
    hide Pos, Overwrite, RoundsLeft, LastToArrive, SizeAt, PowerOfTwo;
  }

  lemma BarrierPays(c: Config, r: nat, t: nat)
    requires c.Valid() && r <= Log2(c.blocks)
    ensures Budget(c, AfterBarrier(c, r, t)) + 1 <= Budget(c, Waiting(r))
  {
    PairsInside(c, r, t);
    hide Pos, RoundsLeft, SizeAt, PowerOfTwo, Log2, BlocksAt;
    if r < Log2(c.blocks) { RoundBudget(c, r); }
  }

  lemma LeavePays(c: Config, s: State, a: Action)
    requires Inv(c, s) && Enabled(c, s, a) && a.Leave?
    ensures PaysForStep(c, s, a)
  {
    RoundPositions(c, s, a.t);
    BarrierPays(c, s.pcs[a.t].r, a.t);
    hide Budget, AfterBarrier, Log2, ClaimInv, RoundsInv, PcShape, PowerOfTwo;
  }

  lemma MovePays(c: Config, s: State, a: Action)
    requires Shape(c, s) && Enabled(c, s, a) && (a.MergeMove? || a.CopyMove?)
    ensures PaysForStep(c, s, a)
  {
    hide Pos, RoundsLeft, SizeAt, PowerOfTwo, Log2, BlocksAt;
    assert PcShape(c, s.pcs[a.t], a.t);
  }

  lemma PcUsesBudget(c: Config, s: State, a: Action)
    requires Inv(c, s) && Enabled(c, s, a) && !a.QsortMove?
    ensures PaysForStep(c, s, a)
  {
    hide PaysForStep, Enabled, Apply, ClaimInv, RoundsInv, Shape;
    if a.Leave? {
      LeavePays(c, s, a);
    } else if a.MergeMove? || a.CopyMove? {
      MovePays(c, s, a);
    } else {
      ClaimPays(c, s, a);
    }
  }

  /** The steps of a run, with what qsort does inside a block left out of the count. */
  ghost predicate IsTrace(c: Config, run: seq<State>, acts: seq<Action>) {
    && |run| == |acts| + 1 && Init(c, run[0])
    && forall k :: 0 <= k < |acts| ==>
         Shape(c, run[k]) && Enabled(c, run[k], acts[k]) && run[k + 1] == Apply(c, run[k], acts[k])
  }

  function Counted(acts: seq<Action>): nat {
    if acts == [] then 0 else Counted(acts[..|acts| - 1]) + (if acts[|acts| - 1].QsortMove? then 0 else 1)
  }

  /** Termination under every schedule: a run has at most Work(first state) steps besides qsort's own. */
  lemma {:induction false} RunsAreBounded(c: Config, run: seq<State>, acts: seq<Action>)
    requires IsTrace(c, run, acts)
    ensures Inv(c, run[|acts|]) && Counted(acts) + Work(c, run[|acts|]) <= Work(c, run[0])
    decreases |acts|
  {
    hide Init, Inv, Shape, Enabled, Apply, Work;
    if acts == [] {
      InitInv(c, run[0]);
    } else {
      var n := |acts| - 1;
      RunsAreBounded(c, run[..|acts|], acts[..n]);
      StepUsesWork(c, run[n], acts[n]);
      StepKeepsInv(c, run[n], acts[n]);
    }
  }
}
