/** Complete runs of the part sort: every run can be continued until all threads have returned, and what complete
    runs leave in the part is exactly what the specification calls an outcome. */
module PartRuns {
  import opened Records
  import opened Slices
  import opened MergeRounds
  import opened PartSorter
  import opened PartTermination

  predicate AllReturned(s: State) { forall t :: 0 <= t < |s.pcs| ==> s.pcs[t].Returned? }

  ghost predicate CompleteRun(c: Config, run: seq<State>) {
    IsRun(c, run) && AllReturned(run[|run| - 1])
  }

  /** Some interleaving of the threads, run to its end, leaves `out` in the part. */
  ghost predicate MayLeave(c: Config, out: seq<Record>) {
    exists run: seq<State> :: CompleteRun(c, run) && run[|run| - 1].buffer == out
  }

  // ----- sorting the blocks in a way given beforehand

  /** The blocks of `start`, the sorted ones kept and the first `n` others sorted. */
  lemma {:induction false} SortBlocks(c: Config, start: seq<Record>, n: nat) returns (base: seq<Record>)
    requires c.Valid() && n <= c.blocks && |start| == |c.input| && Pos(c.m, c.blocks) <= |c.input|
    ensures |base| == |c.input|
    ensures forall b :: 0 <= b < c.blocks ==> Permutation(Block(base, c.m, b), Block(start, c.m, b))
    ensures forall b :: 0 <= b < c.blocks && Sorted(Block(start, c.m, b)) ==>
              Block(base, c.m, b) == Block(start, c.m, b)
    ensures forall b :: 0 <= b < n ==> Sorted(Block(base, c.m, b))
    ensures base[Pos(c.m, c.blocks)..] == start[Pos(c.m, c.blocks)..]
  {
    hide Block, Pos, PowerOfTwo, Sorted, SomeSort, Overwrite;
    if n == 0 {
      base := start;
    } else {
      base := SortBlocks(c, start, n - 1);
      var block := Block(base, c.m, n - 1);
      if !Sorted(block) {
        var out := SomeSort(block);
        BlockFits(base, c.m, c.blocks, n - 1);
        PermutationMembers(out, block);
        OtherBlocks(c, base, n - 1, out);
        base := Overwrite(base, Pos(c.m, n - 1), out);
      }
    }
  }

  /** The run so far is on its way to `base` at the end of the claim phase. */
  ghost predicate Follows(c: Config, s: State, base: seq<Record>)
    requires Shape(c, s)
  {
    if s.done > 0 then s.base == base
    else forall b :: 0 <= b < c.blocks && s.sorts[b] == 1 ==> Block(s.buffer, c.m, b) == Block(base, c.m, b)
  }

  /** Whatever has been sorted so far, there is a way to go on. */
  lemma SomeBase(c: Config, s: State) returns (base: seq<Record>)
    requires Inv(c, s)
    ensures BlockwiseSorted(c, base) && Follows(c, s, base)
  {
    hide Block, Pos, PowerOfTwo, Sorted, PairInv, AfterRounds;
    if s.done > 0 {
      base := s.base;
    } else {
      base := SortBlocks(c, s.buffer, c.blocks);
      forall b | 0 <= b < c.blocks
        ensures Permutation(Block(base, c.m, b), Block(c.input, c.m, b))
        ensures s.sorts[b] == 1 ==> Block(s.buffer, c.m, b) == Block(base, c.m, b)
      {
        assert BlockInv(c, s, b);
      }
    }
  }

  lemma ChooseStep(c: Config, s: State, base: seq<Record>) returns (a: Action)
    requires Inv(c, s) && BlockwiseSorted(c, base) && !AllReturned(s)
    ensures Enabled(c, s, a) && !a.QsortMove?
    ensures a.QsortEnd? ==> s.done == 0 && a.out == Block(base, c.m, s.pcs[a.t].b)
  {
    hide Block, Pos, PowerOfTwo, Sorted, RoundsInv, PcShape;
    var t := SomeoneCanStep(c, s);
    if s.pcs[t].Sorting? {
      var b := s.pcs[t].b;
      assert PcShape(c, s.pcs[t], t);
      BlockOf(c, s, t);
      a := QsortEnd(t, Block(base, c.m, b));
    } else {
      a := NextAction(t, s.pcs[t], []);
    }
  }

  /** A thread in qsort has a block of the part that holds a permutation of what it held at the start. */
  lemma BlockOf(c: Config, s: State, t: nat)
    requires Inv(c, s) && t < c.threads && s.pcs[t].Sorting?
    ensures s.done == 0 && s.pcs[t].b < c.blocks
    ensures Permutation(Block(s.buffer, c.m, s.pcs[t].b), Block(c.input, c.m, s.pcs[t].b))
  {
    hide Block, Pos, PowerOfTwo, Sorted, RoundsInv;
    if s.done > 0 { RoundsPcs(c, s, t); }
    assert PcShape(c, s.pcs[t], t);
    assert BlockInv(c, s, s.pcs[t].b);
  }

  lemma QsortFollows(c: Config, s: State, a: Action, base: seq<Record>)
    requires Inv(c, s) && Enabled(c, s, a) && Follows(c, s, base)
    requires a.QsortEnd? && s.done == 0 && a.out == Block(base, c.m, s.pcs[a.t].b)
    ensures Shape(c, Apply(c, s, a)) && Follows(c, Apply(c, s, a), base)
  {
    StepKeepsInv(c, s, a);
    var b, s' := s.pcs[a.t].b, Apply(c, s, a);
    assert PcShape(c, s.pcs[a.t], a.t);
    PermutationLength(c, s, b, a.out);
    OtherBlocks(c, s.buffer, b, a.out);
    assert s'.buffer == Overwrite(s.buffer, Pos(c.m, b), a.out) && s'.sorts == s.sorts[b := s.sorts[b] + 1];
    hide Block, Pos, Overwrite, Inv, Apply, Enabled, PcShape;
  }

  /** Two buffers with the same blocks and the same remainder are the same. */
  lemma BlocksDetermine(c: Config, s: seq<Record>, t: seq<Record>)
    requires c.Valid() && |s| == |t| && Pos(c.m, c.blocks) <= |s|
    requires forall b :: 0 <= b < c.blocks ==> Block(s, c.m, b) == Block(t, c.m, b)
    requires s[Pos(c.m, c.blocks)..] == t[Pos(c.m, c.blocks)..]
    ensures s == t
  {
    hide PowerOfTwo, Block, Pos;
    var end := Pos(c.m, c.blocks);
    forall k | 0 <= k < |s| ensures s[k] == t[k] {
      if k < end {
        var b := PairOf(c.m, c.blocks, k);
        BlockFits(s, c.m, c.blocks, b);
        BlockFits(t, c.m, c.blocks, b);
        assert Block(s, c.m, b)[k - Pos(c.m, b)] == s[k] && Block(t, c.m, b)[k - Pos(c.m, b)] == t[k];
      } else {
        assert s[end..][k - end] == t[end..][k - end];
      }
    }
  }

  lemma BarrierFollows(c: Config, s: State, a: Action, base: seq<Record>)
    requires Inv(c, s) && Enabled(c, s, a) && BlockwiseSorted(c, base) && Follows(c, s, base)
    requires a.Arrive? && s.done == 0 && LastToArrive(s, a.t, s.pcs[a.t].r)
    ensures s.buffer == base && s.pcs[a.t].r == 0
  {
    hide Block, Pos, PowerOfTwo, Sorted, BlockInv, Permutation;
    assert ThreadInv(c, s, a.t);
    forall t | 0 <= t < c.threads ensures s.pcs[t] == Arriving(0) || s.pcs[t] == Waiting(0) {
      assert ThreadInv(c, s, t);
    }
    ClaimComplete(c, s);
    BlocksDetermine(c, s.buffer, base);
  }

  lemma StepFollows(c: Config, s: State, a: Action, base: seq<Record>)
    requires Inv(c, s) && Enabled(c, s, a) && BlockwiseSorted(c, base) && Follows(c, s, base) && !a.QsortMove?
    requires a.QsortEnd? ==> s.done == 0 && a.out == Block(base, c.m, s.pcs[a.t].b)
    ensures Shape(c, Apply(c, s, a)) && Follows(c, Apply(c, s, a), base)
  {
    StepKeepsInv(c, s, a);
    if a.QsortEnd? {
      QsortFollows(c, s, a, base);
    } else if a.Arrive? && s.done == 0 && LastToArrive(s, a.t, s.pcs[a.t].r) {
      BarrierFollows(c, s, a, base);
    } else {
      OthersFollow(c, s, a, base);
    }
  }

  lemma OthersFollow(c: Config, s: State, a: Action, base: seq<Record>)
    requires Inv(c, s) && Enabled(c, s, a) && Shape(c, Apply(c, s, a)) && Follows(c, s, base)
    requires !a.QsortMove? && !a.QsortEnd? && !(a.Arrive? && s.done == 0 && LastToArrive(s, a.t, s.pcs[a.t].r))
    ensures Follows(c, Apply(c, s, a), base)
  {
    hide Block, Pos, PowerOfTwo, PairInv, AfterRounds, BlockwiseSorted, BlockInv, SizeAt, BlocksAt, Log2;
    if s.done == 0 { ClaimPcs(c, s, a.t); } else { RoundsPcs(c, s, a.t); }
  }

  // ----- complete runs

  lemma InvHasShape(c: Config, s: State)
    requires Inv(c, s)
    ensures Shape(c, s)
  {
  }

  lemma LastHasInv(c: Config, run: seq<State>)
    requires IsRun(c, run)
    ensures Inv(c, run[|run| - 1])
  {
    Reachable(c, run, |run| - 1);
  }

  function Extended(run: seq<State>, s: State): (next: seq<State>)
    ensures |next| == |run| + 1 && next[|run|] == s
  {
    run + [s]
  }

  lemma RunGrows(c: Config, run: seq<State>, a: Action)
    requires IsRun(c, run) && Inv(c, run[|run| - 1]) && Enabled(c, run[|run| - 1], a)
    ensures IsRun(c, Extended(run, Apply(c, run[|run| - 1], a)))
  {
    hide Inv, Enabled, Apply, Init, Shape;
    InvHasShape(c, run[|run| - 1]);
    var run' := Extended(run, Apply(c, run[|run| - 1], a));
    forall k | 0 <= k < |run'| - 1 ensures Next(c, run'[k], run'[k + 1]) {
      if k < |run| - 1 {
        assert Next(c, run[k], run[k + 1]) && run'[k] == run[k] && run'[k + 1] == run[k + 1];
      } else {
        assert Enabled(c, run'[k], a) && run'[k + 1] == Apply(c, run'[k], a);
      }
    }
  }

  lemma StepTo(c: Config, s: State, base: seq<Record>) returns (a: Action)
    requires Inv(c, s) && Shape(c, s) && BlockwiseSorted(c, base) && Follows(c, s, base) && !AllReturned(s)
    ensures Enabled(c, s, a) && Inv(c, Apply(c, s, a)) && Work(c, Apply(c, s, a)) < Work(c, s)
    ensures Shape(c, Apply(c, s, a)) && Follows(c, Apply(c, s, a), base)
  {
    hide *;
    a := ChooseStep(c, s, base);
    StepUsesWork(c, s, a);
    StepKeepsInv(c, s, a);
    StepFollows(c, s, a, base);
  }

  /** A run that is on its way to `base`. */
  ghost predicate OnWay(c: Config, run: seq<State>, base: seq<Record>) {
    && |run| > 0 && IsRun(c, run)
    && var s := run[|run| - 1]; Inv(c, s) && Shape(c, s) && BlockwiseSorted(c, base) && Follows(c, s, base)
  }

  lemma WayGoesOn(c: Config, run: seq<State>, base: seq<Record>) returns (next: seq<State>)
    requires |run| > 0 && OnWay(c, run, base) && !AllReturned(run[|run| - 1])
    ensures |next| == |run| + 1 && OnWay(c, next, base) && run <= next
    ensures Work(c, next[|run|]) < Work(c, run[|run| - 1])
  {
    hide IsRun, Inv, Shape, BlockwiseSorted, Follows, Enabled, Apply, Work, AllReturned;
    var s := run[|run| - 1];
    var a := StepTo(c, s, base);
    RunGrows(c, run, a);
    next := Extended(run, Apply(c, s, a));
  }

  lemma WayEnds(c: Config, run: seq<State>, base: seq<Record>)
    requires |run| > 0 && OnWay(c, run, base) && AllReturned(run[|run| - 1])
    ensures CompleteRun(c, run) && FinalCondition(c, run[|run| - 1].buffer, base)
  {
    hide IsRun, Inv, Shape, BlockwiseSorted, Follows, AllReturned, FinalCondition;
    FinalFollows(c, run[|run| - 1], base);
  }

  /** A run on its way to `base` can be continued until all threads have returned. */
  lemma {:induction false} CompleteTo(c: Config, run: seq<State>, base: seq<Record>) returns (full: seq<State>)
    requires |run| > 0 && OnWay(c, run, base)
    ensures |full| > 0 && CompleteRun(c, full) && run <= full
    ensures FinalCondition(c, full[|full| - 1].buffer, base)
    decreases Work(c, run[|run| - 1])
  {
    hide OnWay, AllReturned, CompleteRun, FinalCondition, Work;
    if AllReturned(run[|run| - 1]) {
      WayEnds(c, run, base);
      full := run;
    } else {
      var next := WayGoesOn(c, run, base);
      full := CompleteTo(c, next, base);
    }
  }

  ghost predicate FinalCondition(c: Config, buffer: seq<Record>, base: seq<Record>) {
    c.Valid() && Pos(c.m, c.blocks) <= |base| && buffer == AllRounds(base, c.m, c.blocks, c.threads)
  }

  lemma FinalFollows(c: Config, s: State, base: seq<Record>)
    requires Inv(c, s) && Shape(c, s) && AllReturned(s) && Follows(c, s, base)
    ensures FinalCondition(c, s.buffer, base)
  {
    FinalBuffer(c, s);
    hide ClaimInv, RoundsInv, AllRounds, PcShape, PowerOfTwo, Pos;
    if s.done == 0 { ClaimPcs(c, s, 0); }
  }

  /** Every run can be continued to a complete one: whatever the threads have done, they can all still return. */
  lemma Complete(c: Config, run: seq<State>) returns (full: seq<State>)
    requires IsRun(c, run)
    ensures CompleteRun(c, full) && run <= full
  {
    hide Inv, BlockwiseSorted;
    LastHasInv(c, run);
    InvHasShape(c, run[|run| - 1]);
    var base := SomeBase(c, run[|run| - 1]);
    full := CompleteTo(c, run, base);
  }

  function FirstState(c: Config): State {
    State(c.input, c.input, seq(c.blocks, i => if i < c.threads then 1 else 0),
          seq(c.threads, (t: nat) => if t < c.blocks then Sorting(t) else Claiming),
          seq(c.blocks, (i: nat) => i), seq(c.blocks, i => 0), 0, c.input, c.input)
  }

  lemma FirstRun(c: Config)
    requires c.Valid()
    ensures IsRun(c, [FirstState(c)]) && Inv(c, FirstState(c)) && FirstState(c).done == 0
    ensures forall b :: 0 <= b < c.blocks ==> FirstState(c).sorts[b] == 0
  {
    assert Init(c, FirstState(c));
    InitInv(c, FirstState(c));
  }

  /** Every outcome is what some complete run leaves. */
  lemma RunTo(c: Config, base: seq<Record>)
    requires c.Valid() && BlockwiseSorted(c, base)
    ensures MayLeave(c, AllRounds(base, c.m, c.blocks, c.threads))
  {
    hide Inv, AllRounds, PowerOfTwo, FirstState;
    FirstRun(c);
    var s := FirstState(c);
    InvHasShape(c, s);
    assert Follows(c, s, base);
    hide BlockwiseSorted, Follows, IsRun, Shape, CompleteRun;
    assert OnWay(c, [s], base);
    var full := CompleteTo(c, [s], base);
    assert CompleteRun(c, full);
  }

  /** What complete runs leave in the part is exactly what sorting each block in some way and then running the
      merges one by one can give. */
  lemma MayLeaveIff(c: Config, out: seq<Record>)
    requires c.Valid()
    ensures MayLeave(c, out) <==> Outcome(c, out)
  {
    if MayLeave(c, out) {
      hide Inv, IsRun;
      var run: seq<State> :| CompleteRun(c, run) && run[|run| - 1].buffer == out;
      Finished(c, run, |run| - 1);
    }
    if Outcome(c, out) {
      hide BlocksSorted, AllRounds, PowerOfTwo, MayLeave;
      var base :| BlockwiseSorted(c, base) && out == AllRounds(base, c.m, c.blocks, c.threads);
      RunTo(c, base);
    }
  }

  /** Every part has a complete run, and it keeps the length of the part. */
  lemma SomeRun(c: Config) returns (out: seq<Record>)
    requires c.Valid()
    ensures MayLeave(c, out) && |out| == |c.input|
  {
    hide Inv, IsRun, FirstState;
    FirstRun(c);
    var full := Complete(c, [FirstState(c)]);
    out := full[|full| - 1].buffer;
    LastHasInv(c, full);
    InvHasShape(c, full[|full| - 1]);
  }
}
