/** The sort of one mapped part by T threads: blocks are claimed through a shared map and sorted, then merged
    in rounds separated by a barrier. Every interleaving of the threads is a run of this machine; in the
    merge rounds one step moves one record. */
module PartSorter {
  import opened Records
  import opened Slices
  import opened TwoWayMerge
  import opened MergeRounds

  /** What the threads share and never change: the part as mapped, the two command line numbers, and the
      number of records in a block, rounded down (a remainder of the part belongs to no block). */
  datatype Config = Config(input: seq<Record>, blocks: nat, threads: nat, m: nat) {
    predicate Valid() { PowerOfTwo(blocks) && threads > 0 && m == |input| / blocks }
  }

  /** Where a thread is. `r` counts the rounds it has finished, which fixes its loop variables
      (SizeAt and BlocksAt); barrier `r` is the one that ends round `r`, barrier 0 the claim phase. */
  datatype PC =
    | Sorting(b: nat)                  // in qsort on block b
    | Marking(b: nat)                  // block b sorted, map entry not yet set to 2
    | Claiming                         // about to scan the map under the mutex
    | Arriving(r: nat)                 // about to call pthread_barrier_wait
    | Waiting(r: nat)                  // inside pthread_barrier_wait
    | Merging(r: nat, i: nat, j: nat)  // in merge, i and j records taken
    | Copying(r: nat, k: nat)          // in memcpy, k records copied
    | Returned

  /** Shared memory, the threads, and history that only the proofs look at: `owner` and `sorts` per block,
      `done` completed barriers, `base` the buffer at barrier 0 and `stage` the buffer at the last barrier. */
  datatype State = State(buffer: seq<Record>, tmp: seq<Record>, map_: seq<nat>, pcs: seq<PC>,
                         owner: seq<nat>, sorts: seq<nat>, done: nat, base: seq<Record>, stage: seq<Record>)

  datatype Action =
    | QsortMove(t: nat, out: seq<Record>)
    | QsortEnd(t: nat, out: seq<Record>)
    | Mark(t: nat)
    | Claim(t: nat)
    | Arrive(t: nat)
    | Leave(t: nat)
    | MergeMove(t: nat)
    | CopyMove(t: nat)

  function Start(c: Config, r: nat, t: nat): nat { Pos(2 * SizeAt(c.m, r), t) }

  /** Blocks left to merge in the round after round `r`. */
  function Pairs(c: Config, r: nat): nat { BlocksAt(c.blocks, r) / 2 }

  function Size(c: Config, r: nat): nat { SizeAt(c.m, r) }

  /** Array sizes, and indices that stay inside them. */
  predicate Shape(c: Config, s: State) {
    && c.Valid()
    && |s.buffer| == |s.tmp| == |s.stage| == |s.base| == |c.input|
    && |s.map_| == |s.owner| == |s.sorts| == c.blocks && |s.pcs| == c.threads
    && forall t :: 0 <= t < c.threads ==> PcShape(c, s.pcs[t], t)
  }

  predicate PcShape(c: Config, pc: PC, t: nat) {
    match pc
    case Sorting(b) => b < c.blocks && Pos(c.m, b + 1) <= |c.input|
    case Marking(b) => b < c.blocks
    case Merging(r, i, j) => i <= Size(c, r) && j <= Size(c, r) && Start(c, r, t) + 2 * Size(c, r) <= |c.input|
    case Copying(r, k) => k <= 2 * Size(c, r) && Start(c, r, t) + 2 * Size(c, r) <= |c.input|
    case _ => true
  }

  predicate Init(c: Config, s: State) {
    && c.Valid()
    && s.buffer == s.base == s.stage == c.input && |s.tmp| == |c.input|
    && s.map_ == seq(c.blocks, i => if i < c.threads then 1 else 0)
    && s.owner == seq(c.blocks, (i: nat) => i) && s.sorts == seq(c.blocks, i => 0)
    && s.pcs == seq(c.threads, (t: nat) => if t < c.blocks then Sorting(t) else Claiming)
    && s.done == 0
  }

  /** The scan for an entry 0, first hit wins. */
  function FirstFree(m: seq<nat>): (i: nat)
    ensures i <= |m|
    ensures i < |m| ==> m[i] == 0
    ensures forall k :: 0 <= k < i ==> m[k] != 0
  {
    if m == [] || m[0] == 0 then 0 else 1 + FirstFree(m[1..])
  }

  /** The scan as a thread makes it while it holds the mutex: the block it claims, or -1. */
  method ClaimFree(blockMap: array<nat>) returns (freeBlock: int)
    modifies blockMap
    ensures var i, was := FirstFree(old(blockMap[..])), old(blockMap[..]);
            && freeBlock == (if i < |was| then i else -1)
            && blockMap[..] == (if i < |was| then was[i := 1] else was)
  {
    freeBlock := -1;
    var i := 0;
    while i < blockMap.Length
      invariant i <= blockMap.Length && freeBlock == -1 && blockMap[..] == old(blockMap[..])
      invariant forall k :: 0 <= k < i ==> blockMap[k] != 0
    {
      if blockMap[i] == 0 {
        freeBlock := i;
        blockMap[i] := 1;
        assert blockMap[..] == old(blockMap[..])[i := 1];
        break;
      }
      i := i + 1;
    }
  }

  predicate Enabled(c: Config, s: State, a: Action)
    requires Shape(c, s)
  {
    && a.t < c.threads
    && match a
       case QsortMove(t, out) => s.pcs[t].Sorting? && Permutation(out, Block(s.buffer, c.m, s.pcs[t].b))
       case QsortEnd(t, out) => s.pcs[t].Sorting? && Permutation(out, Block(s.buffer, c.m, s.pcs[t].b)) && Sorted(out)
       case Mark(t) => s.pcs[t].Marking?
       case Claim(t) => s.pcs[t].Claiming?
       case Arrive(t) => s.pcs[t].Arriving?
       case Leave(t) => s.pcs[t].Waiting? && s.pcs[t].r < s.done
       case MergeMove(t) => s.pcs[t].Merging?
       case CopyMove(t) => s.pcs[t].Copying?
  }

  predicate LastToArrive(s: State, t: nat, r: nat) {
    forall u :: 0 <= u < |s.pcs| && u != t ==> s.pcs[u] == Waiting(r)
  }

  /** The loop test after a barrier, and the test for having a pair to merge. */
  function AfterBarrier(c: Config, r: nat, t: nat): PC {
    if BlocksAt(c.blocks, r) > 1 then (if t < Pairs(c, r) then Merging(r, 0, 0) else Arriving(r + 1)) else Returned
  }

  lemma PermutationLength(c: Config, s: State, b: nat, out: seq<Record>)
    requires Shape(c, s) && Pos(c.m, b + 1) <= |c.input| && Permutation(out, Block(s.buffer, c.m, b))
    ensures |out| == c.m
  {
    PermutationMembers(out, Block(s.buffer, c.m, b));
  }

  /** The next assignment of merge on the ranges starting at `lo`, or its return: new position, new `tmp`. */
  function MergeOne(r: nat, i: nat, j: nat, lo: nat, size: nat, buffer: seq<Record>, tmp: seq<Record>)
    : (PC, seq<Record>)
    requires i <= size && j <= size && lo + 2 * size <= |buffer| == |tmp|
  {
    if i < size && (j < size ==> Compare(buffer[lo + i], buffer[lo + size + j]) <= 0)
    then (Merging(r, i + 1, j), tmp[lo + i + j := buffer[lo + i]])
    else if j < size
    then (Merging(r, i, j + 1), tmp[lo + i + j := buffer[lo + size + j]])
    else (Copying(r, 0), tmp)
  }

  /** The next record of memcpy, or its return: new position, new `buffer`. */
  function CopyOne(r: nat, k: nat, lo: nat, size: nat, buffer: seq<Record>, tmp: seq<Record>): (PC, seq<Record>)
    requires k <= 2 * size && lo + 2 * size <= |buffer| == |tmp|
  {
    if k < 2 * size then (Copying(r, k + 1), buffer[lo + k := tmp[lo + k]]) else (Arriving(r + 1), buffer)
  }

  function Apply(c: Config, s: State, a: Action): State
    requires Shape(c, s) && Enabled(c, s, a)
  {
    var t, pc, m := a.t, s.pcs[a.t], c.m;
    match a
    case QsortMove(_, out) =>
      PermutationLength(c, s, pc.b, out);
      s.(buffer := Overwrite(s.buffer, Pos(m, pc.b), out))
    case QsortEnd(_, out) =>
      PermutationLength(c, s, pc.b, out);
      s.(buffer := Overwrite(s.buffer, Pos(m, pc.b), out), sorts := s.sorts[pc.b := s.sorts[pc.b] + 1],
         pcs := s.pcs[t := Marking(pc.b)])
    case Mark(_) => s.(map_ := s.map_[pc.b := 2], pcs := s.pcs[t := Claiming])
    case Claim(_) =>
      var i := FirstFree(s.map_);
      if i < |s.map_| then s.(map_ := s.map_[i := 1], owner := s.owner[i := t], pcs := s.pcs[t := Sorting(i)])
      else s.(pcs := s.pcs[t := Arriving(0)])
    case Arrive(_) =>
      var s' := s.(pcs := s.pcs[t := Waiting(pc.r)]);
      if LastToArrive(s, t, pc.r)
      then s'.(done := pc.r + 1, stage := s.buffer, base := if pc.r == 0 then s.buffer else s.base)
      else s'
    case Leave(_) => s.(pcs := s.pcs[t := AfterBarrier(c, pc.r, t)])
    case MergeMove(_) =>
      var (pc', tmp') := MergeOne(pc.r, pc.i, pc.j, Start(c, pc.r, t), Size(c, pc.r), s.buffer, s.tmp);
      s.(tmp := tmp', pcs := s.pcs[t := pc'])
    case CopyMove(_) =>
      var (pc', buffer') := CopyOne(pc.r, pc.k, Start(c, pc.r, t), Size(c, pc.r), s.buffer, s.tmp);
      s.(buffer := buffer', pcs := s.pcs[t := pc'])
  }

  /** One step of some thread. Shape is no restriction: every reachable state has it (Reachable). */
  ghost predicate Next(c: Config, s: State, s': State) {
    Shape(c, s) && exists a :: Enabled(c, s, a) && s' == Apply(c, s, a)
  }

  ghost predicate IsRun(c: Config, run: seq<State>) {
    && |run| > 0 && Init(c, run[0])
    && forall k :: 0 <= k < |run| - 1 ==> Next(c, run[k], run[k + 1])
  }

  // ----- the invariant

  predicate Owns(pc: PC, b: nat) { pc == Sorting(b) || pc == Marking(b) }

  predicate InClaimPhase(pc: PC) { pc.Sorting? || pc.Marking? || pc.Claiming? || pc == Arriving(0) || pc == Waiting(0) }

  /** Block `b` while blocks are being claimed: 0 free, 1 with its one owner, 2 sorted. */
  predicate BlockInv(c: Config, s: State, b: nat)
    requires Shape(c, s) && b < c.blocks
  {
    && s.map_[b] <= 2
    && (s.map_[b] == 1 ==> s.owner[b] < c.threads && Owns(s.pcs[s.owner[b]], b))
    && s.sorts[b] == (if s.map_[b] == 2 || (s.map_[b] == 1 && s.pcs[s.owner[b]] == Marking(b)) then 1 else 0)
    && Permutation(Block(s.buffer, c.m, b), Block(c.input, c.m, b))
    && (s.sorts[b] == 1 ==> Sorted(Block(s.buffer, c.m, b)))
  }

  predicate ThreadInv(c: Config, s: State, t: nat)
    requires Shape(c, s) && t < c.threads
  {
    && InClaimPhase(s.pcs[t])
    && (forall b :: 0 <= b < c.blocks && Owns(s.pcs[t], b) ==> s.map_[b] == 1 && s.owner[b] == t)
    && (s.pcs[t].Arriving? || s.pcs[t].Waiting? ==> forall b :: 0 <= b < c.blocks ==> s.map_[b] != 0)
  }

  predicate ClaimInv(c: Config, s: State)
    requires Shape(c, s)
  {
    && (forall b :: 0 <= b < c.blocks ==> BlockInv(c, s, b))
    && (forall t :: 0 <= t < c.threads ==> ThreadInv(c, s, t))
    && Pos(c.m, c.blocks) <= |c.input| && s.buffer[Pos(c.m, c.blocks)..] == c.input[Pos(c.m, c.blocks)..]
  }

  /** A buffer in which every block is a sorted rearrangement of the same block of the part. */
  predicate BlockwiseSorted(c: Config, base: seq<Record>)
  {
    && |base| == |c.input| && Pos(c.m, c.blocks) <= |c.input|
    && BlocksSorted(base, c.m, c.blocks)
    && (forall b :: 0 <= b < c.blocks ==> Permutation(Block(base, c.m, b), Block(c.input, c.m, b)))
    && base[Pos(c.m, c.blocks)..] == c.input[Pos(c.m, c.blocks)..]
  }

  /** A thread that has a pair in the round after round `r`, with its two neighbouring ranges at `lo`: where it
      is says which part of the merge is in `tmp` and which part is back in `buffer`. */
  ghost predicate PairOk(pc: PC, r: nat, lo: nat, size: nat, buffer: seq<Record>, tmp: seq<Record>,
                         stage: seq<Record>) {
    var hi := lo + 2 * size;
    && hi <= |stage| == |buffer| == |tmp|
    && var left, right := stage[lo..lo + size], stage[lo + size..hi];
       var m := MergeSeq(left, right);
       match pc
       case Waiting(q) =>
         if q == r then forall k :: lo <= k < hi ==> buffer[k] == stage[k]
         else q == r + 1 && forall k :: lo <= k < hi ==> buffer[k] == m[k - lo]
       case Arriving(q) => q == r + 1 && forall k :: lo <= k < hi ==> buffer[k] == m[k - lo]
       case Merging(q, i, j) =>
         && q == r && Front(left, right, i, j)
         && (forall k :: lo <= k < hi ==> buffer[k] == stage[k])
         && (forall k :: lo <= k < lo + i + j ==> tmp[k] == m[k - lo])
       case Copying(q, n) =>
         && q == r && n <= 2 * size
         && (forall k :: lo <= k < hi ==> tmp[k] == m[k - lo])
         && (forall k :: lo <= k < lo + n ==> buffer[k] == m[k - lo])
       case _ => false
  }

  ghost predicate PairInv(c: Config, s: State, r: nat, t: nat)
    requires Shape(c, s) && t < c.threads
  {
    PairOk(s.pcs[t], r, Start(c, r, t), Size(c, r), s.buffer, s.tmp, s.stage)
  }

  ghost predicate RoundsInv(c: Config, s: State)
    requires Shape(c, s) && s.done > 0
  {
    var r := s.done - 1;
    var n := Min(c.threads, Pairs(c, r));
    && r <= Log2(c.blocks) && BlockwiseSorted(c, s.base)
    && s.stage == AfterRounds(s.base, c.m, c.blocks, c.threads, r)
    && (forall b :: 0 <= b < c.blocks ==> s.map_[b] == 2 && s.sorts[b] == 1)
    && Start(c, r, n) <= |c.input|
    && (forall t :: 0 <= t < n ==> PairInv(c, s, r, t))
    && (forall t :: n <= t < c.threads ==>
          s.pcs[t] == Waiting(r)
          || (if r < Log2(c.blocks)
              then s.pcs[t] == Arriving(r + 1) || s.pcs[t] == Waiting(r + 1)
              else s.pcs[t] == Returned))
    && (forall k :: Start(c, r, n) <= k < |c.input| ==> s.buffer[k] == s.stage[k])
  }

  ghost predicate Inv(c: Config, s: State) {
    && Shape(c, s)
    && (exists t :: 0 <= t < c.threads && s.pcs[t] != Waiting(s.done))
    && (if s.done == 0 then ClaimInv(c, s) else RoundsInv(c, s))
  }

  lemma BlocksCoverPart(c: Config)
    requires c.Valid()
    ensures Pos(c.m, c.blocks) <= |c.input|
  {
    PosIsProduct(c.m, c.blocks);
  }

  lemma InitInv(c: Config, s: State)
    requires Init(c, s)
    ensures Inv(c, s)
  {
    hide Block, Sorted;
    BlocksCoverPart(c);
    forall t | 0 <= t < c.threads ensures PcShape(c, s.pcs[t], t) {
      if t < c.blocks { PosMono(c.m, t + 1, c.blocks); }
    }
    assert s.pcs[0] != Waiting(0);
  }

  /** Where a thread can be once barrier 0 is complete, `r` rounds being done. */
  lemma RoundPositions(c: Config, s: State, t: nat)
    requires Inv(c, s) && t < c.threads && s.done > 0
    ensures var r, pc := s.done - 1, s.pcs[t];
            && r <= Log2(c.blocks)
            && (pc == Waiting(r) || pc == Waiting(r + 1) || pc == Arriving(r + 1) || pc.Returned?
                || (pc.Merging? && pc.r == r) || (pc.Copying? && pc.r == r))
            && (r == Log2(c.blocks) ==> pc == Waiting(r) || pc.Returned?)
            && (pc.Returned? ==> r == Log2(c.blocks))
  {
    hide Pos, BlockwiseSorted, MergeSeq, AfterRounds, PowerOfTwo, SizeAt;
    PairsInside(c, s.done - 1, t);
    if t < Min(c.threads, Pairs(c, s.done - 1)) { assert PairInv(c, s, s.done - 1, t); }
  }

  // ----- claim phase steps

  lemma OtherBlocks(c: Config, buffer: seq<Record>, b: nat, out: seq<Record>)
    requires c.Valid() && |buffer| == |c.input| && b < c.blocks && Pos(c.m, b + 1) <= |buffer| && |out| == c.m
    ensures Pos(c.m, b) + |out| <= |buffer|
    ensures Block(Overwrite(buffer, Pos(c.m, b), out), c.m, b) == out
    ensures forall d :: 0 <= d < c.blocks && d != b ==>
              Block(Overwrite(buffer, Pos(c.m, b), out), c.m, d) == Block(buffer, c.m, d)
    ensures Pos(c.m, c.blocks) <= |buffer|
    ensures Overwrite(buffer, Pos(c.m, b), out)[Pos(c.m, c.blocks)..] == buffer[Pos(c.m, c.blocks)..]
  {
    PosNext(c.m, b);
    BlocksCoverPart(c);
    hide Overwrite, Pos, Block, PowerOfTwo;
    var m, u := c.m, Overwrite(buffer, Pos(c.m, b), out);
    OverwriteInside(buffer, Pos(m, b), out);
    BlockFits(u, m, b + 1, b);
    forall d | 0 <= d < c.blocks && d != b ensures Block(u, m, d) == Block(buffer, m, d) {
      BlockFits(u, m, c.blocks, d);
      BlockFits(buffer, m, c.blocks, d);
      PosNext(m, d);
      if d < b { PosMono(m, d + 1, b); } else { PosMono(m, b + 1, d); }
      OverwriteOutside(buffer, Pos(m, b), out, Pos(m, d), Pos(m, d + 1));
    }
    PosMono(m, b + 1, c.blocks);
    OverwriteOutside(buffer, Pos(m, b), out, Pos(m, c.blocks), |u|);
  }

  predicate BeforeBarrierZero(pc: PC) { pc.Sorting? || pc.Marking? || pc.Claiming? || pc == Arriving(0) }

  /** Once barrier 0 is complete no thread is back in the claim phase. */
  lemma RoundsPcs(c: Config, s: State, t: nat)
    requires Inv(c, s) && t < c.threads && s.done > 0
    ensures !BeforeBarrierZero(s.pcs[t])
  {
    hide Pos, BlockwiseSorted, MergeSeq, AfterRounds, PowerOfTwo, Log2, BlocksAt, SizeAt;
    if t < Min(c.threads, Pairs(c, s.done - 1)) { assert PairInv(c, s, s.done - 1, t); }
  }

  lemma QsortKeeps(c: Config, s: State, a: Action)
    requires Shape(c, s) && ClaimInv(c, s) && (a.QsortMove? || a.QsortEnd?) && Enabled(c, s, a)
    ensures Shape(c, Apply(c, s, a)) && ClaimInv(c, Apply(c, s, a))
  {
    hide Block, Sorted, Overwrite, Pos, PowerOfTwo, Log2, BlocksAt, SizeAt;
    var b, s' := s.pcs[a.t].b, Apply(c, s, a);
    assert ThreadInv(c, s, a.t) && BlockInv(c, s, b);
    PermutationLength(c, s, b, a.out);
    OtherBlocks(c, s.buffer, b, a.out);
    forall d | 0 <= d < c.blocks ensures BlockInv(c, s', d) { assert BlockInv(c, s, d); }
    forall t | 0 <= t < c.threads ensures ThreadInv(c, s', t) { assert ThreadInv(c, s, t); }
  }

  lemma MarkKeeps(c: Config, s: State, a: Action)
    requires Shape(c, s) && ClaimInv(c, s) && a.Mark? && Enabled(c, s, a)
    ensures Shape(c, Apply(c, s, a)) && ClaimInv(c, Apply(c, s, a))
  {
    hide Block, Sorted, Pos, Permutation, PowerOfTwo, Log2, BlocksAt, SizeAt;
    var b, s' := s.pcs[a.t].b, Apply(c, s, a);
    assert ThreadInv(c, s, a.t) && BlockInv(c, s, b);
    forall d | 0 <= d < c.blocks ensures BlockInv(c, s', d) { assert BlockInv(c, s, d); }
    forall t | 0 <= t < c.threads ensures ThreadInv(c, s', t) { assert ThreadInv(c, s, t); }
  }

  lemma ClaimKeeps(c: Config, s: State, a: Action)
    requires Shape(c, s) && ClaimInv(c, s) && a.Claim? && Enabled(c, s, a)
    ensures Shape(c, Apply(c, s, a)) && ClaimInv(c, Apply(c, s, a))
  {
    hide Block, Sorted, Permutation, PowerOfTwo, Log2, BlocksAt, SizeAt;
    var i, s' := FirstFree(s.map_), Apply(c, s, a);
    assert ThreadInv(c, s, a.t);
    if i < c.blocks { PosMono(c.m, i + 1, c.blocks); }
    hide Pos;
    forall d | 0 <= d < c.blocks ensures BlockInv(c, s', d) { assert BlockInv(c, s, d); }
    forall t | 0 <= t < c.threads ensures ThreadInv(c, s', t) { assert ThreadInv(c, s, t); }
  }

  /** The last arrival at barrier 0 finds every entry 2 and every block sorted once. */
  lemma ClaimComplete(c: Config, s: State)
    requires Shape(c, s) && ClaimInv(c, s)
    requires forall t :: 0 <= t < c.threads ==> s.pcs[t] == Arriving(0) || s.pcs[t] == Waiting(0)
    ensures forall b :: 0 <= b < c.blocks ==> s.map_[b] == 2 && s.sorts[b] == 1
    ensures BlockwiseSorted(c, s.buffer)
  {
    hide Block, Sorted, Permutation, Pos, PowerOfTwo, Log2, BlocksAt, SizeAt;
    assert ThreadInv(c, s, 0);
    forall b | 0 <= b < c.blocks ensures s.map_[b] == 2 && s.sorts[b] == 1 { assert BlockInv(c, s, b); }
    forall b | 0 <= b < c.blocks
      ensures Sorted(Block(s.buffer, c.m, b)) && Permutation(Block(s.buffer, c.m, b), Block(c.input, c.m, b))
    {
      assert BlockInv(c, s, b);
    }
  }

  lemma ArriveAtZeroKeeps(c: Config, s: State, a: Action)
    requires Inv(c, s) && s.done == 0 && a.Arrive? && Enabled(c, s, a)
    ensures Inv(c, Apply(c, s, a))
  {
    hide Block, Sorted, Permutation, Pos, BlockwiseSorted, PowerOfTwo, Log2, BlocksAt, SizeAt;
    var s' := Apply(c, s, a);
    assert ThreadInv(c, s, a.t);
    if LastToArrive(s, a.t, 0) {
      ClaimComplete(c, s);
      RoundStarts(c, s');
      assert s'.pcs[a.t] != Waiting(1);
    } else {
      var u :| 0 <= u < c.threads && u != a.t && s.pcs[u] != Waiting(0);
      assert s'.pcs[u] != Waiting(0);
      forall d | 0 <= d < c.blocks ensures BlockInv(c, s', d) { assert BlockInv(c, s, d); }
      forall t | 0 <= t < c.threads ensures ThreadInv(c, s', t) { assert ThreadInv(c, s, t); }
    }
  }

  lemma PairsInside(c: Config, r: nat, t: nat)
    requires c.Valid() && r <= Log2(c.blocks)
    ensures Start(c, r, Min(c.threads, Pairs(c, r))) <= Pos(c.m, c.blocks) <= |c.input|
    ensures t < Min(c.threads, Pairs(c, r)) ==>
              Start(c, r, t) + 2 * Size(c, r) == Start(c, r, t + 1) <= |c.input| && r < Log2(c.blocks)
    ensures r < Log2(c.blocks) <==> BlocksAt(c.blocks, r) > 1
  {
    BlocksCoverPart(c);
    LevelFits(c.m, c.blocks, r);
    PairsFit(SizeAt(c.m, r), BlocksAt(c.blocks, r), c.threads);
    if t < Min(c.threads, Pairs(c, r)) {
      PosMono(2 * SizeAt(c.m, r), t + 1, Min(c.threads, Pairs(c, r)));
    }
  }

  /** A barrier has just opened: all threads wait and the buffer is the stage. */
  lemma RoundStarts(c: Config, s: State)
    requires Shape(c, s) && s.done > 0 && s.done - 1 <= Log2(c.blocks)
    requires forall t :: 0 <= t < c.threads ==> s.pcs[t] == Waiting(s.done - 1)
    requires BlockwiseSorted(c, s.base) && (forall b :: 0 <= b < c.blocks ==> s.map_[b] == 2 && s.sorts[b] == 1)
    requires Pos(c.m, c.blocks) <= |c.input| && s.stage == s.buffer
    requires s.stage == AfterRounds(s.base, c.m, c.blocks, c.threads, s.done - 1)
    ensures RoundsInv(c, s)
  {
    hide Pos, MergeSeq, AfterRounds, BlockwiseSorted, PowerOfTwo, Log2, BlocksAt, SizeAt;
    var r := s.done - 1;
    PairsInside(c, r, 0);
    forall t | 0 <= t < Min(c.threads, Pairs(c, r)) ensures PairInv(c, s, r, t) { PairsInside(c, r, t); }
  }

  // ----- merge round steps

  lemma EmitLeft(r: nat, i: nat, j: nat, lo: nat, size: nat, buffer: seq<Record>, tmp: seq<Record>, stage: seq<Record>)
    requires PairOk(Merging(r, i, j), r, lo, size, buffer, tmp, stage)
    requires TakesLeft(stage[lo..lo + size], stage[lo + size..lo + 2 * size], i, j)
    ensures PairOk(Merging(r, i + 1, j), r, lo, size, buffer, tmp[lo + i + j := buffer[lo + i]], stage)
  {
    hide MergeSeq;
    FrontLeft(stage[lo..lo + size], stage[lo + size..lo + 2 * size], i, j);
    assert buffer[lo + i] == stage[lo + i];
  }

  lemma EmitRight(r: nat, i: nat, j: nat, lo: nat, size: nat, buffer: seq<Record>, tmp: seq<Record>, stage: seq<Record>)
    requires PairOk(Merging(r, i, j), r, lo, size, buffer, tmp, stage)
    requires !TakesLeft(stage[lo..lo + size], stage[lo + size..lo + 2 * size], i, j) && j < size
    ensures PairOk(Merging(r, i, j + 1), r, lo, size, buffer, tmp[lo + i + j := buffer[lo + size + j]], stage)
  {
    hide MergeSeq;
    FrontRight(stage[lo..lo + size], stage[lo + size..lo + 2 * size], i, j);
    assert buffer[lo + size + j] == stage[lo + size + j];
  }

  lemma MergeOneOk(r: nat, i: nat, j: nat, lo: nat, size: nat, buffer: seq<Record>, tmp: seq<Record>,
                   stage: seq<Record>)
    requires PairOk(Merging(r, i, j), r, lo, size, buffer, tmp, stage)
    ensures i <= size && j <= size
    ensures var next := MergeOne(r, i, j, lo, size, buffer, tmp);
            PairOk(next.0, r, lo, size, buffer, next.1, stage) && !next.0.Waiting? && |next.1| == |tmp| == |buffer|
    ensures forall k :: 0 <= k < |tmp| && !(lo <= k < lo + 2 * size) ==>
              MergeOne(r, i, j, lo, size, buffer, tmp).1[k] == tmp[k]
  {
    var left, right := stage[lo..lo + size], stage[lo + size..lo + 2 * size];
    assert i < size ==> buffer[lo + i] == stage[lo + i] == left[i];
    assert j < size ==> buffer[lo + size + j] == stage[lo + size + j] == right[j];
    if TakesLeft(left, right, i, j) {
      EmitLeft(r, i, j, lo, size, buffer, tmp, stage);
    } else if j < size {
      EmitRight(r, i, j, lo, size, buffer, tmp, stage);
    }
  }

  lemma CopyOneOk(r: nat, n: nat, lo: nat, size: nat, buffer: seq<Record>, tmp: seq<Record>, stage: seq<Record>)
    requires PairOk(Copying(r, n), r, lo, size, buffer, tmp, stage)
    ensures var next := CopyOne(r, n, lo, size, buffer, tmp);
            PairOk(next.0, r, lo, size, next.1, tmp, stage) && !next.0.Waiting? && |next.1| == |tmp| == |buffer|
    ensures forall k :: 0 <= k < |buffer| && !(lo <= k < lo + 2 * size) ==>
              CopyOne(r, n, lo, size, buffer, tmp).1[k] == buffer[k]
  {
    hide MergeSeq;
  }

  lemma PairOkFrame(pc: PC, r: nat, lo: nat, size: nat, buffer: seq<Record>, tmp: seq<Record>, stage: seq<Record>,
                    buffer': seq<Record>, tmp': seq<Record>)
    requires PairOk(pc, r, lo, size, buffer, tmp, stage) && |buffer'| == |buffer| && |tmp'| == |tmp|
    requires forall k :: lo <= k < lo + 2 * size ==> buffer'[k] == buffer[k] && tmp'[k] == tmp[k]
    ensures PairOk(pc, r, lo, size, buffer', tmp', stage)
  {
    hide MergeSeq;
    if pc.Merging? { assert pc.i <= size && pc.j <= size; }
  }

  /** The ranges of two threads in one round do not meet. */
  lemma RangesDisjoint(c: Config, r: nat, t: nat, u: nat)
    requires t != u
    ensures Start(c, r, t) + 2 * Size(c, r) <= Start(c, r, u) || Start(c, r, u) + 2 * Size(c, r) <= Start(c, r, t)
  {
    if t < u { PosMono(2 * Size(c, r), t + 1, u); } else { PosMono(2 * Size(c, r), u + 1, t); }
  }

  /** `s'` differs from `s` at most in thread `t`'s position and in its own range of the two buffers. */
  ghost predicate OnlyTouches(c: Config, s: State, s': State, r: nat, t: nat) {
    && t < |s.pcs| == |s'.pcs| && |s'.buffer| == |s.buffer| == |s'.tmp| == |s.tmp|
    && s' == s.(buffer := s'.buffer, tmp := s'.tmp, pcs := s'.pcs)
    && (forall u :: 0 <= u < |s.pcs| && u != t ==> s'.pcs[u] == s.pcs[u])
    && (forall k :: 0 <= k < |s.buffer| && !(Start(c, r, t) <= k < Start(c, r, t) + 2 * Size(c, r)) ==>
          s'.buffer[k] == s.buffer[k] && s'.tmp[k] == s.tmp[k])
  }

  lemma RoundsFrame(c: Config, s: State, s': State, t: nat)
    requires Inv(c, s) && Shape(c, s') && s.done > 0
    requires t < Min(c.threads, Pairs(c, s.done - 1)) && OnlyTouches(c, s, s', s.done - 1, t)
    requires PairInv(c, s', s.done - 1, t)
    requires s'.pcs[t] != Waiting(s.done)
    ensures Inv(c, s')
  {
    hide Pos, PairOk, AfterRounds, BlockwiseSorted, PowerOfTwo, Log2, BlocksAt, SizeAt;
    var r := s.done - 1;
    var n := Min(c.threads, Pairs(c, r));
    forall u | 0 <= u < n ensures PairInv(c, s', r, u) {
      if u != t {
        RangesDisjoint(c, r, t, u);
        assert PairInv(c, s, r, u);
        assert Start(c, r, u) + 2 * Size(c, r) <= |s.buffer| by {
          PairInBounds(s.pcs[u], r, Start(c, r, u), Size(c, r), s.buffer, s.tmp, s.stage);
        }
        PairOkFrame(s.pcs[u], r, Start(c, r, u), Size(c, r), s.buffer, s.tmp, s.stage, s'.buffer, s'.tmp);
      }
    }
    assert Start(c, r, t) + 2 * Size(c, r) <= Start(c, r, n) by {
      PairsInside(c, r, t);
      PosMono(2 * Size(c, r), t + 1, n);
    }
    assert RoundsInv(c, s');
  }

  lemma ClaimPcs(c: Config, s: State, t: nat)
    requires Inv(c, s) && t < c.threads && s.done == 0
    ensures InClaimPhase(s.pcs[t])
  {
    hide Pos, BlockInv, PowerOfTwo, Log2, BlocksAt, SizeAt;
    assert ThreadInv(c, s, t);
  }

  /** A thread that is merging or copying is in the current round and has a pair. */
  lemma BusyThread(c: Config, s: State, t: nat)
    requires Inv(c, s) && t < c.threads && (s.pcs[t].Merging? || s.pcs[t].Copying?)
    ensures s.done > 0 && s.pcs[t].r == s.done - 1
    ensures t < Min(c.threads, Pairs(c, s.done - 1)) && PairInv(c, s, s.done - 1, t)
  {
    hide Pos, MergeSeq, AfterRounds, BlockwiseSorted, PowerOfTwo, Log2, BlocksAt, SizeAt;
    if s.done == 0 {
      ClaimPcs(c, s, t);
    } else {
      assert t < Min(c.threads, Pairs(c, s.done - 1)) ==> PairInv(c, s, s.done - 1, t);
    }
  }

  lemma PairInBounds(pc: PC, r: nat, lo: nat, size: nat, buffer: seq<Record>, tmp: seq<Record>, stage: seq<Record>)
    requires PairOk(pc, r, lo, size, buffer, tmp, stage)
    ensures lo + 2 * size <= |buffer| == |tmp| == |stage|
  {
  }

  lemma ShapeFrame(c: Config, s: State, s': State, r: nat, t: nat)
    requires Shape(c, s) && t < c.threads && OnlyTouches(c, s, s', r, t) && PcShape(c, s'.pcs[t], t)
    ensures Shape(c, s')
  {
    hide PcShape, PowerOfTwo, Log2, BlocksAt, SizeAt;
  }

  lemma PairOkShape(c: Config, pc: PC, r: nat, t: nat, buffer: seq<Record>, tmp: seq<Record>, stage: seq<Record>)
    requires PairOk(pc, r, Start(c, r, t), Size(c, r), buffer, tmp, stage) && |stage| == |c.input|
    ensures PcShape(c, pc, t)
  {
    hide MergeSeq, Pos, PowerOfTwo, Log2, BlocksAt, SizeAt;
  }

  lemma MergeMoveEffect(c: Config, s: State, a: Action)
    requires Shape(c, s) && a.MergeMove? && Enabled(c, s, a) && PairInv(c, s, s.pcs[a.t].r, a.t)
    ensures var s' := Apply(c, s, a);
            Shape(c, s') && PairInv(c, s', s.pcs[a.t].r, a.t) && OnlyTouches(c, s, s', s.pcs[a.t].r, a.t)
            && !s'.pcs[a.t].Waiting? && s'.done == s.done
  {
    hide PairOk, Pos, MergeOne, PcShape, PowerOfTwo, SizeAt;
    var t, pc, s' := a.t, s.pcs[a.t], Apply(c, s, a);
    assert PcShape(c, pc, t);
    MergeOneOk(pc.r, pc.i, pc.j, Start(c, pc.r, t), Size(c, pc.r), s.buffer, s.tmp, s.stage);
    PairOkShape(c, s'.pcs[t], pc.r, t, s.buffer, s'.tmp, s.stage);
    ShapeFrame(c, s, s', pc.r, t);
  }

  lemma MergeMoveKeeps(c: Config, s: State, a: Action)
    requires Inv(c, s) && a.MergeMove? && Enabled(c, s, a)
    ensures Inv(c, Apply(c, s, a))
  {
    assert Shape(c, s);
    hide RoundsInv, ClaimInv, PairOk, PcShape, Pos, Inv, Apply, PairInv, OnlyTouches;
    BusyThread(c, s, a.t);
    MergeMoveEffect(c, s, a);
    RoundsFrame(c, s, Apply(c, s, a), a.t);
  }

  lemma CopyMoveEffect(c: Config, s: State, a: Action)
    requires Shape(c, s) && a.CopyMove? && Enabled(c, s, a) && PairInv(c, s, s.pcs[a.t].r, a.t)
    ensures var s' := Apply(c, s, a);
            Shape(c, s') && PairInv(c, s', s.pcs[a.t].r, a.t) && OnlyTouches(c, s, s', s.pcs[a.t].r, a.t)
            && !s'.pcs[a.t].Waiting? && s'.done == s.done
  {
    hide PairOk, Pos, CopyOne, PcShape, PowerOfTwo, SizeAt;
    var t, pc, s' := a.t, s.pcs[a.t], Apply(c, s, a);
    assert PcShape(c, pc, t);
    CopyOneOk(pc.r, pc.k, Start(c, pc.r, t), Size(c, pc.r), s.buffer, s.tmp, s.stage);
    PairOkShape(c, s'.pcs[t], pc.r, t, s'.buffer, s.tmp, s.stage);
    ShapeFrame(c, s, s', pc.r, t);
  }

  lemma CopyMoveKeeps(c: Config, s: State, a: Action)
    requires Inv(c, s) && a.CopyMove? && Enabled(c, s, a)
    ensures Inv(c, Apply(c, s, a))
  {
    assert Shape(c, s);
    hide RoundsInv, ClaimInv, PairOk, PcShape, Pos, Inv, Apply, PairInv, OnlyTouches;
    BusyThread(c, s, a.t);
    CopyMoveEffect(c, s, a);
    RoundsFrame(c, s, Apply(c, s, a), a.t);
  }

  /** A thread with a pair that leaves the barrier of round `r` finds its ranges as they were there. */
  lemma PairStarts(pc: PC, r: nat, lo: nat, size: nat, buffer: seq<Record>, tmp: seq<Record>, stage: seq<Record>)
    requires PairOk(pc, r, lo, size, buffer, tmp, stage) && pc.Waiting? && pc.r <= r
    ensures pc == Waiting(r) && PairOk(Merging(r, 0, 0), r, lo, size, buffer, tmp, stage)
  {
    hide MergeSeq, Front;
    FrontStart(stage[lo..lo + size], stage[lo + size..lo + 2 * size]);
  }

  lemma LeaveWithPair(c: Config, s: State, a: Action)
    requires Inv(c, s) && s.done > 0 && a.Leave? && Enabled(c, s, a) && a.t < Min(c.threads, Pairs(c, s.done - 1))
    ensures Inv(c, Apply(c, s, a))
  {
    hide Pos, PairOk, AfterRounds, BlockwiseSorted, PowerOfTwo, Log2, BlocksAt, SizeAt, BlockInv;
    var t, r, s' := a.t, s.done - 1, Apply(c, s, a);
    PairsInside(c, r, t);
    assert PairInv(c, s, r, t);
    PairStarts(s.pcs[t], r, Start(c, r, t), Size(c, r), s.buffer, s.tmp, s.stage);
    assert s' == s.(pcs := s.pcs[t := Merging(r, 0, 0)]);
    assert Shape(c, s') && PairInv(c, s', r, t);
    hide RoundsInv, Shape, Apply;
    RoundsFrame(c, s, s', t);
  }

  lemma LeaveKeeps(c: Config, s: State, a: Action)
    requires Inv(c, s) && a.Leave? && Enabled(c, s, a)
    ensures Inv(c, Apply(c, s, a))
  {
    hide Pos, PairOk, AfterRounds, BlockwiseSorted, PowerOfTwo, Log2, BlocksAt, SizeAt;
    var t, r, s' := a.t, s.done - 1, Apply(c, s, a);
    if t < Min(c.threads, Pairs(c, r)) {
      LeaveWithPair(c, s, a);
    } else {
      PairsInside(c, r, t);
      forall u | 0 <= u < Min(c.threads, Pairs(c, r)) ensures PairInv(c, s', r, u) { assert PairInv(c, s, r, u); }
      assert s'.pcs[t] != Waiting(s.done);
    }
  }

  lemma ArriveKeeps(c: Config, s: State, a: Action)
    requires Inv(c, s) && s.done > 0 && a.Arrive? && Enabled(c, s, a)
    ensures Inv(c, Apply(c, s, a))
  {
    hide Pos, MergeSeq, AfterRounds, BlockwiseSorted, Front, PowerOfTwo, Log2, BlocksAt, SizeAt;
    var t, r, s' := a.t, s.done - 1, Apply(c, s, a);
    PairsInside(c, r, t);
    var n := Min(c.threads, Pairs(c, r));
    assert t < n ==> PairInv(c, s, r, t);
    if LastToArrive(s, t, r + 1) {
      RoundEnds(c, s, t);
      RoundStarts(c, s');
      assert s'.pcs[t] != Waiting(s'.done);
    } else {
      var w :| 0 <= w < c.threads && w != t && s.pcs[w] != Waiting(r + 1);
      assert s'.pcs[w] != Waiting(r + 1);
      forall u | 0 <= u < n ensures PairInv(c, s', r, u) { assert PairInv(c, s, r, u); }
    }
  }

  lemma PairDone(pc: PC, r: nat, t: nat, size: nat, buffer: seq<Record>, tmp: seq<Record>, stage: seq<Record>)
    requires PairOk(pc, r, Pos(2 * size, t), size, buffer, tmp, stage)
    requires pc == Waiting(r + 1) || pc == Arriving(r + 1)
    ensures Block(buffer, 2 * size, t) == PairMerge(stage, size, t)
  {
    hide MergeSeq;
    Halves(stage, size, t);
    assert Pos(2 * size, t + 1) == Pos(2 * size, t) + 2 * size;
  }

  lemma AllPairsDone(c: Config, s: State, t: nat, r: nat, n: nat, size: nat, width: nat)
    requires Shape(c, s) && s.done > 0 && RoundsInv(c, s) && t < c.threads
    requires s.pcs[t] == Arriving(s.done) && LastToArrive(s, t, s.done)
    requires r == s.done - 1 && n == Min(c.threads, Pairs(c, r)) && size == Size(c, r) && width == 2 * size
    ensures forall u :: 0 <= u < n ==> Block(s.buffer, width, u) == PairMerge(s.stage, size, u)
  {
    hide PairOk, PairMerge, BlockwiseSorted, Pos, Block, AfterRounds, PowerOfTwo, Log2, SizeAt, BlocksAt;
    forall u | 0 <= u < n ensures Block(s.buffer, width, u) == PairMerge(s.stage, size, u) {
      assert PairInv(c, s, r, u);
      PairDone(s.pcs[u], r, u, size, s.buffer, s.tmp, s.stage);
    }
  }

  /** When every thread has reached the barrier the buffer is the stage after one more round. */
  lemma RoundEnds(c: Config, s: State, t: nat)
    requires Shape(c, s) && s.done > 0 && RoundsInv(c, s) && t < c.threads
    requires s.pcs[t] == Arriving(s.done) && LastToArrive(s, t, s.done)
    ensures s.done <= Log2(c.blocks) && Pos(c.m, c.blocks) <= |c.input|
    ensures s.buffer == AfterRounds(s.base, c.m, c.blocks, c.threads, s.done)
  {
    hide PairInv, BlockwiseSorted, Pos, MergeRound, PowerOfTwo, Log2, Block;
    var r := s.done - 1;
    AllPairsDone(c, s, t, r, Min(c.threads, Pairs(c, r)), Size(c, r), 2 * Size(c, r));
    PairsInside(c, r, t);
    RoundUnique(s.stage, s.buffer, Size(c, r), Min(c.threads, Pairs(c, r)));
  }

  // ----- main results

  lemma StepKeepsInv(c: Config, s: State, a: Action)
    requires Inv(c, s) && Enabled(c, s, a)
    ensures Inv(c, Apply(c, s, a))
  {
    hide ClaimInv, RoundsInv, Shape, PowerOfTwo, Log2, BlocksAt, SizeAt;
    match a
    case QsortMove(_, _) => ClaimSteps(c, s, a);
    case QsortEnd(_, _) => ClaimSteps(c, s, a);
    case Mark(_) => ClaimSteps(c, s, a);
    case Claim(_) => ClaimSteps(c, s, a);
    case Arrive(_) => if s.done == 0 { ArriveAtZeroKeeps(c, s, a); } else { ArriveKeeps(c, s, a); }
    case Leave(_) => LeaveKeeps(c, s, a);
    case MergeMove(_) => MergeMoveKeeps(c, s, a);
    case CopyMove(_) => CopyMoveKeeps(c, s, a);
  }

  lemma ClaimSteps(c: Config, s: State, a: Action)
    requires Inv(c, s) && Enabled(c, s, a) && (a.QsortMove? || a.QsortEnd? || a.Mark? || a.Claim?)
    ensures Inv(c, Apply(c, s, a))
  {
    hide ClaimInv, RoundsInv, Overwrite, PowerOfTwo, Log2, BlocksAt, SizeAt;
    if s.done > 0 { RoundsPcs(c, s, a.t); }
    assert s.done == 0;
    if a.Mark? { MarkKeeps(c, s, a); } else if a.Claim? { ClaimKeeps(c, s, a); } else { QsortKeeps(c, s, a); }
    assert Apply(c, s, a).pcs[a.t] != Waiting(0);
  }

  /** Every state of every run has the invariant. */
  lemma {:induction false} Reachable(c: Config, run: seq<State>, k: nat)
    requires IsRun(c, run) && k < |run|
    ensures Inv(c, run[k])
  {
    hide Inv;
    if k == 0 {
      InitInv(c, run[0]);
    } else {
      Reachable(c, run, k - 1);
      assert Next(c, run[k - 1], run[k]);
      var a :| Enabled(c, run[k - 1], a) && run[k] == Apply(c, run[k - 1], a);
      StepKeepsInv(c, run[k - 1], a);
    }
  }

  /** Map entries only move 0 to 1 to 2, one step at a time, and a block's sort count only goes up when
      its owner finishes it, from 0 to 1. */
  lemma StepMovesForward(c: Config, s: State, a: Action, b: nat)
    requires Inv(c, s) && Enabled(c, s, a) && b < c.blocks
    ensures var s' := Apply(c, s, a);
            && s.map_[b] <= 2 && (s'.map_[b] == s.map_[b] || s'.map_[b] == s.map_[b] + 1 <= 2)
            && (s'.sorts[b] == s.sorts[b]
                || (s.sorts[b] == 0 && s'.sorts[b] == 1 && a.QsortEnd? && a.t == s.owner[b] && s.map_[b] == 1))
            && (s'.owner[b] == s.owner[b] || (s.map_[b] == 0 && s'.map_[b] == 1))
  {
    hide Block, Overwrite, Pos, PairOk, PowerOfTwo, Log2, BlocksAt, SizeAt, BlockwiseSorted, AfterRounds;
    hide MergeOne, CopyOne;
    StepKeepsInv(c, s, a);
    if s.done == 0 {
      assert BlockInv(c, s, b);
      assert ThreadInv(c, s, a.t);
    } else {
      RoundsPcs(c, s, a.t);
    }
  }

  lemma {:induction false} MapMovesForward(c: Config, run: seq<State>, i: nat, j: nat, b: nat)
    requires IsRun(c, run) && i <= j < |run| && b < c.blocks
    ensures |run[i].map_| == |run[j].map_| == |run[i].sorts| == |run[j].sorts| == c.blocks
    ensures run[i].map_[b] <= run[j].map_[b] <= 2 && run[i].sorts[b] <= run[j].sorts[b] <= 1
    decreases j
  {
    hide Inv, Apply, Enabled, Init;
    Reachable(c, run, i);
    Reachable(c, run, j);
    EntryRange(c, run[i], b);
    EntryRange(c, run[j], b);
    if i < j {
      MapMovesForward(c, run, i, j - 1, b);
      Reachable(c, run, j - 1);
      assert Next(c, run[j - 1], run[j]);
      var a :| Enabled(c, run[j - 1], a) && run[j] == Apply(c, run[j - 1], a);
      StepMovesForward(c, run[j - 1], a, b);
    }
  }

  lemma EntryRange(c: Config, s: State, b: nat)
    requires Inv(c, s) && b < c.blocks
    ensures |s.map_| == |s.sorts| == c.blocks && s.map_[b] <= 2 && s.sorts[b] <= 1
    ensures s.map_[b] == 2 ==> s.sorts[b] == 1
  {
    hide Pos, PairOk, BlockwiseSorted, AfterRounds, PowerOfTwo;
    if s.done == 0 { assert BlockInv(c, s, b); }
  }

  /** When every thread has left the claim loop, every map entry is 2, every block was sorted exactly once,
      and the blocks are sorted rearrangements of what the part held. */
  lemma ClaimPhaseResult(c: Config, run: seq<State>, k: nat)
    requires IsRun(c, run) && k < |run| && |run[k].pcs| == c.threads
    requires forall t :: 0 <= t < c.threads ==> run[k].pcs[t] == Arriving(0) || !BeforeBarrierZero(run[k].pcs[t])
    ensures |run[k].map_| == |run[k].sorts| == c.blocks
    ensures forall b :: 0 <= b < c.blocks ==> run[k].map_[b] == 2 && run[k].sorts[b] == 1
    ensures BlockwiseSorted(c, if run[k].done == 0 then run[k].buffer else run[k].base)
  {
    hide BlockwiseSorted, PairInv, BlockInv, Pos, PowerOfTwo, AfterRounds;
    Reachable(c, run, k);
    var s := run[k];
    if s.done == 0 {
      forall t | 0 <= t < c.threads
        ensures s.pcs[t] == Arriving(0) || s.pcs[t] == Waiting(0)
      {
        assert ThreadInv(c, s, t);
      }
      ClaimComplete(c, s);
    }
  }

  /** What a part may hold when all threads have returned. */
  ghost predicate Outcome(c: Config, out: seq<Record>)
    requires c.Valid()
  {
    exists base :: BlockwiseSorted(c, base) && out == AllRounds(base, c.m, c.blocks, c.threads)
  }

  lemma FinalBuffer(c: Config, s: State)
    requires Inv(c, s) && forall t :: 0 <= t < |s.pcs| ==> s.pcs[t].Returned?
    ensures c.Valid() && BlockwiseSorted(c, s.base) && s.buffer == AllRounds(s.base, c.m, c.blocks, c.threads)
  {
    hide MergeSeq, AfterRounds, BlocksSorted, Block;
    assert s.pcs[0].Returned?;
    if s.done == 0 {
      ClaimPcs(c, s, 0);
    } else {
      RoundPositions(c, s, 0);
      LevelFits(c.m, c.blocks, s.done - 1);
      assert Pairs(c, s.done - 1) == 0;
      assert s.buffer == s.stage;
    }
  }

  /** Every interleaving ends in the buffer that running the merges one by one gives. */
  lemma Finished(c: Config, run: seq<State>, k: nat)
    requires IsRun(c, run) && k < |run|
    requires forall t :: 0 <= t < |run[k].pcs| ==> run[k].pcs[t].Returned?
    ensures c.Valid() && Outcome(c, run[k].buffer)
  {
    hide Inv, BlockwiseSorted, AllRounds;
    Reachable(c, run, k);
    FinalBuffer(c, run[k]);
  }

  // ----- conservation and the exact sortedness of a part

  lemma {:induction false} BlocksPermute(s: seq<Record>, t: seq<Record>, m: nat, n: nat)
    requires Pos(m, n) <= |s| == |t|
    requires forall b :: 0 <= b < n ==> Permutation(Block(s, m, b), Block(t, m, b))
    ensures Permutation(s[..Pos(m, n)], t[..Pos(m, n)])
  {
    if n > 0 {
      BlocksPermute(s, t, m, n - 1);
      var lo, hi := Pos(m, n - 1), Pos(m, n);
      assert Permutation(Block(s, m, n - 1), Block(t, m, n - 1));
      assert s[..hi] == s[..lo] + s[lo..hi] && t[..hi] == t[..lo] + t[lo..hi];
    }
  }

  lemma BlockwisePermutes(c: Config, base: seq<Record>)
    requires c.Valid() && BlockwiseSorted(c, base)
    ensures Permutation(base, c.input) && Permutation(base[..Pos(c.m, c.blocks)], c.input[..Pos(c.m, c.blocks)])
  {
    hide Block, Pos;
    var p := Pos(c.m, c.blocks);
    BlocksPermute(base, c.input, c.m, c.blocks);
    assert base == base[..p] + base[p..] && c.input == c.input[..p] + c.input[p..];
  }

  /** Conservation, for every thread and block count: a finished part is a permutation of what it held, and the
      remainder behind the last block is untouched. */
  lemma OutcomeConserves(c: Config, out: seq<Record>)
    requires c.Valid() && Outcome(c, out)
    ensures Permutation(out, c.input) && Pos(c.m, c.blocks) <= |out| == |c.input|
    ensures Permutation(out[..Pos(c.m, c.blocks)], c.input[..Pos(c.m, c.blocks)])
    ensures out[Pos(c.m, c.blocks)..] == c.input[Pos(c.m, c.blocks)..]
  {
    hide Block, Pos, AfterRounds, BlocksSorted, PowerOfTwo;
    var base :| BlockwiseSorted(c, base) && out == AllRounds(base, c.m, c.blocks, c.threads);
    BlockwisePermutes(c, base);
    RoundsConserve(base, c.m, c.blocks, c.threads, Log2(c.blocks));
    PrefixPermutes(out, base, Pos(c.m, c.blocks));
  }

  lemma PrefixPermutes(s: seq<Record>, t: seq<Record>, p: nat)
    requires Permutation(s, t) && p <= |s| && p <= |t| && s[p..] == t[p..]
    ensures Permutation(s[..p], t[..p])
  {
    assert s == s[..p] + s[p..] && t == t[..p] + t[p..];
    assert multiset(s[..p]) == multiset(s) - multiset(s[p..]);
    assert multiset(t[..p]) == multiset(t) - multiset(t[p..]);
  }

  /** What the part must look like before the sort: every block boundary that no merge spans is in order,
      and the remainder behind the last block is sorted and comes after all blocks. */
  predicate SortCondition(c: Config)
    requires c.Valid()
  {
    BlocksCoverPart(c);
    var p := Pos(c.m, c.blocks);
    BoundariesInOrder(c.input, c.m, c.blocks, c.threads) && Sorted(c.input[p..])
    && AllBefore(c.input[..p], c.input[p..])
  }

  lemma SameBoundaries(c: Config, base: seq<Record>)
    requires c.Valid() && BlockwiseSorted(c, base)
    ensures BoundariesInOrder(base, c.m, c.blocks, c.threads) <==> BoundariesInOrder(c.input, c.m, c.blocks, c.threads)
  {
    hide Block, Pos, BlocksSorted, Permutation, PowerOfTwo;
    forall b | 0 <= b < c.blocks ensures forall x :: x in Block(base, c.m, b) <==> x in Block(c.input, c.m, b) {
      PermutationMembers(Block(base, c.m, b), Block(c.input, c.m, b));
    }
  }

  /** Exactly when a part ends up sorted, in every interleaving and whatever qsort does with equal marks. */
  lemma OutcomeSortedIff(c: Config, out: seq<Record>)
    requires c.Valid() && Outcome(c, out)
    ensures Sorted(out) <==> SortCondition(c)
  {
    hide Block, Pos, AllRounds, BlocksSorted, BoundariesInOrder, Sorted;
    var base :| BlockwiseSorted(c, base) && out == AllRounds(base, c.m, c.blocks, c.threads);
    var p := Pos(c.m, c.blocks);
    OutcomeConserves(c, out);
    RoundsSortIff(base, c.m, c.blocks, c.threads);
    SameBoundaries(c, base);
    SortedConcat(out[..p], out[p..]);
    assert out == out[..p] + out[p..];
    PermutationMembers(out[..p], c.input[..p]);
  }

  // ----- progress

  /** A sorted permutation of any block exists, so qsort's contract can always be met. */
  function SomeSort(s: seq<Record>): (r: seq<Record>)
    ensures Sorted(r) && Permutation(r, s)
  {
    if s == [] then [] else
      var r := SomeSort(s[1..]);
      MergeSortedIff([s[0]], r);
      MergePermutation([s[0]], r);
      assert s == [s[0]] + s[1..];
      MergeSeq([s[0]], r)
  }

  /** A thread that is not waiting can take its next step, qsort's being to finish with the result `sorted`. */
  function NextAction(t: nat, pc: PC, sorted: seq<Record>): Action {
    match pc
    case Sorting(_) => QsortEnd(t, sorted)
    case Marking(_) => Mark(t)
    case Claiming => Claim(t)
    case Arriving(_) => Arrive(t)
    case Merging(_, _, _) => MergeMove(t)
    case Copying(_, _) => CopyMove(t)
    case _ => Leave(t)
  }

  /** Until all threads have returned there is one that can step. */
  lemma SomeoneCanStep(c: Config, s: State) returns (t: nat)
    requires Inv(c, s) && exists u :: 0 <= u < |s.pcs| && !s.pcs[u].Returned?
    ensures t < c.threads && !s.pcs[t].Returned? && (s.pcs[t].Waiting? ==> s.pcs[t].r < s.done)
  {
    hide ClaimInv, RoundsInv, PcShape;
    if u :| 0 <= u < c.threads && !s.pcs[u].Waiting? && !s.pcs[u].Returned? {
      t := u;
    } else {
      t := SomeoneCanLeave(c, s);
    }
  }

  /** No deadlock: until all threads have returned, some thread can take a step. */
  lemma Progress(c: Config, run: seq<State>, k: nat)
    requires IsRun(c, run) && k < |run|
    requires exists t :: 0 <= t < |run[k].pcs| && !run[k].pcs[t].Returned?
    ensures exists s' :: Next(c, run[k], s')
  {
    hide SomeSort, Apply, ClaimInv, RoundsInv, PcShape, Block;
    Reachable(c, run, k);
    var s := run[k];
    var t := SomeoneCanStep(c, s);
    var a := NextAction(t, s.pcs[t], if s.pcs[t].Sorting? then SomeSort(Block(s.buffer, c.m, s.pcs[t].b)) else []);
    assert Enabled(c, s, a);
    assert Next(c, s, Apply(c, s, a));
  }

  lemma SomeoneCanLeave(c: Config, s: State) returns (t: nat)
    requires Inv(c, s)
    requires forall u :: 0 <= u < c.threads ==> s.pcs[u].Waiting? || s.pcs[u].Returned?
    requires exists u :: 0 <= u < c.threads && !s.pcs[u].Returned?
    ensures t < c.threads && s.pcs[t].Waiting? && s.pcs[t].r < s.done
  {
    hide BlockInv, BlockwiseSorted, MergeSeq, AfterRounds, PowerOfTwo, Pos, SizeAt;
    t :| 0 <= t < c.threads && s.pcs[t] != Waiting(s.done);
    if s.done == 0 {
      ClaimPcs(c, s, t);
    } else {
      RoundPositions(c, s, t);
      if s.pcs[t].Returned? {
        t :| 0 <= t < c.threads && !s.pcs[t].Returned?;
        RoundPositions(c, s, t);
      }
    }
  }
}
