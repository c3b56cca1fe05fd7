/** The merge rounds of a part: in each round thread `tid` merges the pair of neighbouring blocks with
    index `tid`, so a round with more pairs than threads leaves the later pairs as they are. */
module MergeRounds {
  import opened Records
  import opened Slices
  import opened TwoWayMerge

  function Min(a: nat, b: nat): nat {
    if a < b then a else b
  }

  predicate PowerOfTwo(b: nat) {
    b == 1 || (b > 1 && b % 2 == 0 && PowerOfTwo(b / 2))
  }

  /** Number of rounds the loop over `current_blocks` makes, for a power of two. */
  function Log2(b: nat): nat {
    if b <= 1 then 0 else 1 + Log2(b / 2)
  }

  /** A thread's `current_block_records` after `r` rounds. */
  function SizeAt(m: nat, r: nat): nat {
    if r == 0 then m else 2 * SizeAt(m, r - 1)
  }

  /** A thread's `current_blocks` after `r` rounds. */
  function BlocksAt(blocks: nat, r: nat): nat {
    if r == 0 then blocks else (BlocksAt(blocks, r - 1) + 1) / 2
  }

  /** Where block number `b` starts in a buffer cut into blocks of `size` records. */
  function Pos(size: nat, b: nat): nat {
    if b == 0 then 0 else Pos(size, b - 1) + size
  }

  lemma {:induction false} PosIsProduct(size: nat, b: nat)
    ensures Pos(size, b) == b * size
  {
    if b > 0 { PosIsProduct(size, b - 1); }
  }

  lemma PosNext(size: nat, b: nat)
    ensures Pos(size, b + 1) == Pos(size, b) + size
  {
  }

  lemma {:induction false} PosMono(size: nat, a: nat, b: nat)
    requires a <= b
    ensures Pos(size, a) <= Pos(size, b)
    decreases b
  {
    if a < b { PosMono(size, a, b - 1); }
  }

  lemma {:induction false} PosDouble(size: nat, b: nat)
    ensures Pos(2 * size, b) == Pos(size, 2 * b)
  {
    if b > 0 {
      PosDouble(size, b - 1);
      assert Pos(size, 2 * b) == Pos(size, 2 * b - 1) + size == Pos(size, 2 * b - 2) + size + size;
    }
  }

  /** Block number `b` of a buffer cut into blocks of `size` records. */
  function Block(s: seq<Record>, size: nat, b: nat): seq<Record> {
    if Pos(size, b + 1) <= |s| then s[Pos(size, b)..Pos(size, b + 1)] else []
  }

  lemma BlockFits(s: seq<Record>, size: nat, blocks: nat, b: nat)
    requires b < blocks && Pos(size, blocks) <= |s|
    ensures Pos(size, b + 1) <= |s| && |Block(s, size, b)| == size
    ensures Block(s, size, b) == s[Pos(size, b)..Pos(size, b + 1)]
  {
    PosMono(size, b + 1, blocks);
  }

  /** Blocks and sizes of a round cover what they covered at the start. */
  lemma {:induction false} LevelFits(m: nat, blocks: nat, r: nat)
    requires PowerOfTwo(blocks) && r <= Log2(blocks)
    ensures PowerOfTwo(BlocksAt(blocks, r)) && Log2(BlocksAt(blocks, r)) == Log2(blocks) - r
    ensures Pos(SizeAt(m, r), BlocksAt(blocks, r)) == Pos(m, blocks)
    ensures r < Log2(blocks) <==> BlocksAt(blocks, r) > 1
  {
    if r > 0 {
      LevelFits(m, blocks, r - 1);
      var b, size := BlocksAt(blocks, r - 1), SizeAt(m, r - 1);
      assert b == 2 * (b / 2) && BlocksAt(blocks, r) == b / 2;
      PosDouble(size, b / 2);
    }
  }

  /** The merge of pair `p`. */
  function PairMerge(s: seq<Record>, size: nat, p: nat): seq<Record> {
    MergeSeq(Block(s, size, 2 * p), Block(s, size, 2 * p + 1))
  }

  lemma PairSplits(s: seq<Record>, size: nat, p: nat)
    requires Pos(2 * size, p + 1) <= |s|
    ensures Block(s, 2 * size, p) == Block(s, size, 2 * p) + Block(s, size, 2 * p + 1)
    ensures |Block(s, size, 2 * p)| == size == |Block(s, size, 2 * p + 1)|
    ensures |PairMerge(s, size, p)| == 2 * size
  {
    PosDouble(size, p);
    PosDouble(size, p + 1);
    BlockFits(s, size, 2 * p + 2, 2 * p);
    BlockFits(s, size, 2 * p + 2, 2 * p + 1);
  }

  lemma Halves(s: seq<Record>, size: nat, p: nat)
    requires Pos(2 * size, p + 1) <= |s|
    ensures Pos(2 * size, p) + 2 * size == Pos(2 * size, p + 1)
    ensures s[Pos(2 * size, p)..Pos(2 * size, p) + size] == Block(s, size, 2 * p)
    ensures s[Pos(2 * size, p) + size..Pos(2 * size, p) + 2 * size] == Block(s, size, 2 * p + 1)
  {
    hide Block, Pos, PairMerge;
    PosNext(2 * size, p);
    PairSplits(s, size, p);
    BlockFits(s, 2 * size, p + 1, p);
    var lo, w := Pos(2 * size, p), Block(s, 2 * size, p);
    SliceOfSlice(s, lo, lo + 2 * size, 0, size);
    SliceOfSlice(s, lo, lo + 2 * size, size, 2 * size);
    var x, y := Block(s, size, 2 * p), Block(s, size, 2 * p + 1);
    assert w == s[lo..lo + 2 * size] == x + y;
    assert w[0..size] == x && w[size..2 * size] == y;
  }

  /** One round: the first `pairs` pairs of blocks are merged, the rest stays. */
  function MergeRound(s: seq<Record>, size: nat, pairs: nat): (r: seq<Record>)
    requires Pos(2 * size, pairs) <= |s|
    ensures |r| == |s|
    decreases pairs
  {
    if pairs == 0 then s
    else
      PairSplits(s, size, pairs - 1);
      Overwrite(MergeRound(s, size, pairs - 1), Pos(2 * size, pairs - 1), PairMerge(s, size, pairs - 1))
  }

  lemma PairsFit(size: nat, blocks: nat, threads: nat)
    ensures Pos(2 * size, Min(threads, blocks / 2)) <= Pos(size, blocks)
  {
    PosDouble(size, Min(threads, blocks / 2));
    PosMono(size, 2 * Min(threads, blocks / 2), blocks);
  }

  /** The buffer after `r` complete rounds. */
  function AfterRounds(s: seq<Record>, m: nat, blocks: nat, threads: nat, r: nat): (t: seq<Record>)
    requires PowerOfTwo(blocks) && Pos(m, blocks) <= |s| && r <= Log2(blocks)
    ensures |t| == |s|
    decreases r
  {
    if r == 0 then s
    else
      LevelFits(m, blocks, r - 1);
      PairsFit(SizeAt(m, r - 1), BlocksAt(blocks, r - 1), threads);
      MergeRound(AfterRounds(s, m, blocks, threads, r - 1), SizeAt(m, r - 1), Min(threads, BlocksAt(blocks, r - 1) / 2))
  }

  /** The buffer when the loop ends. */
  function AllRounds(s: seq<Record>, m: nat, blocks: nat, threads: nat): (t: seq<Record>)
    requires PowerOfTwo(blocks) && Pos(m, blocks) <= |s|
    ensures |t| == |s|
  {
    AfterRounds(s, m, blocks, threads, Log2(blocks))
  }

  // ----- one round, block by block

  /** What a round leaves in the place of pair `p`. */
  function PairResult(s: seq<Record>, size: nat, pairs: nat, p: nat): seq<Record> {
    if p < pairs then PairMerge(s, size, p) else Block(s, 2 * size, p)
  }

  lemma {:induction false} RoundBlock(s: seq<Record>, size: nat, pairs: nat, p: nat)
    requires Pos(2 * size, pairs) <= |s| && Pos(2 * size, p + 1) <= |s|
    ensures Block(MergeRound(s, size, pairs), 2 * size, p) == PairResult(s, size, pairs, p)
    decreases pairs
  {
    hide PairMerge;
    if pairs > 0 {
      var n := pairs - 1;
      RoundBlock(s, size, n, p);
      PairSplits(s, size, n);
      var before, part := MergeRound(s, size, n), PairMerge(s, size, n);
      if p == n {
        OverwriteInside(before, Pos(2 * size, n), part);
      } else {
        if p < n { PosMono(2 * size, p + 1, n); } else { PosMono(2 * size, n + 1, p); }
        OverwriteOutside(before, Pos(2 * size, n), part, Pos(2 * size, p), Pos(2 * size, p + 1));
      }
    }
  }

  /** Nothing at or behind the last merged pair changes. */
  lemma {:induction false} RoundRest(s: seq<Record>, size: nat, pairs: nat, from: nat)
    requires Pos(2 * size, pairs) <= from <= |s|
    ensures MergeRound(s, size, pairs)[from..] == s[from..]
    decreases pairs
  {
    hide PairMerge;
    if pairs > 0 {
      RoundRest(s, size, pairs - 1, from);
      PairSplits(s, size, pairs - 1);
      OverwriteOutside(MergeRound(s, size, pairs - 1), Pos(2 * size, pairs - 1),
                       PairMerge(s, size, pairs - 1), from, |s|);
    }
  }

  lemma {:induction false} PairOf(width: nat, pairs: nat, k: nat) returns (p: nat)
    requires k < Pos(width, pairs)
    ensures p < pairs && Pos(width, p) <= k < Pos(width, p + 1)
  {
    if k >= Pos(width, pairs - 1) { p := pairs - 1; } else { p := PairOf(width, pairs - 1, k); }
  }

  /** A round is pinned down by what it does to each pair: this is why the order in which the threads
      do their merges cannot matter. */
  lemma RoundUnique(s: seq<Record>, x: seq<Record>, size: nat, pairs: nat)
    requires Pos(2 * size, pairs) <= |s| == |x|
    requires forall p :: 0 <= p < pairs ==> Block(x, 2 * size, p) == PairMerge(s, size, p)
    requires x[Pos(2 * size, pairs)..] == s[Pos(2 * size, pairs)..]
    ensures x == MergeRound(s, size, pairs)
  {
    hide PairMerge, MergeRound;
    var y, width := MergeRound(s, size, pairs), 2 * size;
    var end := Pos(width, pairs);
    RoundRest(s, size, pairs, end);
    forall k | 0 <= k < |s| ensures x[k] == y[k] {
      if k < end {
        var p := PairOf(width, pairs, k);
        PosMono(width, p + 1, pairs);
        RoundBlock(s, size, pairs, p);
        BlockFits(x, width, pairs, p);
        BlockFits(y, width, pairs, p);
        assert Block(x, width, p) == Block(y, width, p);
        assert x[k] == Block(x, width, p)[k - Pos(width, p)];
        assert y[k] == Block(y, width, p)[k - Pos(width, p)];
      } else {
        assert x[end..][k - end] == y[end..][k - end];
      }
    }
  }

  // ----- conservation

  lemma PairMergeFacts(s: seq<Record>, size: nat, p: nat)
    requires Pos(2 * size, p + 1) <= |s|
    ensures Permutation(PairMerge(s, size, p), Block(s, 2 * size, p))
    ensures Sorted(PairMerge(s, size, p)) <==> Sorted(Block(s, size, 2 * p)) && Sorted(Block(s, size, 2 * p + 1))
  {
    hide MergeSeq, Block, Pos, Sorted;
    PairSplits(s, size, p);
    MergePermutation(Block(s, size, 2 * p), Block(s, size, 2 * p + 1));
    MergeSortedIff(Block(s, size, 2 * p), Block(s, size, 2 * p + 1));
  }

  lemma {:induction false} RoundPermutation(s: seq<Record>, size: nat, pairs: nat)
    requires Pos(2 * size, pairs) <= |s|
    ensures Permutation(MergeRound(s, size, pairs), s)
    decreases pairs
  {
    hide PairMerge, Overwrite, Block, Pos;
    if pairs > 0 {
      var n := pairs - 1;
      PosNext(2 * size, n);
      RoundPermutation(s, size, n);
      PairSplits(s, size, n);
      BlockFits(MergeRound(s, size, n), 2 * size, n + 1, n);
      RoundBlock(s, size, n, n);
      PairMergeFacts(s, size, n);
      var before, lo := MergeRound(s, size, n), Pos(2 * size, n);
      assert before[lo..lo + |PairMerge(s, size, n)|] == Block(s, 2 * size, n);
      OverwritePermutes(before, lo, PairMerge(s, size, n));
    }
  }

  /** Whatever the thread count, the rounds permute the blocks' records and leave the rest of the part alone. */
  lemma {:induction false} RoundsConserve(s: seq<Record>, m: nat, blocks: nat, threads: nat, r: nat)
    requires PowerOfTwo(blocks) && Pos(m, blocks) <= |s| && r <= Log2(blocks)
    ensures Permutation(AfterRounds(s, m, blocks, threads, r), s)
    ensures AfterRounds(s, m, blocks, threads, r)[Pos(m, blocks)..] == s[Pos(m, blocks)..]
    decreases r
  {
    hide MergeRound, Pos;
    if r > 0 {
      RoundsConserve(s, m, blocks, threads, r - 1);
      LevelFits(m, blocks, r - 1);
      var t, size, b := AfterRounds(s, m, blocks, threads, r - 1), SizeAt(m, r - 1), BlocksAt(blocks, r - 1);
      PairsFit(size, b, threads);
      RoundPermutation(t, size, Min(threads, b / 2));
      RoundRest(t, size, Min(threads, b / 2), Pos(m, blocks));
    }
  }

  // ----- how far a part gets sorted

  /** How many leading blocks are guaranteed sorted after `r` rounds. */
  function SortedCount(blocks: nat, threads: nat, r: nat): nat {
    if r == 0 then blocks else Min(threads, SortedCount(blocks, threads, r - 1) / 2)
  }

  lemma {:induction false} PosAtLeast(size: nat, b: nat)
    requires size > 0
    ensures b <= Pos(size, b)
  {
    if b > 0 { PosAtLeast(size, b - 1); }
  }

  /** In closed form: after round r + 1 it is min(threads, blocks / 2), divided by 2^r and rounded down. */
  lemma {:induction false} SortedCountIs(blocks: nat, threads: nat, r: nat)
    ensures SortedCount(blocks, threads, 0) == blocks && SizeAt(1, r) > 0
    ensures var most, count := Min(threads, blocks / 2), SortedCount(blocks, threads, r + 1);
            Pos(SizeAt(1, r), count) <= most < Pos(SizeAt(1, r), count + 1)
  {
    if r == 0 {
      PosIsProduct(1, SortedCount(blocks, threads, 1));
      PosNext(1, SortedCount(blocks, threads, 1));
      assert SortedCount(blocks, threads, 1) == Min(threads, SortedCount(blocks, threads, 0) / 2);
    } else {
      SortedCountIs(blocks, threads, r - 1);
      var size, before := SizeAt(1, r - 1), SortedCount(blocks, threads, r);
      PosAtLeast(size, before);
      assert SortedCount(blocks, threads, r + 1) == before / 2;
      PosDouble(size, before / 2);
      PosDouble(size, before / 2 + 1);
      PosMono(size, 2 * (before / 2), before);
      PosMono(size, before + 1, 2 * (before / 2 + 1));
    }
  }

  lemma {:induction false} SortedCountBound(blocks: nat, threads: nat, r: nat)
    ensures SortedCount(blocks, threads, r) <= BlocksAt(blocks, r)
  {
    if r > 0 { SortedCountBound(blocks, threads, r - 1); }
  }

  /** For any thread count: after round `r` the first SortedCount(r) blocks of that round's size are sorted. */
  lemma {:induction false} SortedPrefix(s: seq<Record>, m: nat, blocks: nat, threads: nat, r: nat)
    requires PowerOfTwo(blocks) && Pos(m, blocks) <= |s| && r <= Log2(blocks)
    requires forall b :: 0 <= b < blocks ==> Sorted(Block(s, m, b))
    ensures forall b :: 0 <= b < SortedCount(blocks, threads, r) ==>
              Sorted(Block(AfterRounds(s, m, blocks, threads, r), SizeAt(m, r), b))
    decreases r
  {
    hide MergeRound, Sorted, Block;
    if r > 0 {
      SortedPrefix(s, m, blocks, threads, r - 1);
      LevelFits(m, blocks, r - 1);
      SortedCountBound(blocks, threads, r - 1);
      var t, size, n := AfterRounds(s, m, blocks, threads, r - 1), SizeAt(m, r - 1), BlocksAt(blocks, r - 1);
      PairsFit(size, n, threads);
      forall b | 0 <= b < SortedCount(blocks, threads, r)
        ensures Sorted(Block(AfterRounds(s, m, blocks, threads, r), SizeAt(m, r), b))
      {
        PosDouble(size, b + 1);
        PosMono(size, 2 * (b + 1), n);
        RoundBlock(t, size, Min(threads, n / 2), b);
        PairMergeFacts(t, size, b);
      }
    }
  }

  /** The boundary between block k - 1 and block k disappears in the round in which its number is odd, if
      the pair it lies in has a thread; otherwise no merge ever spans it. */
  predicate Unmerged(k: nat, threads: nat)
    requires k > 0
  {
    if k % 2 == 1 then k / 2 >= threads else Unmerged(k / 2, threads)
  }

  lemma {:induction false} UnmergedIsFar(k: nat, threads: nat)
    requires k > 0 && Unmerged(k, threads)
    ensures k >= 2 * threads + 1
  {
    if k % 2 == 0 { UnmergedIsFar(k / 2, threads); }
  }

  /** Every boundary that no merge spans is already in order. */
  predicate BoundariesInOrder(s: seq<Record>, size: nat, blocks: nat, threads: nat) {
    forall k :: 0 < k < blocks && Unmerged(k, threads) ==> AllBefore(Block(s, size, k - 1), Block(s, size, k))
  }

  predicate BlocksSorted(s: seq<Record>, size: nat, blocks: nat) {
    forall b :: 0 <= b < blocks ==> Sorted(Block(s, size, b))
  }

  lemma ChainBefore(x1: seq<Record>, x2: seq<Record>, y1: seq<Record>, y2: seq<Record>)
    requires Sorted(x1 + x2) && Sorted(y1 + y2) && |x2| > 0 && |y1| > 0
    ensures AllBefore(x1 + x2, y1 + y2) <==> AllBefore(x2, y1)
  {
    SortedConcat(x1, x2);
    SortedConcat(y1, y2);
    var last, first := x2[|x2| - 1], y1[0];
    assert last in x2 && first in y1;
    if AllBefore(x2, y1) {
      forall x, y | x in x1 + x2 && y in y1 + y2 ensures Before(x, y) {
        assert Before(x, last) by { if x in x2 { var i :| 0 <= i < |x2| && x2[i] == x; } }
        assert Before(first, y) by { if y in y1 { var j :| 0 <= j < |y1| && y1[j] == y; } }
        assert Before(last, first);
      }
    }
    if AllBefore(x1 + x2, y1 + y2) {
      assert forall x, y :: x in x2 && y in y1 ==> x in x1 + x2 && y in y1 + y2;
    }
  }

  lemma PairInside(s: seq<Record>, size: nat, blocks: nat, p: nat)
    requires 2 * (p + 1) <= blocks && Pos(size, blocks) <= |s|
    ensures Pos(2 * size, p + 1) <= |s|
    ensures Block(s, 2 * size, p) == Block(s, size, 2 * p) + Block(s, size, 2 * p + 1)
    ensures |Block(s, size, 2 * p)| == size == |Block(s, size, 2 * p + 1)|
  {
    PosDouble(size, p + 1);
    PosMono(size, 2 * (p + 1), blocks);
    PairSplits(s, size, p);
  }

  /** A pair of blocks after the round is sorted exactly when both blocks were and, if no thread merged
      them, the boundary between them was in order. */
  lemma PairSortedIff(s: seq<Record>, size: nat, blocks: nat, threads: nat, p: nat)
    requires 2 * (p + 1) <= blocks && Pos(size, blocks) <= |s|
    ensures Sorted(PairResult(s, size, Min(threads, blocks / 2), p)) <==>
              Sorted(Block(s, size, 2 * p)) && Sorted(Block(s, size, 2 * p + 1))
              && (Unmerged(2 * p + 1, threads) ==> AllBefore(Block(s, size, 2 * p), Block(s, size, 2 * p + 1)))
  {
    hide PairMerge, Sorted, AllBefore, Pos, Block;
    PairInside(s, size, blocks, p);
    PairMergeFacts(s, size, p);
    SortedConcat(Block(s, size, 2 * p), Block(s, size, 2 * p + 1));
  }

  /** A round keeps the combined condition: sorted blocks and boundaries in order. */
  lemma RoundKeepsOrder(s: seq<Record>, size: nat, blocks: nat, threads: nat)
    requires size > 0 && blocks % 2 == 0 && Pos(size, blocks) <= |s|
    requires Pos(2 * size, Min(threads, blocks / 2)) <= |s|
    ensures var t := MergeRound(s, size, Min(threads, blocks / 2));
            BlocksSorted(s, size, blocks) && BoundariesInOrder(s, size, blocks, threads) <==>
            BlocksSorted(t, 2 * size, blocks / 2) && BoundariesInOrder(t, 2 * size, blocks / 2, threads)
  {
    hide MergeRound, PairResult, Block, Pos, BlocksSorted, BoundariesInOrder;
    var pairs := Min(threads, blocks / 2);
    var t := MergeRound(s, size, pairs);
    forall p | 0 <= p < blocks / 2 ensures Block(t, 2 * size, p) == PairResult(s, size, pairs, p) {
      PairInside(s, size, blocks, p);
      RoundBlock(s, size, pairs, p);
    }
    if BlocksSorted(s, size, blocks) && BoundariesInOrder(s, size, blocks, threads) {
      OrderUp(s, t, size, blocks, threads);
    }
    if BlocksSorted(t, 2 * size, blocks / 2) && BoundariesInOrder(t, 2 * size, blocks / 2, threads) {
      OrderDown(s, t, size, blocks, threads);
    }
  }

  /** `t` is what a round makes of `s`, pair by pair. */
  ghost predicate RoundOf(s: seq<Record>, t: seq<Record>, size: nat, blocks: nat, threads: nat) {
    && size > 0 && blocks % 2 == 0 && Pos(size, blocks) <= |s|
    && forall p :: 0 <= p < blocks / 2 ==> Block(t, 2 * size, p) == PairResult(s, size, Min(threads, blocks / 2), p)
  }

  lemma OrderUp(s: seq<Record>, t: seq<Record>, size: nat, blocks: nat, threads: nat)
    requires RoundOf(s, t, size, blocks, threads)
    requires BlocksSorted(s, size, blocks) && BoundariesInOrder(s, size, blocks, threads)
    ensures BlocksSorted(t, 2 * size, blocks / 2) && BoundariesInOrder(t, 2 * size, blocks / 2, threads)
  {
    hide PairResult, Block, Pos, Sorted, AllBefore;
    forall p | 0 <= p < blocks / 2 ensures Sorted(Block(t, 2 * size, p)) { PairSortedIff(s, size, blocks, threads, p); }
    forall k | 0 < k < blocks / 2 && Unmerged(k, threads)
      ensures AllBefore(Block(t, 2 * size, k - 1), Block(t, 2 * size, k))
    {
      BoundaryLifts(s, t, size, blocks, threads, k);
    }
  }

  lemma OrderDown(s: seq<Record>, t: seq<Record>, size: nat, blocks: nat, threads: nat)
    requires RoundOf(s, t, size, blocks, threads)
    requires BlocksSorted(t, 2 * size, blocks / 2) && BoundariesInOrder(t, 2 * size, blocks / 2, threads)
    ensures BlocksSorted(s, size, blocks) && BoundariesInOrder(s, size, blocks, threads)
  {
    hide PairResult, Block, Pos, Sorted, AllBefore;
    forall b | 0 <= b < blocks ensures Sorted(Block(s, size, b)) {
      PairSortedIff(s, size, blocks, threads, b / 2);
      assert b == 2 * (b / 2) || b == 2 * (b / 2) + 1;
    }
    forall k | 0 < k < blocks && Unmerged(k, threads) ensures AllBefore(Block(s, size, k - 1), Block(s, size, k)) {
      if k % 2 == 0 {
        BoundaryLifts(s, t, size, blocks, threads, k / 2);
      } else {
        PairSortedIff(s, size, blocks, threads, k / 2);
      }
    }
  }

  /** A boundary no merge spans lies between two pairs that the round leaves alone. */
  lemma BoundaryLifts(s: seq<Record>, t: seq<Record>, size: nat, blocks: nat, threads: nat, k: nat)
    requires RoundOf(s, t, size, blocks, threads) && 0 < k < blocks / 2 && Unmerged(k, threads)
    requires BlocksSorted(t, 2 * size, blocks / 2)
    ensures Unmerged(2 * k, threads)
    ensures AllBefore(Block(t, 2 * size, k - 1), Block(t, 2 * size, k)) <==>
            AllBefore(Block(s, size, 2 * k - 1), Block(s, size, 2 * k))
  {
    hide Block, Pos, Sorted, AllBefore, PairMerge;
    UnmergedIsFar(k, threads);
    PairInside(s, size, blocks, k - 1);
    PairInside(s, size, blocks, k);
    assert Sorted(Block(t, 2 * size, k - 1)) && Sorted(Block(t, 2 * size, k));
    assert 2 * (k - 1) + 1 == 2 * k - 1;
    ChainBefore(Block(s, size, 2 * (k - 1)), Block(s, size, 2 * (k - 1) + 1),
                Block(s, size, 2 * k), Block(s, size, 2 * k + 1));
  }

  lemma {:induction false} OrderAtLevel(s: seq<Record>, m: nat, blocks: nat, threads: nat, r: nat)
    requires PowerOfTwo(blocks) && Pos(m, blocks) <= |s| && r <= Log2(blocks) && m > 0
    ensures SizeAt(m, r) > 0
    ensures var t := AfterRounds(s, m, blocks, threads, r);
            BlocksSorted(s, m, blocks) && BoundariesInOrder(s, m, blocks, threads) <==>
            BlocksSorted(t, SizeAt(m, r), BlocksAt(blocks, r))
            && BoundariesInOrder(t, SizeAt(m, r), BlocksAt(blocks, r), threads)
    decreases r
  {
    hide BlocksSorted, BoundariesInOrder, MergeRound, Pos, PowerOfTwo;
    if r > 0 {
      OrderAtLevel(s, m, blocks, threads, r - 1);
      LevelFits(m, blocks, r - 1);
      PairsFit(SizeAt(m, r - 1), BlocksAt(blocks, r - 1), threads);
      RoundKeepsOrder(AfterRounds(s, m, blocks, threads, r - 1), SizeAt(m, r - 1), BlocksAt(blocks, r - 1), threads);
    }
  }

  /** After the last round there is one block, and it is all that the blocks cover. */
  lemma OneBlockLeft(t: seq<Record>, m: nat, blocks: nat, threads: nat)
    requires PowerOfTwo(blocks) && Pos(m, blocks) <= |t|
    ensures var size, n := SizeAt(m, Log2(blocks)), BlocksAt(blocks, Log2(blocks));
            BlocksSorted(t, size, n) && BoundariesInOrder(t, size, n, threads) <==> Sorted(t[..Pos(m, blocks)])
  {
    hide Sorted, BlocksAt;
    var size, n := SizeAt(m, Log2(blocks)), BlocksAt(blocks, Log2(blocks));
    LevelFits(m, blocks, Log2(blocks));
    assert n == 1;
    assert Pos(size, 0) == 0 && Pos(size, 1) == Pos(m, blocks);
    assert Block(t, size, 0) == t[..Pos(m, blocks)];
  }

  /** Exactly when the rounds sort the blocks of a part: all blocks are sorted and every boundary
      that no merge spans is in order to begin with. */
  lemma RoundsSortIff(s: seq<Record>, m: nat, blocks: nat, threads: nat)
    requires PowerOfTwo(blocks) && Pos(m, blocks) <= |s|
    ensures Sorted(AllRounds(s, m, blocks, threads)[..Pos(m, blocks)]) <==>
            BlocksSorted(s, m, blocks) && BoundariesInOrder(s, m, blocks, threads)
  {
    var t, end := AllRounds(s, m, blocks, threads), Pos(m, blocks);
    if m > 0 {
      hide AfterRounds, BlocksSorted, BoundariesInOrder, PowerOfTwo, Log2, Sorted;
      OrderAtLevel(s, m, blocks, threads, Log2(blocks));
      OneBlockLeft(t, m, blocks, threads);
    } else {
      PosIsProduct(m, blocks);
      assert t[..end] == [];
      forall b | 0 <= b < blocks ensures Block(s, m, b) == [] { PosIsProduct(m, b); PosIsProduct(m, b + 1); }
    }
  }

  lemma {:induction false} EnoughThreads(k: nat, blocks: nat, threads: nat)
    requires 0 < k < blocks <= 2 * threads
    ensures !Unmerged(k, threads)
  {
    if k % 2 == 0 { EnoughThreads(k / 2, blocks, threads); }
  }

  /** A part whose last boundary is out of order: only block blocks - 2 holds late time marks. */
  function LateBlock(m: nat, blocks: nat): (s: seq<Record>)
    requires blocks >= 2
    ensures |s| == Pos(m, blocks)
  {
    seq(Pos(m, blocks), (i: nat) => Record(if Pos(m, blocks - 2) <= i < Pos(m, blocks - 1) then 1.0 else 0.0, i))
  }

  lemma LateBlockShape(m: nat, blocks: nat, b: nat)
    requires b < blocks && blocks >= 2
    ensures forall x :: x in Block(LateBlock(m, blocks), m, b) ==> x.timeMark == (if b == blocks - 2 then 1.0 else 0.0)
    ensures |Block(LateBlock(m, blocks), m, b)| == m
  {
    var s := LateBlock(m, blocks);
    BlockFits(s, m, blocks, b);
    if b < blocks - 2 { PosMono(m, b + 1, blocks - 2); }
  }

  /** The rounds sort every part of sorted blocks exactly when there is a thread for every pair. */
  lemma AlwaysSortsIff(m: nat, blocks: nat, threads: nat)
    requires PowerOfTwo(blocks) && m > 0 && threads > 0
    ensures (forall s: seq<Record> | |s| == Pos(m, blocks) && BlocksSorted(s, m, blocks) ::
               Sorted(AllRounds(s, m, blocks, threads))) <==> blocks <= 2 * threads
  {
    hide AllRounds, Block, Pos, LateBlock, Sorted, AllBefore;
    forall s: seq<Record> | |s| == Pos(m, blocks)
      ensures Sorted(AllRounds(s, m, blocks, threads)) <==>
              BlocksSorted(s, m, blocks) && BoundariesInOrder(s, m, blocks, threads)
    {
      RoundsSortIff(s, m, blocks, threads);
      var t := AllRounds(s, m, blocks, threads);
      assert t[..Pos(m, blocks)] == t;
    }
    if blocks <= 2 * threads {
      forall k | 0 < k < blocks ensures !Unmerged(k, threads) { EnoughThreads(k, blocks, threads); }
    } else {
      LateBlockFails(m, blocks, threads);
    }
  }

  lemma LateBlockFails(m: nat, blocks: nat, threads: nat)
    requires PowerOfTwo(blocks) && m > 0 && blocks > 2 * threads > 0
    ensures BlocksSorted(LateBlock(m, blocks), m, blocks)
    ensures !BoundariesInOrder(LateBlock(m, blocks), m, blocks, threads)
  {
    hide Pos, LateBlock, Block;
    var s := LateBlock(m, blocks);
    forall b | 0 <= b < blocks ensures Sorted(Block(s, m, b)) {
      LateBlockShape(m, blocks, b);
      var w := Block(s, m, b);
      assert forall i :: 0 <= i < |w| ==> w[i] in w;
    }
    LateBlockShape(m, blocks, blocks - 2);
    LateBlockShape(m, blocks, blocks - 1);
    var x, y := Block(s, m, blocks - 2)[0], Block(s, m, blocks - 1)[0];
    assert x in Block(s, m, blocks - 2) && y in Block(s, m, blocks - 1) && !Before(x, y);
    assert Unmerged(blocks - 1, threads);
  }

  // ----- the array code

  /** All rounds with the threads' merges run one after another: merge a pair into the scratch buffer,
      copy it back. */
  method RunRounds(buffer: array<Record>, tmp: array<Record>, m: nat, blocks: nat, threads: nat)
    requires buffer != tmp && PowerOfTwo(blocks) && Pos(m, blocks) <= buffer.Length == tmp.Length
    modifies buffer, tmp
    ensures buffer[..] == AllRounds(old(buffer[..]), m, blocks, threads)
  {
    hide MergeRound, Pos;
    ghost var s, r := buffer[..], 0;
    var size, current := m, blocks;
    LevelFits(m, blocks, 0);
    while current > 1
      invariant r <= Log2(blocks) && size == SizeAt(m, r) && current == BlocksAt(blocks, r)
      invariant buffer[..] == AfterRounds(s, m, blocks, threads, r)
      invariant r < Log2(blocks) <==> current > 1
      decreases Log2(blocks) - r
    {
      LevelFits(m, blocks, r);
      PairsFit(size, current, threads);
      var pairs := current / 2;
      RunOneRound(buffer, tmp, size, pairs, threads);
      size, current, r := 2 * size, (current + 1) / 2, r + 1;
      LevelFits(m, blocks, r);
    }
  }

  method RunOneRound(buffer: array<Record>, tmp: array<Record>, size: nat, pairs: nat, threads: nat)
    requires buffer != tmp && Pos(2 * size, Min(threads, pairs)) <= buffer.Length == tmp.Length
    modifies buffer, tmp
    ensures buffer[..] == MergeRound(old(buffer[..]), size, Min(threads, pairs))
  {
    hide Pos, PairMerge;
    ghost var t := buffer[..];
    var tid := 0;
    PosMono(2 * size, 0, Min(threads, pairs));
    while tid < threads
      invariant tid <= threads && Pos(2 * size, Min(tid, pairs)) <= |t|
      invariant buffer[..] == MergeRound(t, size, Min(tid, pairs))
    {
      if tid < pairs {
        PosMono(2 * size, tid + 1, Min(threads, pairs));
        MergeOnePair(buffer, tmp, t, size, tid);
      }
      tid := tid + 1;
    }
  }

  /** Thread `tid`'s share of a round. */
  method MergeOnePair(buffer: array<Record>, tmp: array<Record>, ghost t: seq<Record>, size: nat, tid: nat)
    requires buffer != tmp && buffer.Length == tmp.Length == |t|
    requires Pos(2 * size, tid + 1) <= |t| && Pos(2 * size, tid) <= |t|
    requires buffer[..] == MergeRound(t, size, tid)
    modifies buffer, tmp
    ensures buffer[..] == MergeRound(t, size, tid + 1)
  {
    hide *;
    var start := 2 * tid * size;
    var mid := start + size;
    ghost var was, m := buffer[..], PairMerge(t, size, tid);
    PairStart(t, was, size, tid, start);
    Merge(tmp, start, buffer, start, size, buffer, mid, size);
    OverwriteInside(old(tmp[..]), start, m);
    ghost var scratch := tmp[..];
    CopyBack(buffer, tmp, start, 2 * size);
    assert scratch[start..start + 2 * size] == m;
  }

  /** The offset as the program computes it. */
  lemma StartIsPos(size: nat, tid: nat)
    ensures 2 * tid * size == Pos(2 * size, tid)
  {
    PosIsProduct(2 * size, tid);
  }

  lemma SameHalves(s: seq<Record>, t: seq<Record>, size: nat, p: nat)
    requires Pos(2 * size, p + 1) <= |s| == |t| && Block(s, 2 * size, p) == Block(t, 2 * size, p)
    ensures Block(s, size, 2 * p) == Block(t, size, 2 * p) && Block(s, size, 2 * p + 1) == Block(t, size, 2 * p + 1)
  {
    hide Pos, Block;
    PairSplits(s, size, p);
    PairSplits(t, size, p);
    var w := Block(s, 2 * size, p);
    assert Block(s, size, 2 * p) == w[..size] == Block(t, size, 2 * p);
    assert Block(s, size, 2 * p + 1) == w[size..] == Block(t, size, 2 * p + 1);
  }

  lemma PairStart(t: seq<Record>, was: seq<Record>, size: nat, tid: nat, start: nat)
    requires Pos(2 * size, tid + 1) <= |t| && Pos(2 * size, tid) <= |t|
    requires start == 2 * tid * size && was == MergeRound(t, size, tid)
    ensures start + 2 * size <= |t| == |was| && |PairMerge(t, size, tid)| == 2 * size
    ensures MergeSeq(was[start..start + size], was[start + size..start + 2 * size]) == PairMerge(t, size, tid)
    ensures MergeRound(t, size, tid + 1) == Overwrite(was, start, PairMerge(t, size, tid))
  {
    hide MergeSeq, Overwrite, Block;
    StartIsPos(size, tid);
    PairSplits(t, size, tid);
    RoundBlock(t, size, tid, tid);
    Halves(was, size, tid);
    SameHalves(t, was, size, tid);
  }

  /** The memcpy back from the scratch buffer. */
  method CopyBack(buffer: array<Record>, tmp: array<Record>, start: nat, count: nat)
    requires buffer != tmp && start + count <= buffer.Length == tmp.Length
    modifies buffer
    ensures buffer[..] == Overwrite(old(buffer[..]), start, tmp[start..start + count])
  {
    hide Overwrite;
    var c := 0;
    while c < count
      invariant c <= count
      invariant forall q :: start <= q < start + c ==> buffer[q] == tmp[q]
      invariant forall q :: 0 <= q < start || start + c <= q < buffer.Length ==> buffer[q] == old(buffer[q])
    {
      buffer[start + c] := tmp[start + c];
      c := c + 1;
    }
    OverwriteUnique(old(buffer[..]), buffer[..], start, tmp[start..start + count]);
  }
}
