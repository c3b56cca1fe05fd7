/** The main program of the index sort: which command lines it accepts, how it cuts the file into parts,
    and what the whole run does to the file. */
module SortIndexMain {
  import opened Records
  import opened MergeRounds
  import opened PartSorter
  import opened PartRuns
  import opened PartsMerge

  // ----- the power-of-two test

  /** Bitwise and of two non-negative numbers. */
  function BitAnd(a: nat, b: nat): nat
    decreases a
  {
    if a == 0 || b == 0 then 0 else 2 * BitAnd(a / 2, b / 2) + (if a % 2 == 1 && b % 2 == 1 then 1 else 0)
  }

  lemma {:induction false} BitAndSelf(a: nat)
    ensures BitAnd(a, a) == a
    decreases a
  {
    if a > 0 { BitAndSelf(a / 2); }
  }

  /** `b & (b - 1)` is zero for exactly the powers of two among the positive numbers. */
  lemma {:induction false} BitTestIsPowerOfTwo(b: nat)
    requires b > 0
    ensures BitAnd(b, b - 1) == 0 <==> PowerOfTwo(b)
    decreases b
  {
    if b % 2 == 0 {
      BitTestIsPowerOfTwo(b / 2);
      assert (b - 1) / 2 == b / 2 - 1;
    } else if b > 1 {
      BitAndSelf(b / 2);
      assert (b - 1) / 2 == b / 2;
    }
  }

  // ----- argument checks

  datatype Verdict = Accepted | MemsizeNotPages | BlocksNotPowerOfTwo | TooFewBlocks | ThreadsOutOfRange
                   | MemsizeNotRecords | RecordsNotParts

  /** The test the program writes with `&`. A negative number keeps its sign bit under `&`; zero passes. */
  predicate PassesBitTest(blocks: int) {
    blocks == 0 || (blocks > 0 && BitAnd(blocks, blocks - 1) == 0)
  }

  /** The checks in the order main makes them. Memory size zero is left to the caller: the last check
      would divide by it. */
  function CheckArgs(memsize: nat, pageSize: nat, blocks: int, threads: int, records: nat): Verdict
    requires memsize > 0 && pageSize > 0
  {
    if memsize % pageSize != 0 then MemsizeNotPages
    else if !PassesBitTest(blocks) then BlocksNotPowerOfTwo
    else if blocks < 4 * threads then TooFewBlocks
    else if threads < 1 || threads > 8192 then ThreadsOutOfRange
    else if memsize % 16 != 0 then MemsizeNotRecords
    else if records % (memsize / 16) != 0 then RecordsNotParts
    else Accepted
  }

  /** Accepted command lines: blocks a power of two, at least four times as many as threads, and a file of
      whole parts. Block count zero never gets through, although it passes the bit test. */
  lemma AcceptedIff(memsize: nat, pageSize: nat, blocks: int, threads: int, records: nat)
    requires memsize > 0 && pageSize > 0
    ensures CheckArgs(memsize, pageSize, blocks, threads, records) == Accepted <==>
              memsize % pageSize == 0 && memsize % 16 == 0 && blocks > 0 && PowerOfTwo(blocks)
              && 1 <= threads <= 8192 && 4 * threads <= blocks
              && exists n: nat :: records == n * (memsize / 16)
  {
    if blocks > 0 { BitTestIsPowerOfTwo(blocks); }
    if memsize % 16 == 0 { WholeParts(records, memsize / 16); }
  }

  /** Which refusal is reported: of all that applies, the one that comes first in this order. */
  lemma FirstRefusal(memsize: nat, pageSize: nat, blocks: int, threads: int, records: nat)
    requires memsize > 0 && pageSize > 0
    ensures var v := CheckArgs(memsize, pageSize, blocks, threads, records);
            && (v == MemsizeNotPages <==> memsize % pageSize > 0)
            && (v == BlocksNotPowerOfTwo <==>
                  v != MemsizeNotPages && (blocks < 0 || (blocks > 0 && !PowerOfTwo(blocks))))
            && (v == TooFewBlocks <==>
                  v != MemsizeNotPages && v != BlocksNotPowerOfTwo && blocks < 4 * threads)
            && (v == ThreadsOutOfRange <==>
                  memsize % pageSize == 0 && (blocks == 0 || (blocks > 0 && PowerOfTwo(blocks)))
                  && blocks >= 4 * threads && (threads <= 0 || threads >= 8193))
            && (v == MemsizeNotRecords || v == RecordsNotParts ==>
                  blocks > 0 && PowerOfTwo(blocks) && 1 <= threads <= 8192 && 4 * threads <= blocks)
            && (v == MemsizeNotRecords ==> memsize % 16 > 0) && (v == RecordsNotParts ==> memsize % 16 == 0)
  {
    if blocks > 0 { BitTestIsPowerOfTwo(blocks); }
  }

  lemma WholeParts(records: nat, m: nat)
    requires m > 0
    ensures records % m == 0 <==> exists n: nat :: records == n * m
  {
    if records % m == 0 { assert records == (records / m) * m; }
    if n: nat :| records == n * m { MultipleHasNoRemainder(n, m); }
  }

  lemma ProductAtLeast(a: nat, m: nat)
    requires a >= 1
    ensures a * m >= m
  {
  }

  lemma MultipleHasNoRemainder(n: nat, m: nat)
    requires m > 0
    ensures (n * m) % m == 0 && (n * m) / m == n
  {
    var q, r := (n * m) / m, (n * m) % m;
    assert (n - q) * m == r && (q - n) * m == -r;
    if n > q { ProductAtLeast(n - q, m); }
    if q > n { ProductAtLeast(q - n, m); }
  }

  // ----- how the file is cut

  /** What main passes to mmap for one part, and where the records start in the mapping. */
  datatype Mapping = Mapping(offset: nat, skip: nat, size: nat)

  function MapPart(part: nat, memsize: nat, pageSize: nat): Mapping
    requires pageSize > 0
  {
    var dataOffset := 8 + part * memsize;
    var aligned := (dataOffset / pageSize) * pageSize;
    Mapping(aligned, dataOffset - aligned, memsize + (dataOffset - aligned))
  }

  /** The mapping of a part starts on a page and ends with the part; its records are the bytes that the final
      merge walks for the same part: both run from record Pos(m, part) to record Pos(m, part + 1). */
  lemma MappingMatchesMerge(part: nat, memsize: nat, pageSize: nat)
    requires pageSize > 0 && memsize % 16 == 0
    ensures var mp, m := MapPart(part, memsize, pageSize), memsize / 16;
            && mp.offset % pageSize == 0 && mp.skip < pageSize
            && mp.offset + mp.skip == ByteOf(Pos(m, part)) == 8 + part * m * 16
            && mp.offset + mp.size == ByteOf(Pos(m, part + 1)) == 8 + part * m * 16 + m * 16
  {
    PageStart(8 + part * memsize, pageSize);
    PartStart(part, memsize);
  }

  lemma PageStart(offset: nat, pageSize: nat)
    requires pageSize > 0
    ensures var aligned := (offset / pageSize) * pageSize;
            aligned % pageSize == 0 && aligned <= offset < aligned + pageSize
  {
    MultipleHasNoRemainder(offset / pageSize, pageSize);
  }

  lemma PartStart(part: nat, memsize: nat)
    requires memsize % 16 == 0
    ensures var m := memsize / 16;
            && 8 + part * memsize == ByteOf(Pos(m, part)) == 8 + part * m * 16
            && 8 + part * memsize + memsize == ByteOf(Pos(m, part + 1)) == 8 + part * m * 16 + m * 16
  {
    var m := memsize / 16;
    PosIsProduct(m, part);
    PosNext(m, part);
    assert part * memsize == part * (m * 16) == part * m * 16;
  }

  /** Byte `x` of the file belongs to part `i`. */
  predicate InPart(m: nat, i: nat, x: nat) {
    ByteOf(Pos(m, i)) <= x < ByteOf(Pos(m, i + 1))
  }

  /** The parts tile the file: every byte behind the header lies in exactly one part. */
  lemma PartsTileFile(m: nat, n: nat, x: nat)
    requires 8 <= x < ByteOf(Pos(m, n))
    ensures exists i: nat :: i < n && InPart(m, i, x)
    ensures forall i: nat, j: nat :: InPart(m, i, x) && InPart(m, j, x) ==> i == j
  {
    var i := PairOf(m, n, (x - 8) / 16);
    hide Pos;
    assert InPart(m, i, x);
    forall i: nat, j: nat | InPart(m, i, x) && InPart(m, j, x) ensures i == j {
      if i < j { PosMono(m, i + 1, j); } else if j < i { PosMono(m, j + 1, i); }
    }
  }

  // ----- the whole run

  /** The settings under which part `i` of a file with `m` records a part is sorted. */
  function PartConfig(file: seq<Record>, m: nat, i: nat, blocks: nat, threads: nat): (c: Config)
    requires blocks > 0
    ensures c.input == Block(file, m, i) && (PowerOfTwo(blocks) && threads > 0 ==> c.Valid())
  {
    Config(Block(file, m, i), blocks, threads, |Block(file, m, i)| / blocks)
  }

  /** `out` is a file the program may leave behind: every part is replaced by what some complete run of its threads
      leaves there, and the parts are merged. */
  ghost predicate FileOutcome(file: seq<Record>, m: nat, n: nat, blocks: nat, threads: nat, out: seq<Record>)
    requires PowerOfTwo(blocks) && threads > 0 && |file| == Pos(m, n)
  {
    exists mid :: PartsSorted(file, m, n, blocks, threads, mid) && out == KMerge(PartsOf(mid, m, n))
  }

  ghost predicate PartsSorted(file: seq<Record>, m: nat, n: nat, blocks: nat, threads: nat, mid: seq<Record>)
    requires PowerOfTwo(blocks) && threads > 0 && |file| == Pos(m, n)
  {
    |mid| == |file| && forall i :: 0 <= i < n ==> MayLeave(PartConfig(file, m, i, blocks, threads), Block(mid, m, i))
  }

  /** The settings of a part are determined by what main passes to the threads. */
  lemma SettingsAreMains(file: seq<Record>, m: nat, i: nat, blocks: nat, threads: nat, c: Config)
    requires blocks > 0 && c.Valid()
    requires c.input == Block(file, m, i) && c.blocks == blocks && c.threads == threads
    ensures c == PartConfig(file, m, i, blocks, threads)
  {
  }

  /** The program's file is made by complete runs, one for each part, all with the numbers main passes: the parts go
      in as they are in the file, each is replaced by the buffer its run ends in, and the results are merged. */
  lemma FileOutcomeIff(file: seq<Record>, m: nat, n: nat, blocks: nat, threads: nat, out: seq<Record>)
    requires PowerOfTwo(blocks) && threads > 0 && |file| == Pos(m, n)
    ensures FileOutcome(file, m, n, blocks, threads, out) <==>
            exists mid :: |mid| == |file| && out == KMerge(PartsOf(mid, m, n))
              && forall i :: 0 <= i < n ==> LeftByRun(Block(file, m, i), blocks, threads, Block(mid, m, i))
  {
    assert blocks > 0;
    hide Block, Pos, KMerge, PartConfig, MayLeave, LeftByRun;
    forall mid: seq<Record>, i: nat | i < n
      ensures MayLeave(PartConfig(file, m, i, blocks, threads), Block(mid, m, i)) <==>
              LeftByRun(Block(file, m, i), blocks, threads, Block(mid, m, i))
    {
      LeftByRunIff(file, m, i, blocks, threads, Block(mid, m, i));
    }
    if FileOutcome(file, m, n, blocks, threads, out) {
      var mid :| PartsSorted(file, m, n, blocks, threads, mid) && out == KMerge(PartsOf(mid, m, n));
      assert |mid| == |file| && out == KMerge(PartsOf(mid, m, n));
    }
    if mid :| |mid| == |file| && out == KMerge(PartsOf(mid, m, n))
              && forall i :: 0 <= i < n ==> LeftByRun(Block(file, m, i), blocks, threads, Block(mid, m, i)) {
      assert PartsSorted(file, m, n, blocks, threads, mid);
    }
  }

  /** Some complete run of `threads` threads on `part`, cut into `blocks` blocks, ends with `out`. */
  ghost predicate LeftByRun(part: seq<Record>, blocks: nat, threads: nat, out: seq<Record>) {
    exists c: Config, run: seq<State> ::
      c.input == part && c.blocks == blocks && c.threads == threads && CompleteRun(c, run)
      && run[|run| - 1].buffer == out
  }

  /** One complete run for each part is all it takes, whatever the settings are called that it runs under. */
  lemma RunsMakeFile(file: seq<Record>, m: nat, n: nat, blocks: nat, threads: nat,
                     cs: seq<Config>, runs: seq<seq<State>>, mid: seq<Record>)
    requires PowerOfTwo(blocks) && threads > 0 && |file| == Pos(m, n) == |mid| && |runs| == |cs| == n
    requires forall i :: 0 <= i < n ==>
               (cs[i].input == Block(file, m, i) && cs[i].blocks == blocks && cs[i].threads == threads
                && CompleteRun(cs[i], runs[i]) && Block(mid, m, i) == runs[i][|runs[i]| - 1].buffer)
    ensures FileOutcome(file, m, n, blocks, threads, KMerge(PartsOf(mid, m, n)))
  {
    hide CompleteRun, Block, Pos, KMerge, FileOutcome;
    forall i | 0 <= i < n ensures LeftByRun(Block(file, m, i), blocks, threads, Block(mid, m, i)) {
      assert CompleteRun(cs[i], runs[i]);
    }
    FileOutcomeIff(file, m, n, blocks, threads, KMerge(PartsOf(mid, m, n)));
  }

  lemma LeftByRunIff(file: seq<Record>, m: nat, i: nat, blocks: nat, threads: nat, out: seq<Record>)
    requires blocks > 0
    ensures MayLeave(PartConfig(file, m, i, blocks, threads), out) <==>
            LeftByRun(Block(file, m, i), blocks, threads, out)
  {
    var part := Block(file, m, i);
    hide Init, Next, AllReturned, Block;
    if MayLeave(PartConfig(file, m, i, blocks, threads), out) {
      var c := PartConfig(file, m, i, blocks, threads);
      var run: seq<State> :| CompleteRun(c, run) && run[|run| - 1].buffer == out;
      assert c.input == part && c.blocks == blocks && c.threads == threads;
    }
    if LeftByRun(part, blocks, threads, out) {
      var c: Config, run: seq<State> :|
        c.input == part && c.blocks == blocks && c.threads == threads && CompleteRun(c, run)
        && run[|run| - 1].buffer == out;
      CompleteIsValid(c, run);
      SettingsAreMains(file, m, i, blocks, threads, c);
    }
  }

  /** For every file of whole parts there is a file the program may leave behind. */
  lemma FileOutcomeExists(file: seq<Record>, m: nat, n: nat, blocks: nat, threads: nat)
    requires PowerOfTwo(blocks) && threads > 0 && |file| == Pos(m, n)
    ensures exists out :: FileOutcome(file, m, n, blocks, threads, out)
  {
    assert blocks > 0;
    hide MayLeave, Block, Pos, KMerge, PartConfig;
    var mid := SomeParts(file, m, n, blocks, threads, n);
    assert PartsSorted(file, m, n, blocks, threads, mid);
    assert FileOutcome(file, m, n, blocks, threads, KMerge(PartsOf(mid, m, n)));
  }

  /** `mid` holds the first `k` parts, each as some complete run leaves it. */
  ghost predicate PartsLeft(file: seq<Record>, m: nat, blocks: nat, threads: nat, mid: seq<Record>, k: nat)
    requires blocks > 0
  {
    |mid| == Pos(m, k) && forall i :: 0 <= i < k ==> MayLeave(PartConfig(file, m, i, blocks, threads), Block(mid, m, i))
  }

  lemma NextPart(file: seq<Record>, m: nat, blocks: nat, threads: nat, before: seq<Record>, out: seq<Record>, k: nat)
    requires blocks > 0 && PartsLeft(file, m, blocks, threads, before, k)
    requires |out| == m && MayLeave(PartConfig(file, m, k, blocks, threads), out)
    ensures PartsLeft(file, m, blocks, threads, before + out, k + 1)
  {
    hide MayLeave, Block, Pos, PartConfig;
    AppendPart(before, out, m, k);
    forall i | 0 <= i < k + 1
      ensures MayLeave(PartConfig(file, m, i, blocks, threads), Block(before + out, m, i))
    {
      if i < k { assert Block(before + out, m, i) == Block(before, m, i); }
    }
  }

  lemma {:induction false} SomeParts(file: seq<Record>, m: nat, n: nat, blocks: nat, threads: nat, k: nat)
    returns (mid: seq<Record>)
    requires PowerOfTwo(blocks) && blocks > 0 && threads > 0 && |file| == Pos(m, n) && k <= n
    ensures PartsLeft(file, m, blocks, threads, mid, k)
  {
    if k == 0 {
      mid := [];
    } else {
      hide PartsLeft, MayLeave, Block, Pos, PowerOfTwo, PartConfig;
      var before := SomeParts(file, m, n, blocks, threads, k - 1);
      BlockFits(file, m, n, k - 1);
      var out := SomeRun(PartConfig(file, m, k - 1, blocks, threads));
      NextPart(file, m, blocks, threads, before, out, k - 1);
      mid := before + out;
    }
  }

  lemma AppendPart(before: seq<Record>, out: seq<Record>, m: nat, k: nat)
    requires |before| == Pos(m, k) && |out| == m
    ensures |before + out| == Pos(m, k + 1) && Block(before + out, m, k) == out
    ensures forall i :: 0 <= i < k ==> Block(before + out, m, i) == Block(before, m, i)
  {
    var mid := before + out;
    PosNext(m, k);
    BlockFits(mid, m, k + 1, k);
    hide Block, Pos;
    forall i | 0 <= i < k ensures Block(mid, m, i) == Block(before, m, i) {
      BlockFits(mid, m, k + 1, i);
      BlockFits(before, m, k, i);
      PosMono(m, i, i + 1);
      PosMono(m, i + 1, k);
      assert mid[..|before|] == before;
      SliceOfPrefix(mid, |before|, Pos(m, i), Pos(m, i + 1));
    }
  }

  lemma PartsSplit(s: seq<Record>, m: nat, n: nat)
    requires n > 0
    ensures var parts := PartsOf(s, m, n);
            parts[..n - 1] == PartsOf(s, m, n - 1) && parts[n - 1] == Block(s, m, n - 1) && Flatten(parts[n..]) == []
  {
    hide Block;
  }

  lemma {:induction false} FlattenParts(s: seq<Record>, m: nat, n: nat)
    requires Pos(m, n) <= |s|
    ensures Flatten(PartsOf(s, m, n)) == s[..Pos(m, n)]
  {
    if n == 0 {
      assert s[..0] == [];
    } else {
      PosMono(m, n - 1, n);
      FlattenParts(s, m, n - 1);
      hide Flatten, PartsOf, Block, Pos;
      PartsSplit(s, m, n);
      FlattenSplit(PartsOf(s, m, n), n - 1);
      BlockFits(s, m, n, n - 1);
      PosNext(m, n - 1);
      assert s[..Pos(m, n)] == s[..Pos(m, n - 1)] + s[Pos(m, n - 1)..Pos(m, n)];
    }
  }

  /** Conservation for the whole program: whatever the threads do, the output file is a permutation of the input
      file. */
  lemma MainConserves(file: seq<Record>, m: nat, n: nat, blocks: nat, threads: nat, out: seq<Record>)
    requires PowerOfTwo(blocks) && threads > 0 && |file| == Pos(m, n)
    requires FileOutcome(file, m, n, blocks, threads, out)
    ensures Permutation(out, file)
  {
    hide Pos, PartsSorted, PowerOfTwo, KMerge, PartsOf, Permutation;
    var mid :| PartsSorted(file, m, n, blocks, threads, mid) && out == KMerge(PartsOf(mid, m, n));
    PartsConserve(file, m, n, blocks, threads, mid);
    MergedConserves(file, m, n, mid);
  }

  lemma MergedConserves(file: seq<Record>, m: nat, n: nat, mid: seq<Record>)
    requires Permutation(mid, file) && |mid| == Pos(m, n)
    ensures Permutation(KMerge(PartsOf(mid, m, n)), file)
  {
    hide Pos, KMerge, Flatten, PartsOf;
    KMergePermutation(PartsOf(mid, m, n));
    FlattenParts(mid, m, n);
    assert mid[..Pos(m, n)] == mid;
  }

  lemma PartsConserve(file: seq<Record>, m: nat, n: nat, blocks: nat, threads: nat, mid: seq<Record>)
    requires PowerOfTwo(blocks) && threads > 0 && |file| == Pos(m, n)
    requires PartsSorted(file, m, n, blocks, threads, mid)
    ensures Permutation(mid, file) && |mid| == |file|
  {
    assert blocks > 0;
    hide Block, Pos, Outcome, MayLeave, PowerOfTwo, PartConfig;
    forall i | 0 <= i < n ensures Permutation(Block(mid, m, i), Block(file, m, i)) {
      MayLeaveIff(PartConfig(file, m, i, blocks, threads), Block(mid, m, i));
      OutcomeConserves(PartConfig(file, m, i, blocks, threads), Block(mid, m, i));
    }
    BlocksPermute(mid, file, m, n);
    assert mid[..Pos(m, n)] == mid && file[..Pos(m, n)] == file;
  }

  /** A part of the file as it is before the sort: every boundary between blocks that no merge spans is in order, and
      the remainder behind the last block is sorted and comes after all blocks. */
  predicate PartInOrder(part: seq<Record>, blocks: nat, threads: nat)
    requires blocks > 0
  {
    var m := |part| / blocks;
    var p := Pos(m, blocks);
    && p <= |part| && BoundariesInOrder(part, m, blocks, threads)
    && Sorted(part[p..]) && AllBefore(part[..p], part[p..])
  }

  lemma PartInOrderIff(c: Config)
    requires c.Valid()
    ensures c.blocks > 0 && (SortCondition(c) <==> PartInOrder(c.input, c.blocks, c.threads))
  {
    BlocksCoverPart(c);
    hide BoundariesInOrder, Pos, Sorted, AllBefore;
  }

  /** Exactly when the program sorts a file: when every part of `m` records is in order in the sense above. */
  lemma MainSortsIff(file: seq<Record>, m: nat, n: nat, blocks: nat, threads: nat, out: seq<Record>)
    requires PowerOfTwo(blocks) && blocks > 0 && threads > 0 && |file| == Pos(m, n)
    requires FileOutcome(file, m, n, blocks, threads, out)
    ensures Sorted(out) <==> forall i :: 0 <= i < n ==> PartInOrder(Block(file, m, i), blocks, threads)
  {
    hide Block, Pos, Outcome, MayLeave, PowerOfTwo, SortCondition, PartInOrder, Sorted, KMerge, PartConfig;
    var mid :| PartsSorted(file, m, n, blocks, threads, mid) && out == KMerge(PartsOf(mid, m, n));
    KMergeSortedIff(PartsOf(mid, m, n));
    forall i | 0 <= i < n
      ensures Sorted(PartsOf(mid, m, n)[i]) <==> PartInOrder(Block(file, m, i), blocks, threads)
    {
      var c := PartConfig(file, m, i, blocks, threads);
      MayLeaveIff(c, Block(mid, m, i));
      OutcomeSortedIff(c, Block(mid, m, i));
      SettingsOf(file, m, i, blocks, threads);
      PartInOrderIff(c);
    }
  }

  lemma SettingsOf(file: seq<Record>, m: nat, i: nat, blocks: nat, threads: nat)
    requires blocks > 0
    ensures var c := PartConfig(file, m, i, blocks, threads);
            c.input == Block(file, m, i) && c.blocks == blocks && c.threads == threads
  {
  }

  /** Part lengths that a thread count can sort: at most one record, or whole blocks and a thread for every pair. */
  predicate CanSort(length: nat, blocks: nat, threads: nat)
    requires blocks > 0
  {
    length <= 1 || (length % blocks == 0 && blocks <= 2 * threads)
  }

  /** For every part length: complete runs leave every part of that length sorted exactly when the part has at most
      one record, or consists of whole blocks and there are at least half as many threads as blocks. */
  lemma PartAlwaysSortedIff(length: nat, blocks: nat, threads: nat)
    requires PowerOfTwo(blocks) && threads > 0
    ensures (forall c: Config, run: seq<State> |
               |c.input| == length && c.blocks == blocks && c.threads == threads && CompleteRun(c, run) ::
               Sorted(run[|run| - 1].buffer)) <==> CanSort(length, blocks, threads)
  {
    assert blocks > 0;
    hide SortCondition, Sorted, CompleteRun, PowerOfTwo;
    if CanSort(length, blocks, threads) {
      forall c: Config, run: seq<State> |
        |c.input| == length && c.blocks == blocks && c.threads == threads && CompleteRun(c, run)
        ensures Sorted(run[|run| - 1].buffer)
      {
        CompleteIsValid(c, run);
        MeetsCondition(c);
        RunSortedIff(c, run);
      }
    } else {
      var c := BadPart(length, blocks, threads);
      var run := SomeCompleteRun(c);
      RunSortedIff(c, run);
    }
  }

  lemma CompleteIsValid(c: Config, run: seq<State>)
    requires CompleteRun(c, run)
    ensures c.Valid()
  {
  }

  lemma RunSortedIff(c: Config, run: seq<State>)
    requires c.Valid() && CompleteRun(c, run)
    ensures Sorted(run[|run| - 1].buffer) <==> SortCondition(c)
  {
    assert |run| > 0;
    var last: nat := |run| - 1;
    hide IsRun, Outcome, SortCondition, Sorted;
    Finished(c, run, last);
    OutcomeSortedIff(c, run[last].buffer);
  }

  lemma SomeCompleteRun(c: Config) returns (run: seq<State>)
    requires c.Valid()
    ensures CompleteRun(c, run)
  {
    var out := SomeRun(c);
    run :| CompleteRun(c, run) && run[|run| - 1].buffer == out;
  }

  /** A part whose length the threads can sort meets the condition, whatever it holds. */
  lemma MeetsCondition(c: Config)
    requires c.Valid() && CanSort(|c.input|, c.blocks, c.threads)
    ensures SortCondition(c)
  {
    assert c.blocks > 0;
    BlocksCoverPart(c);
    hide Pos, Block, PowerOfTwo, Unmerged;
    if |c.input| % c.blocks == 0 && c.blocks <= 2 * c.threads {
      WholeBlocks(|c.input|, c.blocks);
      forall k | 0 < k < c.blocks ensures !Unmerged(k, c.threads) { EnoughThreads(k, c.blocks, c.threads); }
    } else if c.blocks > 1 {
      assert c.m == 0;
      EmptyBlocks(c.input, c.blocks);
    }
  }

  lemma EmptyBlocks(s: seq<Record>, blocks: nat)
    ensures Pos(0, blocks) == 0 && forall b: nat :: Block(s, 0, b) == []
  {
    PosIsProduct(0, blocks);
    forall b: nat ensures Block(s, 0, b) == [] {
      PosIsProduct(0, b);
      PosIsProduct(0, b + 1);
    }
  }

  /** For any other length there is a part that no run leaves sorted. */
  lemma BadPart(length: nat, blocks: nat, threads: nat) returns (c: Config)
    requires PowerOfTwo(blocks) && threads > 0 && blocks > 0 && !CanSort(length, blocks, threads)
    ensures |c.input| == length && c.blocks == blocks && c.threads == threads && c.Valid() && !SortCondition(c)
  {
    hide PowerOfTwo, LateBlock, SortCondition;
    var m := length / blocks;
    if length % blocks == 0 {
      WholeBlocks(length, blocks);
      c := Config(LateBlock(m, blocks), blocks, threads, m);
      LateBlockIsBad(c);
    } else {
      c := Config(seq(length, (i: nat) => Record(if i == 0 then 1.0 else 0.0, i)), blocks, threads, m);
      LateStartFails(c);
    }
  }

  lemma WholeBlocks(length: nat, blocks: nat)
    requires blocks > 0 && length % blocks == 0
    ensures Pos(length / blocks, blocks) == length && (length > 0 ==> length / blocks > 0)
  {
    PosIsProduct(length / blocks, blocks);
  }

  lemma LateBlockIsBad(c: Config)
    requires c.Valid() && c.m > 0 && c.blocks > 2 * c.threads && c.input == LateBlock(c.m, c.blocks)
    ensures !SortCondition(c)
  {
    hide PowerOfTwo, LateBlock, BoundariesInOrder;
    LateBlockFails(c.m, c.blocks, c.threads);
  }

  /** A part with a remainder that starts with its latest record. */
  lemma LateStartFails(c: Config)
    requires c.Valid() && |c.input| % c.blocks > 0 && |c.input| > 1
    requires forall i :: 0 <= i < |c.input| ==> c.input[i].timeMark == if i == 0 then 1.0 else 0.0
    ensures !SortCondition(c)
  {
    var s, p := c.input, Pos(c.m, c.blocks);
    BlocksCoverPart(c);
    PosIsProduct(c.m, c.blocks);
    assert c.blocks * c.m < |s|;
    hide Pos, PowerOfTwo, BoundariesInOrder;
    if p == 0 {
      assert s[p..] == s;
      assert !Before(s[0], s[1]);
    } else {
      assert s[..p][0] == s[0] && s[0] in s[..p];
      assert s[p..][0] == s[p] && s[p] in s[p..];
      assert !Before(s[0], s[p]);
    }
  }

  /** For an accepted command line and parts of at least two records there is a file of one part that no run leaves
      sorted; parts of one record, which only a page of 16 bytes or less would allow, are always sorted. */
  lemma AcceptedCanFail(memsize: nat, pageSize: nat, blocks: nat, threads: nat)
    requires memsize > 0 && pageSize > 0
    requires CheckArgs(memsize, pageSize, blocks, threads, memsize / 16) == Accepted
    ensures PowerOfTwo(blocks) && threads > 0
    ensures (exists file: seq<Record> ::
               |file| == Pos(memsize / 16, 1) && NeverSorted(file, memsize / 16, blocks, threads))
            <==> memsize / 16 > 1
  {
    var m := memsize / 16;
    AcceptedIff(memsize, pageSize, blocks, threads, m);
    assert Pos(m, 1) == m && blocks > 0;
    if m > 1 {
      var c := BadPart(m, blocks, threads);
      BadFile(c);
    } else {
      forall file: seq<Record> | |file| == Pos(m, 1) ensures !NeverSorted(file, m, blocks, threads) {
        OneRecordParts(file, m, blocks, threads);
      }
    }
  }

  /** Whatever the threads do, the program does not leave the file, a single part, sorted. */
  ghost predicate NeverSorted(file: seq<Record>, m: nat, blocks: nat, threads: nat)
    requires PowerOfTwo(blocks) && threads > 0 && |file| == Pos(m, 1)
  {
    forall out :: FileOutcome(file, m, 1, blocks, threads, out) ==> !Sorted(out)
  }

  lemma BadFile(c: Config)
    requires c.Valid() && !SortCondition(c)
    ensures |c.input| == Pos(|c.input|, 1) && NeverSorted(c.input, |c.input|, c.blocks, c.threads)
  {
    var file, m := c.input, |c.input|;
    assert Pos(m, 1) == m;
    OnePart(file, m, c.blocks, c.threads);
    PartInOrderIff(c);
    hide SortCondition, PartInOrder, FileOutcome, Pos, Sorted, PartConfig, PowerOfTwo;
    forall out | FileOutcome(file, m, 1, c.blocks, c.threads, out) ensures !Sorted(out) {
      MainSortsIff(file, m, 1, c.blocks, c.threads, out);
    }
  }

  lemma OnePart(file: seq<Record>, m: nat, blocks: nat, threads: nat)
    requires PowerOfTwo(blocks) && threads > 0 && |file| == Pos(m, 1)
    ensures m == |file| && PartConfig(file, m, 0, blocks, threads) == Config(file, blocks, threads, m / blocks)
    ensures Block(file, m, 0) == file
    ensures PartConfig(file, m, 0, blocks, threads).Valid() && blocks > 0
    ensures m <= 1 ==> CanSort(|PartConfig(file, m, 0, blocks, threads).input|, blocks, threads)
  {
    assert Pos(m, 0) == 0 && Pos(m, 1) == m;
    assert Block(file, m, 0) == file;
  }

  lemma OneRecordParts(file: seq<Record>, m: nat, blocks: nat, threads: nat)
    requires PowerOfTwo(blocks) && threads > 0 && |file| == Pos(m, 1) && m <= 1
    ensures !NeverSorted(file, m, blocks, threads)
  {
    hide SortCondition, PartInOrder, FileOutcome, Pos, Sorted, PartConfig, PowerOfTwo, CanSort;
    OnePart(file, m, blocks, threads);
    MeetsCondition(PartConfig(file, m, 0, blocks, threads));
    PartInOrderIff(PartConfig(file, m, 0, blocks, threads));
    FileOutcomeExists(file, m, 1, blocks, threads);
    var out :| FileOutcome(file, m, 1, blocks, threads, out);
    MainSortsIff(file, m, 1, blocks, threads, out);
  }

  lemma SliceOfPrefix(s: seq<Record>, n: nat, lo: nat, hi: nat)
    requires lo <= hi <= n <= |s|
    ensures s[..n][lo..hi] == s[lo..hi]
  {
  }
}
