/** The final k-way merge of all parts of the file: a specification function, what it guarantees,
    and the loop over the merge states that computes it. */
module PartsMerge {
  import opened Records
  import opened MergeRounds
  import opened TwoWayMerge

  // ----- the order in which records are written

  /** The scan over the first `n` parts: index of the part with the least head, or -1 if all are used up.
      A later part replaces an earlier one only if its head is strictly smaller. */
  function Best(parts: seq<seq<Record>>, n: nat): (b: int)
    requires n <= |parts|
    ensures -1 <= b < n
    ensures b == -1 <==> forall i :: 0 <= i < n ==> parts[i] == []
    ensures b >= 0 ==> parts[b] != []
    ensures b >= 0 ==> forall i :: 0 <= i < n && parts[i] != [] ==> Before(parts[b][0], parts[i][0])
    ensures b >= 0 ==> forall i :: 0 <= i < b && parts[i] != [] ==> parts[b][0].timeMark < parts[i][0].timeMark
  {
    if n == 0 then -1
    else
      var b := Best(parts, n - 1);
      if parts[n - 1] != [] && (b == -1 || Compare(parts[n - 1][0], parts[b][0]) < 0) then n - 1 else b
  }

  function Flatten(parts: seq<seq<Record>>): seq<Record> {
    if parts == [] then [] else parts[0] + Flatten(parts[1..])
  }

  lemma {:induction false} FlattenSplit(parts: seq<seq<Record>>, i: nat)
    requires i < |parts|
    ensures Flatten(parts) == Flatten(parts[..i]) + parts[i] + Flatten(parts[i + 1..])
  {
    if i > 0 {
      FlattenSplit(parts[1..], i - 1);
      assert parts[1..][..i - 1] == parts[..i][1..] && parts[1..][i - 1 + 1..] == parts[i + 1..];
      assert parts[1..][i - 1] == parts[i] && parts[..i][0] == parts[0];
    } else {
      assert parts[..0] == [];
    }
  }

  lemma FlattenDrop(parts: seq<seq<Record>>, i: nat)
    requires i < |parts| && parts[i] != []
    ensures var rest := parts[i := parts[i][1..]];
            && Flatten(parts) == Flatten(parts[..i]) + [parts[i][0]] + parts[i][1..] + Flatten(parts[i + 1..])
            && Flatten(rest) == Flatten(parts[..i]) + parts[i][1..] + Flatten(parts[i + 1..])
            && |Flatten(rest)| + 1 == |Flatten(parts)|
  {
    var rest := parts[i := parts[i][1..]];
    FlattenSplit(parts, i);
    FlattenSplit(rest, i);
    assert rest[..i] == parts[..i] && rest[i + 1..] == parts[i + 1..];
    assert parts[i] == [parts[i][0]] + parts[i][1..];
  }

  /** Repeatedly take the head the scan finds. */
  function KMerge(parts: seq<seq<Record>>): seq<Record>
    decreases |Flatten(parts)|
  {
    var b := Best(parts, |parts|);
    if b == -1 then []
    else
      FlattenDrop(parts, b);
      [parts[b][0]] + KMerge(parts[b := parts[b][1..]])
  }

  lemma {:induction false} FlattenEmpty(parts: seq<seq<Record>>)
    requires forall i :: 0 <= i < |parts| ==> parts[i] == []
    ensures Flatten(parts) == []
  {
    if parts != [] { FlattenEmpty(parts[1..]); }
  }

  /** Conservation, for any parts: every record is written exactly once. */
  lemma {:induction false} KMergePermutation(parts: seq<seq<Record>>)
    ensures Permutation(KMerge(parts), Flatten(parts))
    decreases |Flatten(parts)|
  {
    var b := Best(parts, |parts|);
    if b == -1 {
      FlattenEmpty(parts);
    } else {
      FlattenDrop(parts, b);
      KMergePermutation(parts[b := parts[b][1..]]);
    }
  }

  /** A record of the flattened parts lies in one of them. */
  lemma {:induction false} FlattenMember(parts: seq<seq<Record>>, x: Record) returns (i: nat)
    requires x in Flatten(parts)
    ensures i < |parts| && x in parts[i]
  {
    if x in parts[0] {
      i := 0;
    } else {
      i := FlattenMember(parts[1..], x);
      i := i + 1;
    }
  }

  lemma PartInFlatten(parts: seq<seq<Record>>, i: nat, x: Record)
    requires i < |parts| && x in parts[i]
    ensures x in Flatten(parts)
  {
    FlattenSplit(parts, i);
  }

  ghost predicate AllSorted(parts: seq<seq<Record>>) {
    forall i :: 0 <= i < |parts| ==> Sorted(parts[i])
  }

  /** Exactly when the merged file is sorted: when every part is. */
  lemma {:induction false} KMergeSortedIff(parts: seq<seq<Record>>)
    ensures Sorted(KMerge(parts)) <==> AllSorted(parts)
    decreases |Flatten(parts)|
  {
    hide KMerge, Flatten, Sorted;
    var b := Best(parts, |parts|);
    if b == -1 {
      UsedUp(parts);
      NothingUnsorted(parts);
    } else {
      var rest := parts[b := parts[b][1..]];
      var x, m := parts[b][0], KMerge(rest);
      TakeBest(parts, b);
      FlattenDrop(parts, b);
      KMergeSortedIff(rest);
      KMergePermutation(rest);
      PermutationMembers(m, Flatten(rest));
      SortedCons(x, m);
      SortedCons(x, parts[b][1..]);
      assert parts[b] == [x] + parts[b][1..] && x in [x];
      if AllSorted(parts) { HeadBeforeRest(parts, b); }
      if Sorted([x] + m) { SortedBack(parts, b); }
    }
  }

  lemma NothingUnsorted(parts: seq<seq<Record>>)
    requires Best(parts, |parts|) == -1
    ensures AllSorted(parts) && Sorted([])
  {
  }

  lemma HeadBeforeRest(parts: seq<seq<Record>>, b: nat)
    requires b == Best(parts, |parts|) && AllSorted(parts)
    ensures AllSorted(parts[b := parts[b][1..]])
    ensures forall y :: y in Flatten(parts[b := parts[b][1..]]) ==> Before(parts[b][0], y)
  {
    var rest := parts[b := parts[b][1..]];
    forall y | y in Flatten(rest) ensures Before(parts[b][0], y) {
      var i := FlattenMember(rest, y);
      assert y in parts[i] by { if i == b { assert forall k :: 0 <= k < |rest[b]| ==> rest[b][k] == parts[b][k + 1]; } }
      HeadIsLeast(parts[i], y);
    }
    forall i | 0 <= i < |rest| ensures Sorted(rest[i]) {
      if i == b { assert forall k :: 0 <= k < |rest[b]| ==> rest[b][k] == parts[b][k + 1]; }
    }
  }

  lemma SortedBack(parts: seq<seq<Record>>, b: nat)
    requires b == Best(parts, |parts|)
    requires AllSorted(parts[b := parts[b][1..]])
    requires forall y :: y in Flatten(parts[b := parts[b][1..]]) ==> Before(parts[b][0], y)
    ensures AllSorted(parts)
  {
    var rest := parts[b := parts[b][1..]];
    forall i | 0 <= i < |parts| ensures Sorted(parts[i]) {
      assert Sorted(rest[i]);
      if i == b {
        forall y | y in rest[b] ensures Before(parts[b][0], y) { PartInFlatten(rest, b, y); }
        SortedCons(parts[b][0], rest[b]);
        assert parts[b] == [parts[b][0]] + rest[b];
      } else {
        assert rest[i] == parts[i];
      }
    }
  }

  lemma {:induction false} NoneInEarlier(parts: seq<seq<Record>>, k: real)
    requires AllSorted(parts)
    requires forall i :: 0 <= i < |parts| && parts[i] != [] ==> k < parts[i][0].timeMark
    ensures WithMark(Flatten(parts), k) == []
  {
    forall x | x in Flatten(parts) ensures x.timeMark != k {
      var i := FlattenMember(parts, x);
      HeadIsLeast(parts[i], x);
    }
    WithMarkEmpty(Flatten(parts), k);
  }

  /** Stability across parts: among equal time marks, earlier parts stay ahead of later ones and each part
      keeps its order, because the scan moves on only for a strictly smaller head. */
  lemma {:induction false} KMergeStable(parts: seq<seq<Record>>, k: real)
    requires AllSorted(parts)
    ensures WithMark(KMerge(parts), k) == WithMark(Flatten(parts), k)
    decreases |Flatten(parts)|
  {
    hide KMerge, Flatten, WithMark, AllSorted;
    var b := Best(parts, |parts|);
    if b == -1 {
      UsedUp(parts);
    } else {
      var rest, x := parts[b := parts[b][1..]], parts[b][0];
      var front, back := Flatten(parts[..b]), parts[b][1..] + Flatten(parts[b + 1..]);
      TakeBest(parts, b);
      FlattenDrop(parts, b);
      HeadBeforeRest(parts, b);
      KMergeStable(rest, k);
      assert Flatten(rest) == front + back && Flatten(parts) == front + ([x] + back);
      if x.timeMark == k { EarlierParts(parts, b); NoneInEarlier(parts[..b], k); }
      StableStep(x, front, back, KMerge(rest), k);
    }
  }

  lemma UsedUp(parts: seq<seq<Record>>)
    requires Best(parts, |parts|) == -1
    ensures KMerge(parts) == [] == Flatten(parts)
  {
    FlattenEmpty(parts);
  }

  lemma TakeBest(rem: seq<seq<Record>>, b: nat)
    requires b == Best(rem, |rem|) && b < |rem|
    ensures rem[b] != [] && KMerge(rem) == [rem[b][0]] + KMerge(rem[b := rem[b][1..]])
  {
  }

  lemma EarlierParts(parts: seq<seq<Record>>, b: nat)
    requires AllSorted(parts) && b == Best(parts, |parts|) && b < |parts|
    ensures AllSorted(parts[..b])
    ensures forall i :: 0 <= i < |parts[..b]| && parts[..b][i] != [] ==>
              parts[b][0].timeMark < parts[..b][i][0].timeMark
  {
  }

  lemma StableStep(x: Record, front: seq<Record>, back: seq<Record>, m: seq<Record>, k: real)
    requires WithMark(m, k) == WithMark(front + back, k)
    requires x.timeMark == k ==> WithMark(front, k) == []
    ensures WithMark([x] + m, k) == WithMark(front + ([x] + back), k)
  {
    WithMarkConcat(front, back, k);
    WithMarkConcat(front, [x] + back, k);
    WithMarkConcat([x], back, k);
    WithMarkConcat([x], m, k);
    assert WithMark([x], k) == if x.timeMark == k then [x] else [];
  }

  // ----- the code

  /** Byte offset of record number `i` of the file: 8 bytes of header, 16 bytes a record. */
  function ByteOf(i: nat): nat { 8 + i * 16 }

  /** The record at a byte offset of the file. */
  function ReadAt(file: seq<Record>, pos: nat): Record
    requires pos >= 8 && (pos - 8) % 16 == 0 && (pos - 8) / 16 < |file|
  {
    file[(pos - 8) / 16]
  }

  /** One entry of the state array: the record read last, the file position behind it, the end of the part. */
  datatype MergeState = MergeState(current: Record, pos: nat, end: nat, active: bool)

  /** The parts of the file, in order. */
  function PartsOf(file: seq<Record>, m: nat, n: nat): (parts: seq<seq<Record>>)
    ensures |parts| == n
  {
    seq(n, (i: nat) => Block(file, m, i))
  }

  /** Byte offsets of `n` records in a row, from record `first` on. */
  function Offsets(first: nat, n: nat): multiset<nat> {
    if n == 0 then multiset{} else Offsets(first, n - 1) + multiset{ByteOf(first + n - 1)}
  }

  /** Byte offsets read so far when `used[i]` records of part `i` have been read. */
  function OffsetsRead(first: nat, m: nat, used: seq<nat>): multiset<nat>
    decreases |used|
  {
    if used == [] then multiset{} else Offsets(first, used[0]) + OffsetsRead(first + m, m, used[1..])
  }

  lemma OffsetsNone(first: nat)
    ensures Offsets(first, 0) == multiset{}
  {
  }

  lemma OffsetsNext(first: nat, n: nat)
    ensures Offsets(first, n + 1) == Offsets(first, n) + multiset{ByteOf(first + n)}
  {
  }

  /** A run of offsets names every record in it once and nothing else. */
  lemma {:induction false} EachOffsetOnce(first: nat, n: nat, i: nat)
    ensures Offsets(first, n)[ByteOf(i)] == if first <= i < first + n then 1 else 0
    ensures forall o :: o in Offsets(first, n) ==> exists j :: first <= j < first + n && o == ByteOf(j)
    decreases n
  {
    if n > 0 {
      EachOffsetOnce(first, n - 1, i);
      forall o | o in Offsets(first, n) ensures exists j :: first <= j < first + n && o == ByteOf(j) {
        if o == ByteOf(first + n - 1) {
          assert first <= first + n - 1 < first + n;
        } else {
          assert o in Offsets(first, n - 1);
        }
      }
    }
  }

  lemma PosZero(m: nat)
    ensures Pos(m, 0) == 0
  {
  }

  lemma {:induction false} ReadOneMore(first: nat, m: nat, used: seq<nat>, i: nat)
    requires i < |used|
    ensures OffsetsRead(first, m, used[i := used[i] + 1]) ==
              OffsetsRead(first, m, used) + multiset{ByteOf(first + Pos(m, i) + used[i])}
    decreases i
  {
    hide ByteOf, Offsets, Pos, OffsetsRead;
    var next := used[i := used[i] + 1];
    FirstPart(first, m, used);
    FirstPart(first, m, next);
    if i == 0 {
      assert next[1..] == used[1..];
      OffsetsNext(first, used[0]);
      PosZero(m);
    } else {
      assert next[1..] == used[1..][i - 1 := used[1..][i - 1] + 1];
      ReadOneMore(first + m, m, used[1..], i - 1);
      PosNext(m, i - 1);
      assert first + m + Pos(m, i - 1) + used[i] == first + Pos(m, i) + used[i];
    }
  }

  lemma FirstPart(first: nat, m: nat, used: seq<nat>)
    requires used != []
    ensures OffsetsRead(first, m, used) == Offsets(first, used[0]) + OffsetsRead(first + m, m, used[1..])
  {
  }

  lemma {:induction false} OffsetsJoin(first: nat, a: nat, b: nat)
    ensures Offsets(first, a) + Offsets(first + a, b) == Offsets(first, a + b)
    decreases b
  {
    hide ByteOf, Offsets;
    if b == 0 {
      OffsetsNone(first + a);
    } else {
      OffsetsJoin(first, a, b - 1);
      OffsetsNext(first + a, b - 1);
      OffsetsNext(first, a + b - 1);
    }
  }

  lemma {:induction false} AllRead(first: nat, m: nat, used: seq<nat>)
    requires forall i :: 0 <= i < |used| ==> used[i] == m
    ensures OffsetsRead(first, m, used) == Offsets(first, Pos(m, |used|))
    decreases |used|
  {
    hide Offsets;
    if used == [] {
      OffsetsNone(first);
    } else {
      AllRead(first + m, m, used[1..]);
      OffsetsJoin(first, m, Pos(m, |used| - 1));
      PosNext(m, |used| - 1);
    }
  }

  lemma {:induction false} NoneRead(first: nat, m: nat, used: seq<nat>)
    requires forall i :: 0 <= i < |used| ==> used[i] == 0
    ensures OffsetsRead(first, m, used) == multiset{}
    decreases |used|
  {
    if used != [] { NoneRead(first + m, m, used[1..]); }
  }

  /** Part `i` with `used` of its `m` records read: its state entry, and what of it is not yet written.
      The position never passes the end. */
  ghost predicate StateOk(file: seq<Record>, m: nat, i: nat, st: MergeState, used: nat, rem: seq<Record>) {
    && 0 < used <= m && Pos(m, i) + m <= |file|
    && st.pos == ByteOf(Pos(m, i) + used) <= st.end == ByteOf(Pos(m, i) + m)
    && rem == (if st.active then [st.current] + file[Pos(m, i) + used..Pos(m, i) + m] else [])
    && (!st.active ==> used == m)
  }

  ghost predicate StatesOk(file: seq<Record>, m: nat, states: seq<MergeState>, used: seq<nat>, rem: seq<seq<Record>>) {
    && |states| == |used| == |rem|
    && forall i :: 0 <= i < |states| ==> StateOk(file, m, i, states[i], used[i], rem[i])
  }

  /** The scan for the least current record. */
  method FindMin(states: array<MergeState>, ghost rem: seq<seq<Record>>) returns (minIdx: int)
    requires states.Length == |rem|
    requires forall i :: 0 <= i < |rem| ==>
               (states[i].active <==> rem[i] != []) && (states[i].active ==> states[i].current == rem[i][0])
    ensures minIdx == Best(rem, |rem|)
  {
    minIdx := -1;
    var i := 0;
    while i < states.Length
      invariant i <= states.Length && minIdx == Best(rem, i)
    {
      if states[i].active {
        if minIdx == -1 || Compare(states[i].current, states[minIdx].current) < 0 {
          minIdx := i;
        }
      }
      i := i + 1;
    }
  }

  /** The entry of the part that was just written from: the next record read, or the part switched off. */
  function AfterWrite(file: seq<Record>, st: MergeState): MergeState
    requires st.pos < st.end ==> st.pos >= 8 && (st.pos - 8) % 16 == 0 && (st.pos - 8) / 16 < |file|
  {
    if st.pos < st.end then st.(current := ReadAt(file, st.pos), pos := st.pos + 16) else st.(active := false)
  }

  lemma AfterWriteOk(file: seq<Record>, m: nat, i: nat, st: MergeState, used: nat, rem: seq<Record>)
    requires StateOk(file, m, i, st, used, rem) && rem != []
    ensures st.active && st.current == rem[0]
    ensures st.pos < st.end <==> used < m
    ensures st.pos < st.end ==> st.pos >= 8 && (st.pos - 8) % 16 == 0 && (st.pos - 8) / 16 < |file|
    ensures StateOk(file, m, i, AfterWrite(file, st), if used < m then used + 1 else used, rem[1..])
  {
    hide Pos;
    var at := Pos(m, i) + used;
    if used < m {
      assert rem[1..] == file[at..Pos(m, i) + m] == [file[at]] + file[at + 1..Pos(m, i) + m];
    } else {
      assert rem == [st.current];
    }
  }

  /** The whole merge over a file of numParts parts: the header written, the records written in order, and
      the byte offsets the records were read from. Each offset is read exactly once. */
  method MergeParts(file: seq<Record>, numParts: nat, recordsPerPart: nat)
    returns (header: nat, out: seq<Record>, ghost offsets: multiset<nat>)
    requires recordsPerPart > 0 && |file| == Pos(recordsPerPart, numParts)
    ensures header == |file|
    ensures out == KMerge(PartsOf(file, recordsPerPart, numParts))
    ensures offsets == Offsets(0, |file|)
  {
    hide Offsets, OffsetsRead, KMerge, Best, Block, Pos, StateOk, ByteOf, Flatten;
    ghost var m := recordsPerPart;
    PosIsProduct(m, numParts);
    header := numParts * recordsPerPart;
    var states: array<MergeState>;
    ghost var used: seq<nat>;
    states, used, offsets := StartStates(file, numParts, recordsPerPart);
    ghost var rem := PartsOf(file, m, numParts);
    out := [];
    var minIdx := 0;
    while minIdx != -1
      invariant StatesOk(file, m, states[..], used, rem) && |rem| == numParts
      invariant out + KMerge(rem) == KMerge(PartsOf(file, m, numParts))
      invariant offsets == OffsetsRead(0, m, used)
      invariant minIdx == -1 ==> Best(rem, |rem|) == -1
      decreases |Flatten(rem)|, minIdx
    {
      ScanReady(file, m, states[..], used, rem);
      minIdx := FindMin(states, rem);
      if minIdx != -1 {
        FlattenDrop(rem, minIdx);
        TakeBest(rem, minIdx);
        var st := states[minIdx];
        AfterWriteOk(file, m, minIdx, st, used[minIdx], rem[minIdx]);
        out := out + [st.current];
        ghost var was := states[..];
        if st.pos < st.end {
          offsets := offsets + multiset{st.pos};
          assert st.pos == ByteOf(Pos(m, minIdx) + used[minIdx]) by {
            PosOf(file, m, minIdx, st, used[minIdx], rem[minIdx]);
          }
          ReadOneMore(0, m, used, minIdx);
          used := used[minIdx := used[minIdx] + 1];
        }
        states[minIdx] := AfterWrite(file, st);
        assert states[..] == was[minIdx := AfterWrite(file, st)];
        rem := rem[minIdx := rem[minIdx][1..]];
      }
    }
    NothingLeft(file, m, states[..], used, rem);
  }

  lemma PosOf(file: seq<Record>, m: nat, i: nat, st: MergeState, used: nat, rem: seq<Record>)
    requires StateOk(file, m, i, st, used, rem)
    ensures st.pos == ByteOf(Pos(m, i) + used)
  {
  }

  lemma ScanReady(file: seq<Record>, m: nat, states: seq<MergeState>, used: seq<nat>, rem: seq<seq<Record>>)
    requires StatesOk(file, m, states, used, rem)
    ensures forall i :: 0 <= i < |rem| ==>
              (states[i].active <==> rem[i] != []) && (states[i].active ==> states[i].current == rem[i][0])
  {
    hide Pos, ByteOf;
    forall i | 0 <= i < |rem|
      ensures (states[i].active <==> rem[i] != []) && (states[i].active ==> states[i].current == rem[i][0])
    {
      assert StateOk(file, m, i, states[i], used[i], rem[i]);
    }
  }

  lemma NothingLeft(file: seq<Record>, m: nat, states: seq<MergeState>, used: seq<nat>, rem: seq<seq<Record>>)
    requires StatesOk(file, m, states, used, rem) && Best(rem, |rem|) == -1
    ensures KMerge(rem) == [] && OffsetsRead(0, m, used) == Offsets(0, Pos(m, |used|))
  {
    forall i | 0 <= i < |used| ensures used[i] == m { assert StateOk(file, m, i, states[i], used[i], rem[i]); }
    AllRead(0, m, used);
  }

  /** The setup loop: the first record of every part is read. */
  method StartStates(file: seq<Record>, numParts: nat, recordsPerPart: nat)
    returns (states: array<MergeState>, ghost used: seq<nat>, ghost offsets: multiset<nat>)
    requires recordsPerPart > 0 && |file| == Pos(recordsPerPart, numParts)
    ensures fresh(states)
    ensures StatesOk(file, recordsPerPart, states[..], used, PartsOf(file, recordsPerPart, numParts))
    ensures offsets == OffsetsRead(0, recordsPerPart, used)
  {
    hide Offsets, OffsetsRead, Block, Pos, StateOk;
    ghost var m := recordsPerPart;
    var nothing := MergeState(Record(0.0, 0), 0, 0, false);
    states := new MergeState[numParts](_ => nothing);
    used := seq(numParts, _ => 0);
    NoneRead(0, m, used);
    offsets := multiset{};
    var i := 0;
    while i < numParts
      invariant i <= numParts && states.Length == numParts == |used|
      invariant forall k :: 0 <= k < i ==> StateOk(file, m, k, states[k], used[k], Block(file, m, k))
      invariant forall k :: i <= k < numParts ==> used[k] == 0
      invariant offsets == OffsetsRead(0, m, used)
    {
      var pos := 8 + i * recordsPerPart * 16;
      var end := pos + recordsPerPart * 16;
      FirstRead(file, m, i, numParts, pos, end);
      ReadOneMore(0, m, used, i);
      offsets := offsets + multiset{pos};
      used := used[i := 1];
      states[i] := MergeState(ReadAt(file, pos), pos + 16, end, true);
      i := i + 1;
    }
  }

  lemma FirstRead(file: seq<Record>, m: nat, i: nat, n: nat, pos: nat, end: nat)
    requires m > 0 && i < n && |file| == Pos(m, n)
    requires pos == 8 + i * m * 16 && end == pos + m * 16
    ensures pos == ByteOf(Pos(m, i)) && (pos - 8) % 16 == 0 && (pos - 8) / 16 < |file|
    ensures StateOk(file, m, i, MergeState(ReadAt(file, pos), pos + 16, end, true), 1, Block(file, m, i))
  {
    PosIsProduct(m, i);
    BlockFits(file, m, n, i);
    PosNext(m, i);
    hide Pos, Block;
    var at := Pos(m, i);
    assert file[at..at + m] == [file[at]] + file[at + 1..at + m];
  }
}
