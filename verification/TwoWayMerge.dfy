/** The two-way merge: a specification function, what it guarantees, and the three-loop array code. */
module TwoWayMerge {
  import opened Records
  import opened Slices

  /** The order in which the merge emits the records of `a` and `b`: `a` wins ties. */
  function MergeSeq(a: seq<Record>, b: seq<Record>): (r: seq<Record>)
    ensures |r| == |a| + |b|
  {
    if a == [] then b
    else if b == [] then a
    else if Compare(a[0], b[0]) <= 0 then [a[0]] + MergeSeq(a[1..], b)
    else [b[0]] + MergeSeq(a, b[1..])
  }

  /** Nothing is lost or invented, whatever the inputs. */
  lemma {:induction false} MergePermutation(a: seq<Record>, b: seq<Record>)
    ensures Permutation(MergeSeq(a, b), a + b)
  {
    if a == [] {
      assert a + b == b;
    } else if b == [] {
      assert a + b == a;
    } else if Compare(a[0], b[0]) <= 0 {
      MergePermutation(a[1..], b);
      assert a + b == [a[0]] + (a[1..] + b);
    } else {
      MergePermutation(a, b[1..]);
      assert multiset(a + b) == multiset(a) + multiset([b[0]] + b[1..]) by { assert b == [b[0]] + b[1..]; }
      assert multiset(a + b[1..]) == multiset(a) + multiset(b[1..]);
    }
  }

  /** Exactly when the merge of two sequences is sorted: when both of them are. */
  lemma {:induction false} MergeSortedIff(a: seq<Record>, b: seq<Record>)
    ensures Sorted(MergeSeq(a, b)) <==> Sorted(a) && Sorted(b)
  {
    if a != [] && b != [] {
      if Compare(a[0], b[0]) <= 0 {
        MergeSortedIff(a[1..], b);
        MergePermutation(a[1..], b);
        TakeLeft(a, b);
        hide MergeSeq, Sorted;
        PrependLeast(a[0], a[1..], b, MergeSeq(a[1..], b));
      } else {
        MergeSortedIff(a, b[1..]);
        MergePermutation(a, b[1..]);
        TakeRight(a, b);
        hide MergeSeq, Sorted;
        PrependLeast(b[0], b[1..], a, MergeSeq(a, b[1..]));
      }
    }
  }

  /** Putting a least element in front of a merge `m` of `rest` and `other` is sorted
      exactly when putting it in front of `rest` is, and `other` is sorted. */
  lemma PrependLeast(x: Record, rest: seq<Record>, other: seq<Record>, m: seq<Record>)
    requires multiset(m) == multiset(rest) + multiset(other)
    requires Sorted(m) <==> Sorted(rest) && Sorted(other)
    requires other != [] && Before(x, other[0])
    ensures Sorted([x] + m) <==> Sorted([x] + rest) && Sorted(other)
  {
    PermutationMembers(m, rest + other);
    SortedCons(x, m);
    SortedCons(x, rest);
    assert x in [x];
    if Sorted([x] + rest) && Sorted(other) {
      forall y | y in m ensures Before(x, y) {
        assert y in rest + other;
        if y in other { HeadIsLeast(other, y); }
      }
    }
    if Sorted([x] + m) {
      forall y | y in rest ensures Before(x, y) { assert y in rest + other; }
    }
  }

  lemma HeadIsLeast(s: seq<Record>, y: Record)
    requires Sorted(s) && y in s
    ensures Before(s[0], y)
  {
    var j :| 0 <= j < |s| && s[j] == y;
  }

  /** Stability: among equal time marks the left range stays ahead of the right range,
      and each range keeps its own order. */
  lemma {:induction false} MergeStable(a: seq<Record>, b: seq<Record>, k: real)
    requires Sorted(a)
    ensures WithMark(MergeSeq(a, b), k) == WithMark(a, k) + WithMark(b, k)
  {
    if a == [] || b == [] {
      assert WithMark([], k) == [];
    } else if Compare(a[0], b[0]) <= 0 {
      MergeStable(a[1..], b, k);
      TakeLeft(a, b);
      hide MergeSeq, WithMark, Sorted;
      WithMarkCons(a[0], a[1..], k);
      WithMarkCons(a[0], MergeSeq(a[1..], b), k);
    } else {
      MergeStable(a, b[1..], k);
      TakeRight(a, b);
      NoneEqualLater(a, b[0], k);
      hide MergeSeq, WithMark, Sorted;
      WithMarkCons(b[0], b[1..], k);
      WithMarkCons(b[0], MergeSeq(a, b[1..]), k);
    }
  }

  lemma TakeLeft(a: seq<Record>, b: seq<Record>)
    requires a != [] && b != [] && Compare(a[0], b[0]) <= 0
    ensures a == [a[0]] + a[1..] && MergeSeq(a, b) == [a[0]] + MergeSeq(a[1..], b)
  {
  }

  lemma TakeRight(a: seq<Record>, b: seq<Record>)
    requires a != [] && b != [] && Compare(a[0], b[0]) > 0
    ensures b == [b[0]] + b[1..] && MergeSeq(a, b) == [b[0]] + MergeSeq(a, b[1..])
  {
  }

  /** A sorted range whose head comes strictly after `y` holds no record with y's time mark. */
  lemma NoneEqualLater(a: seq<Record>, y: Record, k: real)
    requires Sorted(a) && a != [] && y.timeMark < a[0].timeMark
    ensures y.timeMark == k ==> WithMark(a, k) == []
  {
    if y.timeMark == k {
      forall x | x in a ensures x.timeMark != k { HeadIsLeast(a, x); }
      WithMarkEmpty(a, k);
    }
  }

  /** The merge has emitted `i` records of `a` and `j` of `b`, and the rest of the result
      is the merge of what remains. */
  ghost predicate Front(a: seq<Record>, b: seq<Record>, i: nat, j: nat) {
    i <= |a| && j <= |b| && MergeSeq(a[i..], b[j..]) == MergeSeq(a, b)[i + j..]
  }

  /** Which range the next record comes from: the first loop's test, or what the two copy loops do
      once the other range is used up. */
  predicate TakesLeft(a: seq<Record>, b: seq<Record>, i: nat, j: nat)
    requires i <= |a| && j <= |b|
  {
    i < |a| && (j < |b| ==> Compare(a[i], b[j]) <= 0)
  }

  lemma FrontStart(a: seq<Record>, b: seq<Record>)
    ensures Front(a, b, 0, 0)
  {
    assert a[0..] == a && b[0..] == b;
  }

  lemma FrontLeft(a: seq<Record>, b: seq<Record>, i: nat, j: nat)
    requires Front(a, b, i, j) && TakesLeft(a, b, i, j)
    ensures MergeSeq(a, b)[i + j] == a[i] && Front(a, b, i + 1, j)
  {
    var m, rest := MergeSeq(a, b), MergeSeq(a[i + 1..], b[j..]);
    assert a[i..] == [a[i]] + a[i + 1..];
    assert m[i + j..] == [a[i]] + rest by {
      assert a[i..][0] == a[i] && a[i..][1..] == a[i + 1..];
      assert j < |b| ==> b[j..][0] == b[j];
    }
    assert m[i + j..][1..] == m[i + 1 + j..];
  }

  lemma FrontRight(a: seq<Record>, b: seq<Record>, i: nat, j: nat)
    requires Front(a, b, i, j) && j < |b| && !TakesLeft(a, b, i, j)
    ensures MergeSeq(a, b)[i + j] == b[j] && Front(a, b, i, j + 1)
  {
    var m, rest := MergeSeq(a, b), MergeSeq(a[i..], b[j + 1..]);
    assert b[j..] == [b[j]] + b[j + 1..];
    assert m[i + j..] == [b[j]] + rest by {
      assert b[j..][0] == b[j] && b[j..][1..] == b[j + 1..];
      assert i < |a| ==> a[i..][0] == a[i];
    }
    assert m[i + j..][1..] == m[i + j + 1..];
  }

  /** The merge of `sa` and `sb` into slots `d` and up of `was` is at `i`, `j`: what it has emitted is in `now`. */
  ghost predicate MergeAt(was: seq<Record>, now: seq<Record>, d: nat, sa: seq<Record>, sb: seq<Record>, i: nat,
                          j: nat) {
    && d + |sa| + |sb| <= |was| && Front(sa, sb, i, j)
    && now == Overwrite(was, d, MergeSeq(sa, sb)[..i + j])
  }

  lemma MergeStart(was: seq<Record>, d: nat, sa: seq<Record>, sb: seq<Record>)
    requires d + |sa| + |sb| <= |was|
    ensures MergeAt(was, was, d, sa, sb, 0, 0)
  {
    FrontStart(sa, sb);
  }

  /** Emitting the next record of the range whose turn it is. */
  lemma EmitNext(was: seq<Record>, now: seq<Record>, d: nat, sa: seq<Record>, sb: seq<Record>, i: nat, j: nat)
    requires MergeAt(was, now, d, sa, sb, i, j) && i <= |sa| && j <= |sb| && i + j < |sa| + |sb|
    ensures |now| == |was|
    ensures TakesLeft(sa, sb, i, j) ==> MergeAt(was, now[d + i + j := sa[i]], d, sa, sb, i + 1, j)
    ensures !TakesLeft(sa, sb, i, j) ==> j < |sb| && MergeAt(was, now[d + i + j := sb[j]], d, sa, sb, i, j + 1)
  {
    hide Front;
    var m := MergeSeq(sa, sb);
    if TakesLeft(sa, sb, i, j) { FrontLeft(sa, sb, i, j); } else { FrontRight(sa, sb, i, j); }
    assert m[..i + j + 1] == m[..i + j] + [m[i + j]];
  }

  lemma MergeEnd(was: seq<Record>, now: seq<Record>, d: nat, sa: seq<Record>, sb: seq<Record>)
    requires MergeAt(was, now, d, sa, sb, |sa|, |sb|)
    ensures now == Overwrite(was, d, MergeSeq(sa, sb))
  {
    var m := MergeSeq(sa, sb);
    assert m[..|m|] == m;
  }

  /** The array code. Each pointer argument of the program is an array and an offset into it;
      exactly aLen + bLen slots of `dest` are written and nothing else. */
  method Merge(dest: array<Record>, d: nat, a: array<Record>, a0: nat, aLen: nat, b: array<Record>, b0: nat, bLen: nat)
    requires dest != a && dest != b
    requires a0 + aLen <= a.Length && b0 + bLen <= b.Length && d + aLen + bLen <= dest.Length
    modifies dest
    ensures dest[..] == Overwrite(old(dest[..]), d, MergeSeq(a[a0..a0 + aLen], b[b0..b0 + bLen]))
  {
    hide Front, MergeSeq, Overwrite, MergeAt;
    ghost var sa, sb, was := a[a0..a0 + aLen], b[b0..b0 + bLen], dest[..];
    var i, j, k := 0, 0, 0;
    MergeStart(was, d, sa, sb);
    while i < aLen && j < bLen
      invariant i <= aLen && j <= bLen && k == i + j && MergeAt(was, dest[..], d, sa, sb, i, j)
    {
      EmitNext(was, dest[..], d, sa, sb, i, j);
      assert TakesLeft(sa, sb, i, j) <==> Compare(a[a0 + i], b[b0 + j]) <= 0;
      ghost var now := dest[..];
      if Compare(a[a0 + i], b[b0 + j]) <= 0 {
        dest[d + k] := a[a0 + i];
        assert dest[..] == now[d + k := sa[i]];
        k, i := k + 1, i + 1;
      } else {
        dest[d + k] := b[b0 + j];
        assert dest[..] == now[d + k := sb[j]];
        k, j := k + 1, j + 1;
      }
    }
    while i < aLen
      invariant i <= aLen && j <= bLen && k == i + j && MergeAt(was, dest[..], d, sa, sb, i, j)
      invariant (i < aLen ==> j == bLen)
    {
      EmitNext(was, dest[..], d, sa, sb, i, j);
      ghost var now := dest[..];
      dest[d + k] := a[a0 + i];
      assert dest[..] == now[d + k := sa[i]];
      k, i := k + 1, i + 1;
    }
    while j < bLen
      invariant i == aLen && j <= bLen && k == i + j && MergeAt(was, dest[..], d, sa, sb, i, j)
    {
      EmitNext(was, dest[..], d, sa, sb, i, j);
      ghost var now := dest[..];
      dest[d + k] := b[b0 + j];
      assert dest[..] == now[d + k := sb[j]];
      k, j := k + 1, j + 1;
    }
    MergeEnd(was, dest[..], d, sa, sb);
  }
}
