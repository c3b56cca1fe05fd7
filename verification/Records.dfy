/** Index records of the file being sorted, the order the program puts them in,
    and what it means for a sequence of records to be sorted. */
module Records {

  /** One index entry: a time mark (a double in the program, an exact number here) and a record number. */
  datatype Record = Record(timeMark: real, recno: nat)

  /** The comparison callback: -1, 1 or 0, looking at the time mark only. */
  function Compare(a: Record, b: Record): (c: int) {
    if a.timeMark < b.timeMark then -1
    else if a.timeMark > b.timeMark then 1
    else 0
  }

  predicate Before(a: Record, b: Record) {
    a.timeMark <= b.timeMark
  }

  predicate Sorted(s: seq<Record>) {
    forall i, j :: 0 <= i < j < |s| ==> Before(s[i], s[j])
  }

  /** Every record of `s` comes before every record of `t`. */
  predicate AllBefore(s: seq<Record>, t: seq<Record>) {
    forall x, y :: x in s && y in t ==> Before(x, y)
  }

  predicate Permutation(s: seq<Record>, t: seq<Record>) {
    multiset(s) == multiset(t)
  }

  /** The records of `s` that carry time mark `k`, in the order they appear. */
  function WithMark(s: seq<Record>, k: real): seq<Record> {
    if s == [] then [] else (if s[0].timeMark == k then [s[0]] else []) + WithMark(s[1..], k)
  }

  lemma PermutationMembers(s: seq<Record>, t: seq<Record>)
    requires Permutation(s, t)
    ensures |s| == |t|
    ensures forall x :: x in s <==> x in t
  {
    assert |multiset(s)| == |s| && |multiset(t)| == |t|;
    forall x ensures x in s <==> x in t {
      assert x in s <==> x in multiset(s);
      assert x in t <==> x in multiset(t);
    }
  }

  lemma SortedCons(x: Record, s: seq<Record>)
    ensures Sorted([x] + s) <==> Sorted(s) && AllBefore([x], s)
  {
    var xs := [x] + s;
    if Sorted(xs) {
      forall i, j | 0 <= i < j < |s| ensures Before(s[i], s[j]) {
        assert s[i] == xs[i + 1] && s[j] == xs[j + 1];
      }
      forall y | y in s ensures Before(x, y) {
        var j :| 0 <= j < |s| && s[j] == y;
        assert xs[0] == x && xs[j + 1] == y;
      }
    }
    if Sorted(s) && AllBefore([x], s) {
      assert x in [x];
    }
  }

  lemma SortedConcat(s: seq<Record>, t: seq<Record>)
    ensures Sorted(s + t) <==> Sorted(s) && Sorted(t) && AllBefore(s, t)
  {
    var st := s + t;
    if Sorted(st) {
      assert forall i :: 0 <= i < |s| ==> s[i] == st[i];
      assert forall j :: 0 <= j < |t| ==> t[j] == st[|s| + j];
      forall x, y | x in s && y in t ensures Before(x, y) {
        var i :| 0 <= i < |s| && s[i] == x;
        var j :| 0 <= j < |t| && t[j] == y;
        assert Before(st[i], st[|s| + j]);
      }
    }
    if Sorted(s) && Sorted(t) && AllBefore(s, t) {
      forall i, j | 0 <= i < j < |st| ensures Before(st[i], st[j]) {
        if i < |s| <= j {
          assert st[i] in s && st[j] in t;
        }
      }
    }
  }

  lemma WithMarkCons(x: Record, s: seq<Record>, k: real)
    ensures WithMark([x] + s, k) == (if x.timeMark == k then [x] else []) + WithMark(s, k)
  {
    assert ([x] + s)[1..] == s;
  }

  lemma {:induction false} WithMarkConcat(s: seq<Record>, t: seq<Record>, k: real)
    ensures WithMark(s + t, k) == WithMark(s, k) + WithMark(t, k)
  {
    if s == [] {
      assert s + t == t;
    } else {
      WithMarkConcat(s[1..], t, k);
      assert (s + t)[0] == s[0] && (s + t)[1..] == s[1..] + t;
      var head := if s[0].timeMark == k then [s[0]] else [];
      assert WithMark(s + t, k) == head + WithMark(s[1..] + t, k);
      assert WithMark(s, k) == head + WithMark(s[1..], k);
    }
  }

  lemma {:induction false} WithMarkEmpty(s: seq<Record>, k: real)
    requires forall x :: x in s ==> x.timeMark != k
    ensures WithMark(s, k) == []
  {
    if s != [] {
      WithMarkEmpty(s[1..], k);
    }
  }

  lemma {:induction false} WithMarkMembers(s: seq<Record>, k: real)
    ensures forall x :: x in WithMark(s, k) <==> x in s && x.timeMark == k
  {
    if s != [] {
      WithMarkMembers(s[1..], k);
      assert s == [s[0]] + s[1..];
    }
  }

  /** Sortedness and the order among equal time marks pin a sequence down completely,
      so "sorted and stable" is a full specification of a sort's result. */
  lemma {:induction false} SortedStableUnique(s: seq<Record>, t: seq<Record>)
    requires Sorted(s) && Sorted(t)
    requires forall k :: WithMark(s, k) == WithMark(t, k)
    ensures s == t
  {
    if s == [] || t == [] {
      assert s != [] ==> WithMark(s, s[0].timeMark) != [];
      assert t != [] ==> WithMark(t, t[0].timeMark) != [];
    } else {
      var ks, kt := s[0].timeMark, t[0].timeMark;
      WithMarkMembers(s, ks); WithMarkMembers(t, ks);
      WithMarkMembers(s, kt); WithMarkMembers(t, kt);
      assert s[0] in s && t[0] in t;
      assert s[0] in t && t[0] in s;
      assert ks == kt;
      assert WithMark(s, ks)[0] == s[0] && WithMark(t, ks)[0] == t[0];
      forall k ensures WithMark(s[1..], k) == WithMark(t[1..], k) {
        assert WithMark(s, k) == (if ks == k then [s[0]] else []) + WithMark(s[1..], k);
        assert WithMark(t, k) == (if kt == k then [t[0]] else []) + WithMark(t[1..], k);
        assert WithMark(s[1..], k) == WithMark(s, k)[(if ks == k then 1 else 0)..];
        assert WithMark(t[1..], k) == WithMark(t, k)[(if kt == k then 1 else 0)..];
      }
      SortedStableUnique(s[1..], t[1..]);
      assert s == [s[0]] + s[1..] && t == [t[0]] + t[1..];
    }
  }
}
