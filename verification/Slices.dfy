/** Overwriting a range of a buffer, as sequences. */
module Slices {

  /** `s` with the range starting at `at` overwritten by `part`. */
  function Overwrite<T>(s: seq<T>, at: nat, part: seq<T>): (r: seq<T>)
    requires at + |part| <= |s|
    ensures |r| == |s|
  {
    s[..at] + part + s[at + |part|..]
  }

  lemma OverwriteAt<T>(s: seq<T>, at: nat, part: seq<T>)
    requires at + |part| <= |s|
    ensures forall k :: 0 <= k < at ==> Overwrite(s, at, part)[k] == s[k]
    ensures forall k :: at <= k < at + |part| ==> Overwrite(s, at, part)[k] == part[k - at]
    ensures forall k :: at + |part| <= k < |s| ==> Overwrite(s, at, part)[k] == s[k]
  {
  }

  /** A sequence that agrees with `part` inside the range and with `s` outside it is `s` overwritten. */
  lemma OverwriteUnique<T>(s: seq<T>, r: seq<T>, at: nat, part: seq<T>)
    requires at + |part| <= |s| == |r|
    requires forall q :: at <= q < at + |part| ==> r[q] == part[q - at]
    requires forall q :: 0 <= q < at || at + |part| <= q < |s| ==> r[q] == s[q]
    ensures r == Overwrite(s, at, part)
  {
    OverwriteAt(s, at, part);
    forall k | 0 <= k < |s| ensures r[k] == Overwrite(s, at, part)[k] {
      assert at <= k < at + |part| ==> r[k] == part[k - at];
    }
  }

  lemma OverwriteInside<T>(s: seq<T>, at: nat, part: seq<T>)
    requires at + |part| <= |s|
    ensures Overwrite(s, at, part)[at..at + |part|] == part
  {
  }

  /** A range that does not meet the overwritten one keeps its contents. */
  lemma OverwriteOutside<T>(s: seq<T>, at: nat, part: seq<T>, lo: nat, hi: nat)
    requires at + |part| <= |s| && lo <= hi <= |s|
    requires hi <= at || at + |part| <= lo
    ensures Overwrite(s, at, part)[lo..hi] == s[lo..hi]
  {
    OverwriteAt(s, at, part);
  }

  lemma SliceOfSlice<T>(s: seq<T>, lo: nat, hi: nat, a: nat, b: nat)
    requires lo <= hi <= |s| && a <= b <= hi - lo
    ensures s[lo..hi][a..b] == s[lo + a..lo + b]
  {
    var w := s[lo..hi];
    assert forall k :: 0 <= k < b - a ==> w[a..b][k] == w[a + k] == s[lo + a + k];
  }

  /** Replacing a range by a rearrangement of itself rearranges the whole. */
  lemma OverwritePermutes<T>(s: seq<T>, at: nat, part: seq<T>)
    requires at + |part| <= |s|
    requires multiset(part) == multiset(s[at..at + |part|])
    ensures multiset(Overwrite(s, at, part)) == multiset(s)
  {
    assert s == s[..at] + s[at..at + |part|] + s[at + |part|..];
  }
}
