/** Python list idioms over Dafny sequences: negative-index tails, clamped slices, `list.remove`. */
module Seqs {

  function Min(a: int, b: int): int { if a <= b then a else b }
  function Max(a: int, b: int): int { if a >= b then a else b }

  /** Python's `s[start:]` for any integer `start` (negative counts from the end, out of range clamps). */
  function PyFrom<T>(s: seq<T>, start: int): (r: seq<T>)
    ensures |r| <= |s|
    ensures r == s[|s| - |r|..]
  {
    if start < 0 then
      (if -start >= |s| then s else s[|s| + start..])
    else if start >= |s| then []
    else s[start..]
  }

  /** `s[-n:]` keeps exactly the last `min(n, |s|)` elements whenever `n` is positive. */
  lemma PyFromNegativeKeepsLast<T>(s: seq<T>, n: int)
    requires n > 0
    ensures |PyFrom(s, -n)| == Min(n, |s|)
    ensures PyFrom(s, -n) == s[|s| - Min(n, |s|)..]
  {
  }

  /** `s[-0:]` is `s[0:]`: a cap of zero keeps everything rather than nothing. */
  lemma PyFromZeroKeepsAll<T>(s: seq<T>)
    ensures PyFrom(s, -0) == s
  {
  }

  /** Python's `s[lo:hi]` for non-negative bounds: both ends clamp to the length, crossed bounds give []. */
  function PySlice<T>(s: seq<T>, lo: nat, hi: nat): (r: seq<T>)
    ensures |r| <= |s|
    ensures lo < hi && lo < |s| ==> r == s[lo..Min(hi, |s|)]
    ensures hi <= lo || |s| <= lo ==> r == []
  {
    var h := Min(hi, |s|);
    if lo >= h then [] else s[lo..h]
  }

  /** A slice starting inside the sequence is the window of its own length at `lo`. */
  lemma PySliceWindow<T>(s: seq<T>, lo: nat, hi: nat)
    requires lo <= |s|
    ensures var r := PySlice(s, lo, hi);
      && |r| == Max(0, Min(hi, |s|) - lo)
      && lo + |r| <= |s| && r == s[lo..lo + |r|]
  {
  }

  /** Index of the first occurrence of `x`, as Python's `list.index`. */
  function IndexOf<T(==)>(s: seq<T>, x: T): (i: nat)
    requires x in s
    ensures i < |s| && s[i] == x
    ensures forall j :: 0 <= j < i ==> s[j] != x
  {
    if s[0] == x then 0 else 1 + IndexOf(s[1..], x)
  }

  /** Python's `list.remove(x)` guarded by `if x in s`: drops the first occurrence only. */
  function RemoveFirst<T(==)>(s: seq<T>, x: T): (r: seq<T>)
    ensures x !in s ==> r == s
    ensures x in s ==> r == s[..IndexOf(s, x)] + s[IndexOf(s, x) + 1..]
    ensures x in s ==> |r| == |s| - 1
  {
    if x in s then s[..IndexOf(s, x)] + s[IndexOf(s, x) + 1..] else s
  }

  /** `if q and q[0] == x: q.pop(0)`: the defensive head removal used by every playback path. */
  function PopIfHead<T(==)>(q: seq<T>, x: T): (r: seq<T>)
    ensures r == q || q == [x] + r
    ensures |q| > 0 && q[0] == x <==> |r| == |q| - 1
  {
    if |q| > 0 && q[0] == x then q[1..] else q
  }

  /** Appending then evicting the oldest entry when over `cap`: the bounded history of `add_to_played`. */
  function RecordBounded<T>(p: seq<T>, x: T, cap: int): (r: seq<T>)
    ensures |r| == (if |p| + 1 > cap then |p| else |p| + 1)
    ensures r == (p + [x])[|p| + 1 - |r|..]
    ensures |r| > 0 ==> r[|r| - 1] == x
  {
    var appended := p + [x];
    if |appended| > cap then appended[1..] else appended
  }

  /** With a cap of at least one, the new entry is last and a history within the cap stays within it. */
  lemma RecordBoundedKeepsBound<T>(p: seq<T>, x: T, cap: int)
    requires cap >= 1 && |p| <= cap
    ensures |RecordBounded(p, x, cap)| <= cap
    ensures RecordBounded(p, x, cap)[|RecordBounded(p, x, cap)| - 1] == x
    ensures |p| == cap ==> RecordBounded(p, x, cap) == p[1..] + [x]
    ensures |p| < cap ==> RecordBounded(p, x, cap) == p + [x]
  {
  }

  /**
   * `for x in reversed(items): q.insert(0, x)`: inserting the items one by one at the front,
   * last item first, leaves them at the head in their original order.
   */
  function InsertEachAtFront<T>(q: seq<T>, items: seq<T>): (r: seq<T>)
    ensures r == items + q
    decreases |items|
  {
    if |items| == 0 then q
    else
      var last := items[|items| - 1];
      var init := items[..|items| - 1];
      assert items == init + [last];
      InsertEachAtFront([last] + q, init)
  }
}
