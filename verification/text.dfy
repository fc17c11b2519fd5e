/**
 * Python's `str` operations the dispatcher and the configuration rely on: `in`, `startswith`,
 * `isspace`, `strip()`, `split(sep)` and `sep.join`.
 */
module Text {

  predicate StartsWith(s: string, p: string) {
    |p| <= |s| && s[..|p|] == p
  }

  /** Python's `sub in s`: `sub` occurs at some offset (the empty string occurs everywhere). */
  predicate Contains(s: string, sub: string) {
    exists i :: 0 <= i <= |s| && StartsWith(s[i..], sub)
  }

  /** Containment is transitive: whatever contains `mid` contains every substring of `mid`. */
  lemma ContainsTransitive(s: string, mid: string, sub: string)
    requires Contains(s, mid) && Contains(mid, sub)
    ensures Contains(s, sub)
  {
    var i :| 0 <= i <= |s| && StartsWith(s[i..], mid);
    var j :| 0 <= j <= |mid| && StartsWith(mid[j..], sub);
    assert forall m :: 0 <= m < |mid| ==> s[i + m] == mid[m] by {
      forall m | 0 <= m < |mid|
        ensures s[i + m] == mid[m]
      {
        assert s[i..][..|mid|][m] == mid[m];
      }
    }
    forall k | 0 <= k < |sub|
      ensures s[i + j..][k] == sub[k]
    {
      assert mid[j..][..|sub|][k] == sub[k];
      assert s[i + (j + k)] == mid[j + k];
    }
    assert s[i + j..][..|sub|] == sub;
  }

  /** Characters Python's `str.isspace` accepts (the Unicode White_Space set plus the separators 0x1C-0x1F). */
  predicate IsSpace(c: char) {
    || c == ' ' || c == '\t' || c == '\n' || c == '\r'
    || c == '\U{B}' || c == '\U{C}'
    || ('\U{1C}' <= c <= '\U{1F}')
    || c == '\U{85}' || c == '\U{A0}' || c == '\U{1680}'
    || ('\U{2000}' <= c <= '\U{200A}')
    || c == '\U{2028}' || c == '\U{2029}' || c == '\U{202F}' || c == '\U{205F}' || c == '\U{3000}'
  }


  /** The first index at or after `i` that holds no whitespace, or `|s|`: where `lstrip` cuts. */
  function SkipSpace(s: string, i: nat): (j: nat)
    requires i <= |s|
    ensures i <= j <= |s|
    ensures forall k :: i <= k < j ==> IsSpace(s[k])
    ensures j < |s| ==> !IsSpace(s[j])
    decreases |s| - i
  {
    if i < |s| && IsSpace(s[i]) then SkipSpace(s, i + 1) else i
  }

  /** The index just past the last character before `j` that is not whitespace, or 0: where `rstrip` cuts. */
  function SkipSpaceBack(s: string, j: nat): (i: nat)
    requires j <= |s|
    ensures i <= j
    ensures forall k :: i <= k < j ==> IsSpace(s[k])
    ensures i > 0 ==> !IsSpace(s[i - 1])
    decreases j
  {
    if j > 0 && IsSpace(s[j - 1]) then SkipSpaceBack(s, j - 1) else j
  }

  /** Python's `s.lstrip()`: a suffix of `s` after only whitespace, not itself starting with whitespace. */
  function TrimStart(s: string): (r: string)
    ensures |r| <= |s| && r == s[|s| - |r|..]
    ensures forall k :: 0 <= k < |s| - |r| ==> IsSpace(s[k])
    ensures |r| > 0 ==> !IsSpace(r[0])
  {
    s[SkipSpace(s, 0)..]
  }

  /** Python's `s.rstrip()`: a prefix of `s` before only whitespace, not itself ending with whitespace. */
  function TrimEnd(s: string): (r: string)
    ensures |r| <= |s| && r == s[..|r|]
    ensures forall k :: |r| <= k < |s| ==> IsSpace(s[k])
    ensures |r| > 0 ==> !IsSpace(r[|r| - 1])
  {
    s[..SkipSpaceBack(s, |s|)]
  }

  /** `r` sits at offset `i` of `s` with only whitespace before and after it. */
  predicate StripsAt(s: string, r: string, i: int) {
    && 0 <= i <= |s| - |r| && r == s[i..i + |r|]
    && (forall k :: 0 <= k < i ==> IsSpace(s[k]))
    && (forall k :: i + |r| <= k < |s| ==> IsSpace(s[k]))
  }

  /** Python's `s.strip()`: `s` is whitespace, then the result, then whitespace, and the result has none at either end. */
  function Strip(s: string): (r: string)
    ensures |r| > 0 ==> !IsSpace(r[0]) && !IsSpace(r[|r| - 1])
    ensures exists i :: StripsAt(s, r, i)
  {
    var left := TrimStart(s);
    var r := TrimEnd(left);
    SitsInside(s, left, r);
    r
  }

  /** A whitespace-free prefix `r` of a whitespace-free suffix `left` of `s` sits inside `s`. */
  lemma SitsInside(s: string, left: string, r: string)
    requires |left| <= |s| && left == s[|s| - |left|..] && forall k :: 0 <= k < |s| - |left| ==> IsSpace(s[k])
    requires |r| <= |left| && r == left[..|r|] && forall k :: |r| <= k < |left| ==> IsSpace(left[k])
    requires |r| > 0 ==> !IsSpace(left[0]) && !IsSpace(r[|r| - 1])
    ensures StripsAt(s, r, |s| - |left|)
    ensures |r| > 0 ==> !IsSpace(r[0]) && !IsSpace(r[|r| - 1])
  {
    var i := |s| - |left|;
    assert s[i..i + |r|] == left[..|r|];
    forall k | i + |r| <= k < |s|
      ensures IsSpace(s[k])
    {
      assert s[k] == left[k - i];
    }
    if |r| > 0 {
      assert r[0] == left[0];
    }
  }

  /** Stripping twice is stripping once. */
  lemma StripIdempotent(s: string)
    ensures Strip(Strip(s)) == Strip(s)
  {
    var r := Strip(s);
    assert SkipSpace(r, 0) == 0;
    assert TrimStart(r) == r;
    assert SkipSpaceBack(r, |r|) == |r|;
    assert TrimEnd(r) == r;
  }

  /** A string without whitespace strips to itself. */
  lemma StripNoSpace(s: string)
    requires forall k :: 0 <= k < |s| ==> !IsSpace(s[k])
    ensures Strip(s) == s
  {
    assert SkipSpace(s, 0) == 0;
    assert TrimStart(s) == s;
    assert SkipSpaceBack(s, |s|) == |s|;
  }

  /** Python's `s.split(sep)` on a one-character separator: the pieces between separators, in order. */
  function Split(s: string, sep: char): (parts: seq<string>)
    ensures |parts| > 0
    ensures forall i :: 0 <= i < |parts| ==> sep !in parts[i]
    decreases |s|
  {
    if |s| == 0 then [""]
    else
      var rest := Split(s[1..], sep);
      if s[0] == sep then [""] + rest else [[s[0]] + rest[0]] + rest[1..]
  }

  /** Python's `sep.join(parts)`. */
  function Join(parts: seq<string>, sep: char): string
  {
    if |parts| == 0 then "" else if |parts| == 1 then parts[0] else parts[0] + [sep] + Join(parts[1..], sep)
  }

  /** Joining the pieces of a split with the same separator gives the string back. */
  lemma {:induction false} SplitJoin(s: string, sep: char)
    ensures Join(Split(s, sep), sep) == s
    decreases |s|
  {
    if |s| > 0 {
      var rest := Split(s[1..], sep);
      SplitJoin(s[1..], sep);
      if s[0] == sep {
        assert Join([""] + rest, sep) == "" + [sep] + Join(rest, sep);
      } else if |rest| == 1 {
        assert Split(s, sep) == [[s[0]] + rest[0]];
      } else {
        assert Join(rest, sep) == rest[0] + [sep] + Join(rest[1..], sep);
        var parts := Split(s, sep);
        assert parts == [[s[0]] + rest[0]] + rest[1..];
        assert parts[1..] == rest[1..];
        assert Join(parts, sep) == [s[0]] + rest[0] + [sep] + Join(rest[1..], sep);
        assert s == [s[0]] + s[1..];
      }
    }
  }

  /** Splitting pieces free of the separator after joining them gives the pieces back. */
  lemma {:induction false} JoinSplit(parts: seq<string>, sep: char)
    requires |parts| > 0
    requires forall i :: 0 <= i < |parts| ==> sep !in parts[i]
    ensures Split(Join(parts, sep), sep) == parts
    decreases |parts|
  {
    if |parts| == 1 {
      SplitPiece(parts[0], "", sep);
      assert Split("", sep) == [""];
      assert parts[0] + "" == parts[0];
      assert Join(parts, sep) == parts[0];
      assert parts == [parts[0]];
    } else {
      JoinSplit(parts[1..], sep);
      var tail := [sep] + Join(parts[1..], sep);
      assert tail[1..] == Join(parts[1..], sep);
      assert tail[0] == sep;
      assert Split(tail, sep) == [""] + Split(tail[1..], sep);
      assert Split(tail, sep) == [""] + parts[1..];
      SplitPiece(parts[0], tail, sep);
      assert Join(parts, sep) == parts[0] + tail;
      assert parts[0] + "" == parts[0];
      assert parts == [parts[0]] + parts[1..];
    }
  }

  /** A leading piece without the separator extends the first piece of the split of what follows. */
  lemma {:induction false} SplitPiece(a: string, t: string, sep: char)
    requires sep !in a
    ensures Split(a + t, sep) == [a + Split(t, sep)[0]] + Split(t, sep)[1..]
    decreases |a|
  {
    if |a| == 0 {
      var st := Split(t, sep);
      assert a + t == t && a + st[0] == st[0];
      assert st == [st[0]] + st[1..];
    } else {
      SplitPiece(a[1..], t, sep);
      var st := Split(t, sep);
      var rest := Split((a + t)[1..], sep);
      assert (a + t)[1..] == a[1..] + t;
      assert rest == [a[1..] + st[0]] + st[1..];
      assert (a + t)[0] == a[0] && a[0] != sep;
      assert Split(a + t, sep) == [[a[0]] + rest[0]] + rest[1..];
      assert [a[0]] + (a[1..] + st[0]) == a + st[0];
    }
  }
}
