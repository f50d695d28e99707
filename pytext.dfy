/** The two Python `str` builtins the runner and the handler rely on: `str.replace` (all
    non-overlapping occurrences, scanned left to right, never re-scanning the
    inserted text) and `str.strip()` with no argument (Unicode whitespace as
    `str.isspace` defines it). */
module PyText {

  /** True iff `pat` occurs in `s` starting at index `i`. */
  predicate OccursAt(s: string, pat: string, i: nat)
  {
    i + |pat| <= |s| && s[i..i + |pat|] == pat
  }

  /** `t in s` for strings: `t` occurs somewhere in `s`. */
  predicate Contains(s: string, t: string)
  {
    exists i :: 0 <= i <= |s| && OccursAt(s, t, i)
  }

  /** Regrouping the concatenations the runner's messages and templates are
      written as. */
  lemma Regroup(a: string, b: string, c: string, d: string, e: string)
    ensures a + b + c + d + e == a + b + (c + d + e)
    ensures a + b + c + d == a + b + (c + d)
    ensures a + b + c + d == (a + b + c) + d + ""
  {
    var s := a + b + c + d;
    assert s + "" == s;
  }

  /** `s.replace(pat, rep)` for a non-empty `pat` (every call in `docker_runner.py`
      passes a non-empty literal). */
  function Replace(s: string, pat: string, rep: string): (r: string)
    requires |pat| > 0
    ensures pat[0] !in s ==> r == s
    decreases |s|
  {
    if |s| < |pat| then s
    else if s[..|pat|] == pat then rep + Replace(s[|pat|..], pat, rep)
    else [s[0]] + Replace(s[1..], pat, rep)
  }

  /** Text free of the first character of `pat` passes through `Replace`
      unchanged, and the rest of the subject is replaced on its own. */
  lemma {:induction false} ReplaceSkipsPrefix(a: string, b: string, pat: string, rep: string)
    requires |pat| > 0
    requires pat[0] !in a
    ensures Replace(a + b, pat, rep) == a + Replace(b, pat, rep)
    decreases |a|
  {
    if a != [] {
      var s := a + b;
      assert s[0] == a[0] && a[0] != pat[0];
      assert pat[0] !in a[1..] by {
        assert a == [a[0]] + a[1..];
      }
      var tail := Replace(s[1..], pat, rep);
      if |s| >= |pat| {
        assert s[..|pat|] != pat by {
          assert s[..|pat|][0] == a[0];
        }
      }
      assert Replace(s, pat, rep) == [a[0]] + tail;
      assert s[1..] == a[1..] + b;
      ReplaceSkipsPrefix(a[1..], b, pat, rep);
      assert [a[0]] + (a[1..] + Replace(b, pat, rep)) == a + Replace(b, pat, rep);
    } else {
      assert a + b == b;
    }
  }

  /** An occurrence at the very front is replaced once, and scanning resumes
      after it. */
  lemma ReplaceAtFront(pat: string, b: string, rep: string)
    requires |pat| > 0
    ensures Replace(pat + b, pat, rep) == rep + Replace(b, pat, rep)
  {
  }

  /** `str.isspace()` for one character: the characters whose Unicode
      bidirectional class is WS, B or S, or whose category is Zs. */
  predicate IsSpace(c: char)
  {
    ('\U{9}' <= c <= '\U{D}') || ('\U{1C}' <= c <= '\U{20}') ||
    c == '\U{85}' || c == '\U{A0}' || c == '\U{1680}' ||
    ('\U{2000}' <= c <= '\U{200A}') || c == '\U{2028}' || c == '\U{2029}' ||
    c == '\U{202F}' || c == '\U{205F}' || c == '\U{3000}'
  }

  /** True iff every character of `s` is whitespace. */
  predicate AllSpace(s: string)
  {
    forall i :: 0 <= i < |s| ==> IsSpace(s[i])
  }

  /** `s.lstrip()`: drop leading whitespace, and only whitespace. */
  function StripLeft(s: string): (r: string)
    ensures |r| <= |s| && r == s[|s| - |r|..]
    ensures AllSpace(s[..|s| - |r|])
    ensures r == [] || !IsSpace(r[0])
  {
    if s != [] && IsSpace(s[0]) then
      var r := StripLeft(s[1..]);
      var k := |s| - |r|;
      assert s[..k] == [s[0]] + s[1..][..k - 1];
      AllSpaceCons(s[..k]);
      r
    else s
  }

  /** `s.rstrip()`: drop trailing whitespace, and only whitespace. */
  function StripRight(s: string): (r: string)
    ensures |r| <= |s| && r == s[..|r|]
    ensures AllSpace(s[|r|..])
    ensures r == [] || !IsSpace(r[|r| - 1])
  {
    if s != [] && IsSpace(s[|s| - 1]) then
      var r := StripRight(s[..|s| - 1]);
      AllSpaceSnoc(s[|r|..]);
      assert s[|r|..][..|s| - |r| - 1] == s[..|s| - 1][|r|..];
      r
    else s
  }

  /** `r` is the slice of `s` starting at `k`, with only whitespace before
      and after it. */
  predicate TrimmedAt(s: string, r: string, k: int)
  {
    0 <= k <= |s| - |r| && r == s[k..k + |r|] && AllSpace(s[..k]) && AllSpace(s[k + |r|..])
  }

  /** Trimming a whitespace prefix and then a whitespace suffix leaves a
      slice with whitespace on both sides. */
  lemma TrimmedTwice(s: string, left: string, r: string)
    requires |left| <= |s| && left == s[|s| - |left|..] && AllSpace(s[..|s| - |left|])
    requires |r| <= |left| && r == left[..|r|] && AllSpace(left[|r|..])
    ensures TrimmedAt(s, r, |s| - |left|)
  {
    var k := |s| - |left|;
    assert r == s[k..k + |r|];
    assert left[|r|..] == s[k + |r|..];
  }

  /** `s.strip()`: drop whitespace at both ends. What remains is the slice of
      `s` left between a whitespace prefix and a whitespace suffix, and it
      neither starts nor ends with whitespace. */
  function Strip(s: string): (r: string)
    ensures |r| <= |s|
    ensures exists k :: TrimmedAt(s, r, k)
    ensures r == [] || (!IsSpace(r[0]) && !IsSpace(r[|r| - 1]))
  {
    var left := StripLeft(s);
    var r := StripRight(left);
    TrimmedTwice(s, left, r);
    r
  }

  /** A non-empty string is all whitespace exactly when its first character
      is and the rest is. */
  lemma AllSpaceCons(s: string)
    requires s != []
    ensures AllSpace(s) <==> IsSpace(s[0]) && AllSpace(s[1..])
  {
    if IsSpace(s[0]) && AllSpace(s[1..]) {
      forall i | 0 <= i < |s| ensures IsSpace(s[i]) {
        if i > 0 { assert s[i] == s[1..][i - 1]; }
      }
    }
    if AllSpace(s) {
      forall i | 0 <= i < |s| - 1 ensures IsSpace(s[1..][i]) {
        assert s[1..][i] == s[i + 1];
      }
    }
  }

  /** A non-empty string is all whitespace exactly when its last character
      is and the rest is. */
  lemma AllSpaceSnoc(s: string)
    requires s != []
    ensures AllSpace(s) <==> IsSpace(s[|s| - 1]) && AllSpace(s[..|s| - 1])
  {
    if IsSpace(s[|s| - 1]) && AllSpace(s[..|s| - 1]) {
      forall i | 0 <= i < |s| ensures IsSpace(s[i]) {
        if i < |s| - 1 { assert s[i] == s[..|s| - 1][i]; }
      }
    }
    if AllSpace(s) {
      var p := s[..|s| - 1];
      forall i | 0 <= i < |p| ensures IsSpace(p[i]) {
        assert p[i] == s[i];
      }
    }
  }

  /** `lstrip` empties exactly the strings made only of whitespace. */
  lemma {:induction false} StripLeftEmptyIffAllSpace(s: string)
    ensures StripLeft(s) == [] <==> AllSpace(s)
    decreases |s|
  {
    if s != [] {
      AllSpaceCons(s);
      if IsSpace(s[0]) {
        StripLeftEmptyIffAllSpace(s[1..]);
      }
    }
  }

  /** `rstrip` keeps a string that starts with a non-whitespace character
      non-empty. */
  lemma {:induction false} StripRightKeepsFirst(s: string)
    requires s != [] && !IsSpace(s[0])
    ensures StripRight(s) != []
    decreases |s|
  {
    if IsSpace(s[|s| - 1]) {
      assert |s| > 1;
      assert s[..|s| - 1][0] == s[0];
      StripRightKeepsFirst(s[..|s| - 1]);
    }
  }

  /** `not s.strip()` holds exactly when `s` is empty or all whitespace. */
  lemma StripEmptyIffAllSpace(s: string)
    ensures Strip(s) == [] <==> AllSpace(s)
  {
    StripLeftEmptyIffAllSpace(s);
    if !AllSpace(s) {
      StripRightKeepsFirst(StripLeft(s));
    }
  }
}
