/** String helpers shared by the naming, escaping and path modules: Python's
    `str.replace`, prefix/suffix tests and an ASCII case fold. */
module Text {

  datatype Option<+T> = None | Some(value: T)

  predicate StartsWith(s: string, prefix: string) {
    |prefix| <= |s| && s[..|prefix|] == prefix
  }

  predicate EndsWith(s: string, suffix: string) {
    |suffix| <= |s| && s[|s| - |suffix|..] == suffix
  }

  /** True when `pat` occurs somewhere in `s`. */
  predicate Contains(s: string, pat: string) {
    exists i :: 0 <= i <= |s| && OccursAt(s, pat, i)
  }

  /** True when `pat` occurs in `s` starting at index `i`. */
  predicate OccursAt(s: string, pat: string, i: int) {
    0 <= i && i + |pat| <= |s| && s[i..i + |pat|] == pat
  }

  /** Python's `s.replace(pat, rep)`: every occurrence, left to right, never overlapping. */
  function ReplaceAll(s: string, pat: string, rep: string): (r: string)
    requires |pat| > 0
    decreases |s|
  {
    if |s| < |pat| then s
    else if s[..|pat|] == pat then rep + ReplaceAll(s[|pat|..], pat, rep)
    else [s[0]] + ReplaceAll(s[1..], pat, rep)
  }

  /** Python's `s.replace(pat, rep, 1)`: the first occurrence only. */
  function ReplaceFirst(s: string, pat: string, rep: string): (r: string)
    requires |pat| > 0
    ensures !Contains(s, pat) ==> r == s
    ensures StartsWith(s, pat) ==> r == rep + s[|pat|..]
    decreases |s|
  {
    if |s| < |pat| then s
    else if s[..|pat|] == pat then
      assert OccursAt(s, pat, 0);
      rep + s[|pat|..]
    else
      var tail := ReplaceFirst(s[1..], pat, rep);
      assert !Contains(s, pat) ==> !Contains(s[1..], pat) by {
        if Contains(s[1..], pat) {
          var i :| 0 <= i <= |s[1..]| && OccursAt(s[1..], pat, i);
          assert s[i + 1..i + 1 + |pat|] == s[1..][i..i + |pat|];
          assert OccursAt(s, pat, i + 1);
        }
      }
      [s[0]] + tail
  }

  /** `i` is the first place `pat` occurs in `s`. */
  predicate FirstAt(s: string, pat: string, i: int) {
    OccursAt(s, pat, i) && forall j :: 0 <= j < i ==> !OccursAt(s, pat, j)
  }

  /** Before the first occurrence, `replace` keeps the text as it is. */
  lemma {:induction false} ReplaceFirstBefore(s: string, pat: string, rep: string, k: nat)
    requires |pat| > 0 && k + |pat| <= |s|
    requires forall j :: 0 <= j < k ==> !OccursAt(s, pat, j)
    ensures ReplaceFirst(s, pat, rep) == s[..k] + ReplaceFirst(s[k..], pat, rep)
    decreases k
  {
    if k == 0 {
      assert s[k..] == s;
    } else {
      var u := s[k - 1..];
      assert u[..|pat|] != pat by {
        assert u[..|pat|] == s[k - 1..k - 1 + |pat|];
        assert !OccursAt(s, pat, k - 1);
      }
      calc {
        ReplaceFirst(s, pat, rep);
        { ReplaceFirstBefore(s, pat, rep, k - 1); }
        s[..k - 1] + ReplaceFirst(u, pat, rep);
        { ReplaceFirstSkip(u, pat, rep); }
        s[..k - 1] + ([u[0]] + ReplaceFirst(u[1..], pat, rep));
        { assert u[1..] == s[k..]; }
        s[..k - 1] + ([u[0]] + ReplaceFirst(s[k..], pat, rep));
        (s[..k - 1] + [u[0]]) + ReplaceFirst(s[k..], pat, rep);
        { assert s[..k - 1] + [u[0]] == s[..k]; }
        s[..k] + ReplaceFirst(s[k..], pat, rep);
      }
    }
  }

  /** `s.replace(pat, rep, 1)` replaces the first occurrence and keeps
      everything around it. */
  lemma ReplaceFirstAt(s: string, pat: string, rep: string, i: nat)
    requires |pat| > 0 && FirstAt(s, pat, i)
    ensures ReplaceFirst(s, pat, rep) == s[..i] + rep + s[i + |pat|..]
  {
    ReplaceFirstBefore(s, pat, rep, i);
    var u := s[i..];
    assert StartsWith(u, pat) by {
      assert u[..|pat|] == s[i..i + |pat|];
    }
    assert u[|pat|..] == s[i + |pat|..];
  }

  /** No occurrence at the head: the head is kept. */
  lemma ReplaceFirstSkip(s: string, pat: string, rep: string)
    requires |pat| > 0 && |s| >= |pat| && s[..|pat|] != pat
    ensures ReplaceFirst(s, pat, rep) == [s[0]] + ReplaceFirst(s[1..], pat, rep)
  {
  }

  lemma ReplaceFirstAll(s: string, pat: string, rep: string)
    requires |pat| > 0
    ensures forall i: nat :: FirstAt(s, pat, i) ==> ReplaceFirst(s, pat, rep) == s[..i] + rep + s[i + |pat|..]
  {
    forall i: nat | FirstAt(s, pat, i)
      ensures ReplaceFirst(s, pat, rep) == s[..i] + rep + s[i + |pat|..]
    {
      ReplaceFirstAt(s, pat, rep, i);
    }
  }

  /** A one-character pattern is replaced character by character, so the
      replacement distributes over concatenation. */
  lemma {:induction false} ReplaceCharConcat(a: string, b: string, c: char, rep: string)
    ensures ReplaceAll(a + b, [c], rep) == ReplaceAll(a, [c], rep) + ReplaceAll(b, [c], rep)
    decreases |a|
  {
    if a == [] {
      assert a + b == b;
    } else {
      assert (a + b)[1..] == a[1..] + b;
      assert (a + b)[..1] == a[..1];
      ReplaceCharConcat(a[1..], b, c, rep);
    }
  }

  /** One step of a one-character replacement. */
  lemma ReplaceCharHead(s: string, c: char, rep: string)
    requires s != []
    ensures ReplaceAll(s, [c], rep) == (if s[0] == c then rep else [s[0]]) + ReplaceAll(s[1..], [c], rep)
  {
    assert s[..1] == [s[0]];
  }

  /** An occurrence in the tail is an occurrence in the whole. */
  lemma ContainsTail(s: string, pat: string)
    requires s != []
    ensures Contains(s[1..], pat) ==> Contains(s, pat)
  {
    if Contains(s[1..], pat) {
      var i :| 0 <= i <= |s[1..]| && OccursAt(s[1..], pat, i);
      assert s[i + 1..i + 1 + |pat|] == s[1..][i..i + |pat|];
      assert OccursAt(s, pat, i + 1);
    }
  }

  /** A one-character pattern that does not occur leaves the string as it is. */
  lemma {:induction false} ReplaceCharAbsent(s: string, c: char, rep: string)
    requires c !in s
    ensures ReplaceAll(s, [c], rep) == s
    decreases |s|
  {
    if s != [] {
      assert s[..1] == [s[0]];
      ReplaceCharAbsent(s[1..], c, rep);
    }
  }

  /** Before the first occurrence, `replace` keeps the text as it is. */
  lemma {:induction false} ReplaceAllBefore(s: string, pat: string, rep: string, k: nat)
    requires |pat| > 0 && k + |pat| <= |s|
    requires forall j :: 0 <= j < k ==> !OccursAt(s, pat, j)
    ensures ReplaceAll(s, pat, rep) == s[..k] + ReplaceAll(s[k..], pat, rep)
    decreases k
  {
    if k == 0 {
      assert s[k..] == s;
    } else {
      var u := s[k - 1..];
      assert u[..|pat|] != pat by {
        assert u[..|pat|] == s[k - 1..k - 1 + |pat|];
        assert !OccursAt(s, pat, k - 1);
      }
      calc {
        ReplaceAll(s, pat, rep);
        { ReplaceAllBefore(s, pat, rep, k - 1); }
        s[..k - 1] + ReplaceAll(u, pat, rep);
        s[..k - 1] + ([u[0]] + ReplaceAll(u[1..], pat, rep));
        { assert u[1..] == s[k..]; }
        (s[..k - 1] + [u[0]]) + ReplaceAll(s[k..], pat, rep);
        { assert s[..k - 1] + [u[0]] == s[..k]; }
        s[..k] + ReplaceAll(s[k..], pat, rep);
      }
    }
  }

  /** `s.replace(pat, rep)` keeps the text before the first occurrence,
      replaces that occurrence, and carries on after it. */
  lemma {:induction false} ReplaceAllAt(s: string, pat: string, rep: string, i: nat)
    requires |pat| > 0 && FirstAt(s, pat, i)
    ensures ReplaceAll(s, pat, rep) == s[..i] + rep + ReplaceAll(s[i + |pat|..], pat, rep)
  {
    ReplaceAllBefore(s, pat, rep, i);
    var u := s[i..];
    assert |u| >= |pat| && u[..|pat|] == pat by {
      assert u[..|pat|] == s[i..i + |pat|];
    }
    assert u[|pat|..] == s[i + |pat|..];
    assert ReplaceAll(u, pat, rep) == rep + ReplaceAll(s[i + |pat|..], pat, rep);
  }

  /** A pattern that does not occur leaves the string as it is. */
  lemma {:induction false} ReplaceAbsent(s: string, pat: string, rep: string)
    requires |pat| > 0 && !Contains(s, pat)
    ensures ReplaceAll(s, pat, rep) == s
    decreases |s|
  {
    if |s| >= |pat| {
      assert !OccursAt(s, pat, 0);
      ContainsTail(s, pat);
      ReplaceAbsent(s[1..], pat, rep);
      assert [s[0]] + s[1..] == s;
    }
  }

  /** Deleting a pattern never lengthens a string, and shortens it exactly
      when the pattern occurs. */
  lemma {:induction false} RemovalShrinks(s: string, pat: string)
    requires |pat| > 0
    ensures |ReplaceAll(s, pat, "")| <= |s|
    ensures Contains(s, pat) <==> |ReplaceAll(s, pat, "")| < |s|
    decreases |s|
  {
    if |s| < |pat| {
      assert !Contains(s, pat);
    } else if s[..|pat|] == pat {
      RemovalShrinks(s[|pat|..], pat);
      assert OccursAt(s, pat, 0);
    } else {
      RemovalShrinks(s[1..], pat);
      if Contains(s, pat) {
        var i :| 0 <= i <= |s| && OccursAt(s, pat, i);
        assert i != 0;
        assert s[1..][i - 1..i - 1 + |pat|] == s[i..i + |pat|];
        assert OccursAt(s[1..], pat, i - 1);
      }
      if Contains(s[1..], pat) {
        var j :| 0 <= j <= |s[1..]| && OccursAt(s[1..], pat, j);
        assert s[j + 1..j + 1 + |pat|] == s[1..][j..j + |pat|];
        assert OccursAt(s, pat, j + 1);
      }
    }
  }

  /** The ASCII upper-case letters folded to lower case. */
  function Lower(c: char): char {
    if 'A' <= c <= 'Z' then (c as int + 32) as char else c
  }

  function LowerStr(s: string): (r: string)
    ensures |r| == |s|
    ensures forall i :: 0 <= i < |s| ==> r[i] == Lower(s[i])
  {
    seq(|s|, i requires 0 <= i < |s| => Lower(s[i]))
  }

  /** Case-insensitive suffix test. */
  predicate EndsWithFold(s: string, suffix: string) {
    |suffix| <= |s| && LowerStr(s[|s| - |suffix|..]) == LowerStr(suffix)
  }

  /** Index of the first `c` in `s`, or `|s|` when there is none. */
  function IndexOf(s: string, c: char): (r: nat)
    ensures r <= |s|
    ensures r < |s| ==> s[r] == c
    ensures forall k :: 0 <= k < r ==> s[k] != c
  {
    if s == [] then 0
    else if s[0] == c then 0
    else 1 + IndexOf(s[1..], c)
  }

  /** Index of the last `c` in `s`, or `|s|` when there is none. */
  function LastIndexOf(s: string, c: char): (r: nat)
    ensures r <= |s|
    ensures r < |s| ==> s[r] == c && forall k :: r < k < |s| ==> s[k] != c
    ensures r == |s| ==> c !in s
  {
    if s == [] then 0
    else if s[|s| - 1] == c then |s| - 1
    else
      var k := LastIndexOf(s[..|s| - 1], c);
      if k == |s| - 1 then |s| else k
  }
}
