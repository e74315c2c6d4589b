/** The few Python built-ins the core leans on, stated over Dafny strings
    (a Dafny `char` is a Unicode scalar value, as a Python `str` element is). */
module Python {

  datatype Option<+T> = None | Some(value: T)

  /** `str.isspace` for one character: the whitespace class Python's `strip()` removes. */
  predicate IsSpace(c: char)
  {
    c == ' ' || ('\t' <= c <= '\r') || ('\U{1c}' <= c <= '\U{1f}') ||
    c == '\U{85}' || c == '\U{a0}' || c == '\U{1680}' || ('\U{2000}' <= c <= '\U{200a}') ||
    c == '\U{2028}' || c == '\U{2029}' || c == '\U{202f}' || c == '\U{205f}' || c == '\U{3000}'
  }

  /** `str.isupper` for one character, restricted to the ASCII capitals. */
  predicate IsUpper(c: char)
  {
    'A' <= c <= 'Z'
  }

  /** `sum(c.isupper() for c in s)`. */
  function CountUpper(s: string): (n: nat)
    ensures n <= |s|
  {
    if |s| == 0 then 0
    else CountUpper(s[..|s| - 1]) + (if IsUpper(s[|s| - 1]) then 1 else 0)
  }

  /** `s.startswith(p)`. */
  predicate StartsWith(s: string, p: string)
  {
    |p| <= |s| && s[..|p|] == p
  }

  /** `sub in s` for strings: some suffix of `s` starts with `sub`. */
  predicate Contains(s: string, sub: string)
  {
    StartsWith(s, sub) || (|s| > 0 && Contains(s[1..], sub))
  }

  /** `n * s`: the string repeated, empty when `n` is not positive. */
  function Repeat(s: string, n: int): (r: string)
    ensures n <= 0 ==> r == ""
    decreases if n > 0 then n else 0
  {
    if n <= 0 then "" else s + Repeat(s, n - 1)
  }

  /** `len(n * s)` is `n * len(s)`, or zero when `n` is not positive. */
  lemma {:induction false} RepeatLength(s: string, n: int)
    ensures |Repeat(s, n)| == if n > 0 then n * |s| else 0
    decreases if n > 0 then n else 0
  {
    if n > 0 {
      RepeatLength(s, n - 1);
    }
  }

  /** `s.lstrip()`. */
  function StripLeft(s: string): (r: string)
    ensures |r| <= |s|
  {
    if |s| > 0 && IsSpace(s[0]) then StripLeft(s[1..]) else s
  }

  /** `lstrip()` cuts a run of whitespace off the front and nothing else. */
  lemma {:induction false} StripLeftSpec(s: string)
    ensures var r := StripLeft(s);
            r == s[|s| - |r|..] && (r == [] || !IsSpace(r[0])) &&
            forall i :: 0 <= i < |s| - |r| ==> IsSpace(s[i])
  {
    if |s| > 0 && IsSpace(s[0]) {
      StripLeftSpec(s[1..]);
    }
  }

  /** `s.rstrip()`. */
  function StripRight(s: string): (r: string)
    ensures |r| <= |s|
  {
    if |s| > 0 && IsSpace(s[|s| - 1]) then StripRight(s[..|s| - 1]) else s
  }

  /** `rstrip()` cuts a run of whitespace off the back and nothing else. */
  lemma {:induction false} StripRightSpec(s: string)
    ensures var r := StripRight(s);
            r == s[..|r|] && (r == [] || !IsSpace(r[|r| - 1])) &&
            forall i :: |r| <= i < |s| ==> IsSpace(s[i])
  {
    if |s| > 0 && IsSpace(s[|s| - 1]) {
      StripRightSpec(s[..|s| - 1]);
    }
  }

  /** `s.strip()`. */
  function Strip(s: string): (r: string)
    ensures |r| <= |s|
  {
    StripRight(StripLeft(s))
  }

  /** What `strip()` promises: a contiguous piece of `s` that neither starts nor ends
      with whitespace, with only whitespace cut off around it; empty exactly when `s`
      is all whitespace, and `s` itself when `s` has no whitespace at either end. */
  lemma StripSpec(s: string)
    ensures Strip(s) == [] || (!IsSpace(Strip(s)[0]) && !IsSpace(Strip(s)[|Strip(s)| - 1]))
    ensures forall c :: c in Strip(s) ==> c in s
    ensures Strip(s) == [] <==> forall i :: 0 <= i < |s| ==> IsSpace(s[i])
    ensures s == [] || (!IsSpace(s[0]) && !IsSpace(s[|s| - 1])) ==> Strip(s) == s
  {
    var l := StripLeft(s);
    var r := StripRight(l);
    StripLeftSpec(s);
    StripRightSpec(l);
    var k := |s| - |l|;
    assert r == s[k..k + |r|] by {
      assert l == s[k..];
    }
    if r != [] {
      assert r[0] == l[0];
    }
    assert forall c :: c in r ==> c in s by {
      forall c | c in r ensures c in s {
        var j :| 0 <= j < |r| && r[j] == c;
        assert s[k + j] == c;
      }
    }
    if r == [] {
      assert l == [];
    } else {
      assert !IsSpace(s[k]);
    }
    if s != [] && !IsSpace(s[0]) && !IsSpace(s[|s| - 1]) {
      assert k == 0;
      assert l == s;
    }
  }

  /** `s.replace(pat, "")`: deletes the non-overlapping occurrences of `pat`, scanning from the left. */
  function RemoveAll(s: string, pat: string): (r: string)
    ensures |r| <= |s|
    decreases |s|
  {
    if pat == [] || |s| < |pat| then s
    else if s[..|pat|] == pat then RemoveAll(s[|pat|..], pat)
    else [s[0]] + RemoveAll(s[1..], pat)
  }

  /** Deleting never adds a character, and deleting a one-character pattern leaves
      none of it behind. */
  lemma {:induction false} RemoveAllSpec(s: string, pat: string)
    ensures forall c :: c in RemoveAll(s, pat) ==> c in s
    ensures |pat| == 1 ==> pat[0] !in RemoveAll(s, pat)
    decreases |s|
  {
    if pat == [] || |s| < |pat| {
      if |pat| == 1 { assert s == []; }
    } else if s[..|pat|] == pat {
      RemoveAllSpec(s[|pat|..], pat);
    } else {
      RemoveAllSpec(s[1..], pat);
      assert |pat| == 1 ==> s[0] != pat[0] by {
        if |pat| == 1 { assert s[..1] == [s[0]]; }
      }
    }
  }
}
