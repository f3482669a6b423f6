/** The two Python string operations the client applies to each received
    chunk: `str.strip()` and `str.replace(pattern, "")`. */
module Text {

  /** `c.isspace()`: the characters Python treats as whitespace. */
  predicate IsSpace(c: char)
  {
    || c == ' '
    || ('\t' <= c <= '\r')
    || ('\U{1c}' <= c <= '\U{1f}')
    || c == '\U{85}' || c == '\U{a0}' || c == '\U{1680}'
    || ('\U{2000}' <= c <= '\U{200a}')
    || c == '\U{2028}' || c == '\U{2029}' || c == '\U{202f}' || c == '\U{205f}' || c == '\U{3000}'
  }

  predicate AllSpace(s: string)
  {
    forall i :: 0 <= i < |s| ==> IsSpace(s[i])
  }

  /** `s.lstrip()`: `s` without its leading whitespace. */
  function TrimStart(s: string): (r: string)
    ensures |r| <= |s| && r == s[|s| - |r|..]
    ensures forall i :: 0 <= i < |s| - |r| ==> IsSpace(s[i])
    ensures r == [] || !IsSpace(r[0])
  {
    if |s| > 0 && IsSpace(s[0]) then
      var r := TrimStart(s[1..]);
      assert s[1..][|s| - 1 - |r|..] == s[|s| - |r|..];
      r
    else s
  }

  /** `s.rstrip()`: `s` without its trailing whitespace. */
  function TrimEnd(s: string): (r: string)
    ensures |r| <= |s| && r == s[..|r|]
    ensures forall i :: |r| <= i < |s| ==> IsSpace(s[i])
    ensures r == [] || !IsSpace(r[|r| - 1])
  {
    if |s| > 0 && IsSpace(s[|s| - 1]) then
      var r := TrimEnd(s[..|s| - 1]);
      assert s[..|s| - 1][..|r|] == s[..|r|];
      r
    else s
  }

  /** `s.strip()` */
  function Strip(s: string): (r: string)
  {
    TrimEnd(TrimStart(s))
  }

  /** `s.strip()` is empty exactly when `s` is all whitespace. */
  lemma StripEmptyIff(s: string)
    ensures Strip(s) == [] <==> AllSpace(s)
  {
    var t := TrimStart(s);
    if Strip(s) == [] {
      assert AllSpace(t[0..]);
      assert s == s[..|s| - |t|] + t;
    }
  }

  /** `pat` occurs in `s` at position `i`. */
  predicate OccursAt(s: string, pat: string, i: int)
  {
    0 <= i && i + |pat| <= |s| && s[i..i + |pat|] == pat
  }

  predicate Contains(s: string, pat: string)
  {
    exists i :: 0 <= i <= |s| && OccursAt(s, pat, i)
  }

  /** `s.replace(pat, "")`: one left-to-right scan that deletes every
      non-overlapping occurrence of `pat`, as CPython's `str.replace` does.
      Text that only forms `pat` after a deletion is not scanned again. */
  function RemoveAll(s: string, pat: string): (r: string)
    requires |pat| > 0
    ensures |r| <= |s|
    decreases |s|
  {
    if |s| < |pat| then s
    else if s[..|pat|] == pat then RemoveAll(s[|pat|..], pat)
    else [s[0]] + RemoveAll(s[1..], pat)
  }

  /** Text without an occurrence of the pattern comes through unchanged. */
  lemma {:induction false} RemoveAllIdentity(s: string, pat: string)
    requires |pat| > 0
    requires !Contains(s, pat)
    ensures RemoveAll(s, pat) == s
    decreases |s|
  {
    if |s| >= |pat| {
      assert !OccursAt(s, pat, 0);
      assert !Contains(s[1..], pat) by {
        forall i | 0 <= i <= |s[1..]|
          ensures !OccursAt(s[1..], pat, i)
        {
          if i + |pat| <= |s[1..]| {
            assert s[1..][i..i + |pat|] == s[i + 1..i + 1 + |pat|];
            assert !OccursAt(s, pat, i + 1);
          }
        }
      }
      RemoveAllIdentity(s[1..], pat);
      assert s == [s[0]] + s[1..];
    }
  }

  /** No proper prefix of `pat` is also a suffix of it, so two occurrences
      of `pat` can never overlap. */
  predicate NoSelfOverlap(pat: string)
  {
    forall k :: 0 < k < |pat| ==> pat[k..] != pat[..|pat| - k]
  }

  /** Dropping the first character of text without the pattern leaves text
      without it. */
  lemma NoMatchInTail(a: string, pat: string)
    requires |a| > 0 && !Contains(a, pat)
    ensures !Contains(a[1..], pat)
  {
    forall i | 0 <= i <= |a[1..]|
      ensures !OccursAt(a[1..], pat, i)
    {
      if i + |pat| <= |a[1..]| {
        assert a[1..][i..i + |pat|] == a[i + 1..i + 1 + |pat|];
        assert !OccursAt(a, pat, i + 1);
      }
    }
  }

  /** Text without the pattern, followed by an occurrence of a pattern that
      cannot overlap itself, does not start with the pattern. */
  lemma NoMatchAtStart(a: string, t: string, pat: string)
    requires |pat| > 0 && NoSelfOverlap(pat) && !Contains(a, pat) && |a| > 0
    requires |pat| <= |t| && t[..|pat|] == pat
    ensures (a + t)[..|pat|] != pat
  {
    var s := a + t;
    if |a| >= |pat| {
      assert s[..|pat|] == a[0..|pat|];
      assert !OccursAt(a, pat, 0);
    } else {
      var k := |a|;
      assert s[..|pat|][k..] == s[k..|pat|] == t[..|pat| - k] == pat[..|pat| - k];
      assert pat[k..] != pat[..|pat| - k];
    }
  }

  /** Text without the pattern, followed by an occurrence of a pattern that
      cannot overlap itself, passes through the scan unchanged. */
  lemma {:induction false} RemoveAllBeforeMatch(a: string, t: string, pat: string)
    requires |pat| > 0 && NoSelfOverlap(pat) && !Contains(a, pat)
    requires |pat| <= |t| && t[..|pat|] == pat
    ensures RemoveAll(a + t, pat) == a + RemoveAll(t, pat)
    decreases |a|
  {
    if |a| == 0 {
      assert a + t == t;
    } else {
      var s := a + t;
      NoMatchAtStart(a, t, pat);
      assert RemoveAll(s, pat) == [s[0]] + RemoveAll(s[1..], pat);
      NoMatchInTail(a, pat);
      assert s[1..] == a[1..] + t;
      RemoveAllBeforeMatch(a[1..], t, pat);
      assert a == [a[0]] + a[1..];
    }
  }

  /** A leading run of text without the pattern's first character passes
      through the scan unchanged. */
  lemma {:induction false} RemoveAllSkips(a: string, t: string, pat: string)
    requires |pat| > 0
    requires forall k :: 0 <= k < |a| ==> a[k] != pat[0]
    ensures RemoveAll(a + t, pat) == a + RemoveAll(t, pat)
    decreases |a|
  {
    if |a| > 0 {
      var s := a + t;
      RemoveAllHead(s, pat);
      assert s[1..] == a[1..] + t;
      RemoveAllSkips(a[1..], t, pat);
      calc {
        RemoveAll(s, pat);
        [s[0]] + RemoveAll(s[1..], pat);
        [a[0]] + RemoveAll(a[1..] + t, pat);
        [a[0]] + (a[1..] + RemoveAll(t, pat));
        { assert a == [a[0]] + a[1..]; }
        a + RemoveAll(t, pat);
      }
    } else {
      assert a + t == t;
    }
  }

  /** The scan keeps a first character that cannot start the pattern. */
  lemma RemoveAllHead(s: string, pat: string)
    requires |pat| > 0 && |s| > 0 && s[0] != pat[0]
    ensures RemoveAll(s, pat) == [s[0]] + RemoveAll(s[1..], pat)
  {
    if |s| >= |pat| {
      assert s[..|pat|][0] == s[0];
    } else {
      assert RemoveAll(s[1..], pat) == s[1..];
    }
  }

  /** A string that does not hold the pattern's first character holds no
      occurrence of the pattern. */
  lemma NoFirstCharNoMatch(s: string, pat: string)
    requires |pat| > 0
    requires forall k :: 0 <= k < |s| ==> s[k] != pat[0]
    ensures !Contains(s, pat)
  {
    forall i | 0 <= i <= |s|
      ensures !OccursAt(s, pat, i)
    {
      if i + |pat| <= |s| {
        assert s[i..i + |pat|][0] == s[i];
      }
    }
  }
}
