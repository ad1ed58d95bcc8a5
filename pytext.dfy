/**
 * The handful of Python `str` operations the report parser relies on:
 * whitespace as `str.isspace` sees it, `strip()`, slicing with out-of-range
 * bounds clamped, and the character removal / replacement done by
 * `str.replace`.
 */
module PyText {

  /** `str.isspace` for one character (also the set `\s` matches in `re`). */
  predicate IsSpace(c: char) {
    || ('\t' <= c <= '\r')
    || ('\U{1c}' <= c <= '\U{1f}')
    || c == ' ' || c == '\U{85}' || c == '\U{a0}' || c == '\U{1680}'
    || ('\U{2000}' <= c <= '\U{200a}')
    || c == '\U{2028}' || c == '\U{2029}' || c == '\U{202f}' || c == '\U{205f}' || c == '\U{3000}'
  }

  predicate AllSpace(s: string) {
    forall i | 0 <= i < |s| :: IsSpace(s[i])
  }

  /** `s.lstrip()`: the suffix of `s` left after dropping leading whitespace. */
  function StripStart(s: string): (r: string)
    ensures |r| <= |s| && r == s[|s| - |r|..]
    ensures r == [] || !IsSpace(r[0])
    ensures AllSpace(s[..|s| - |r|])
    decreases |s|
  {
    if s != [] && IsSpace(s[0]) then
      var t := StripStart(s[1..]);
      assert s[..|s| - |t|] == [s[0]] + s[1..][..|s| - 1 - |t|];
      t
    else s
  }

  /** `s.rstrip()`: the prefix of `s` left after dropping trailing whitespace. */
  function StripEnd(s: string): (r: string)
    ensures |r| <= |s| && r == s[..|r|]
    ensures r == [] || !IsSpace(r[|r| - 1])
    ensures AllSpace(s[|r|..])
    decreases |s|
  {
    if s != [] && IsSpace(s[|s| - 1]) then
      var t := StripEnd(s[..|s| - 1]);
      assert s[|t|..] == s[..|s| - 1][|t|..] + [s[|s| - 1]];
      t
    else s
  }

  /** `s.strip()`. */
  function Strip(s: string): (r: string)
    ensures r == [] || (!IsSpace(r[0]) && !IsSpace(r[|r| - 1]))
    ensures (s == [] || (!IsSpace(s[0]) && !IsSpace(s[|s| - 1]))) ==> r == s
    ensures |r| <= |s|
  {
    StripEnd(StripStart(s))
  }

  /** The position of the first character of `Strip(s)` inside `s`. */
  function StripOffset(s: string): (k: nat)
    ensures k + |Strip(s)| <= |s|
    ensures s[k..k + |Strip(s)|] == Strip(s)
    ensures AllSpace(s[..k]) && AllSpace(s[k + |Strip(s)|..])
  {
    var t := StripStart(s);
    var k := |s| - |t|;
    assert s[k..k + |Strip(s)|] == t[..|Strip(s)|];
    assert s[k + |Strip(s)|..] == t[|Strip(s)|..];
    k
  }

  /** Python's `s[lo:hi]` for `0 <= lo <= hi`: bounds past the end are clamped. */
  function Slice(s: string, lo: nat, hi: nat): (r: string)
    requires lo <= hi
    ensures |r| <= hi - lo
    ensures hi <= |s| ==> r == s[lo..hi]
    ensures |s| <= lo ==> r == []
  {
    var a := if lo < |s| then lo else |s|;
    var b := if hi < |s| then hi else |s|;
    s[a..b]
  }

  /** A fixed-width column: `s[lo:hi].strip()`. */
  function Field(s: string, lo: nat, hi: nat): (r: string)
    requires lo <= hi
    ensures |r| <= hi - lo
    ensures |s| <= lo ==> r == []
  {
    Strip(Slice(s, lo, hi))
  }

  function CountChar(s: string, c: char): (n: nat)
    ensures n <= |s|
  {
    if s == [] then 0 else (if s[0] == c then 1 else 0) + CountChar(s[1..], c)
  }

  /** `s.replace(c, "")`. */
  function RemoveChar(s: string, c: char): (r: string)
    ensures |r| + CountChar(s, c) == |s|
    ensures forall i | 0 <= i < |r| :: r[i] != c
  {
    if s == [] then []
    else if s[0] == c then RemoveChar(s[1..], c)
    else [s[0]] + RemoveChar(s[1..], c)
  }

  /** `s.replace(a, b)` for single characters `a` and `b`. */
  function ReplaceChar(s: string, a: char, b: char): (r: string)
    ensures |r| == |s|
    ensures forall i | 0 <= i < |s| :: r[i] == (if s[i] == a then b else s[i])
  {
    if s == [] then [] else [if s[0] == a then b else s[0]] + ReplaceChar(s[1..], a, b)
  }

  lemma {:induction false} CountCharConcat(s: string, t: string, c: char)
    ensures CountChar(s + t, c) == CountChar(s, c) + CountChar(t, c)
    decreases |s|
  {
    if s != [] {
      assert (s + t)[1..] == s[1..] + t;
      CountCharConcat(s[1..], t, c);
    } else {
      assert s + t == t;
    }
  }

  lemma {:induction false} CountCharAllSpace(s: string, c: char)
    requires AllSpace(s) && !IsSpace(c)
    ensures CountChar(s, c) == 0
    decreases |s|
  {
    if s != [] {
      CountCharAllSpace(s[1..], c);
    }
  }

  lemma {:induction false} CountCharZero(s: string, c: char)
    ensures CountChar(s, c) == 0 <==> forall i | 0 <= i < |s| :: s[i] != c
    decreases |s|
  {
    if s != [] {
      CountCharZero(s[1..], c);
      assert forall i | 1 <= i < |s| :: s[i] == s[1..][i - 1];
    }
  }

  lemma CountCharPadded(pre: string, mid: string, post: string, c: char)
    requires !IsSpace(c) && AllSpace(pre) && AllSpace(post)
    ensures CountChar(pre + mid + post, c) == CountChar(mid, c)
  {
    CountCharConcat(pre + mid, post, c);
    CountCharConcat(pre, mid, c);
    CountCharAllSpace(pre, c);
    CountCharAllSpace(post, c);
  }

  lemma Cut3(s: string, i: nat, j: nat)
    requires i <= j <= |s|
    ensures s == s[..i] + s[i..j] + s[j..]
  {
  }

  /** Stripping only removes whitespace, so it keeps every other character. */
  lemma StripKeepsCount(s: string, c: char)
    requires !IsSpace(c)
    ensures CountChar(Strip(s), c) == CountChar(s, c)
  {
    var k := StripOffset(s);
    var mid := Strip(s);
    var e := k + |mid|;
    Cut3(s, k, e);
    CountCharPadded(s[..k], mid, s[e..], c);
  }

  lemma {:induction false} RemoveCharConcat(s: string, t: string, c: char)
    ensures RemoveChar(s + t, c) == RemoveChar(s, c) + RemoveChar(t, c)
    decreases |s|
  {
    if s != [] {
      assert (s + t)[1..] == s[1..] + t;
      RemoveCharConcat(s[1..], t, c);
    } else {
      assert s + t == t;
    }
  }

  lemma {:induction false} RemoveCharKeepsCount(s: string, c: char, d: char)
    requires c != d
    ensures CountChar(RemoveChar(s, c), d) == CountChar(s, d)
    decreases |s|
  {
    if s != [] {
      RemoveCharKeepsCount(s[1..], c, d);
      if s[0] != c {
        assert RemoveChar(s, c)[1..] == RemoveChar(s[1..], c);
      }
    }
  }

  /** Replacing `a` by `b` moves every `a` into the count of `b`. */
  lemma {:induction false} ReplaceCharCount(s: string, a: char, b: char)
    requires a != b
    ensures CountChar(ReplaceChar(s, a, b), b) == CountChar(s, a) + CountChar(s, b)
    ensures CountChar(ReplaceChar(s, a, b), a) == 0
    decreases |s|
  {
    if s != [] {
      ReplaceCharCount(s[1..], a, b);
      assert ReplaceChar(s, a, b)[1..] == ReplaceChar(s[1..], a, b);
    }
  }
}
