/**
 * The handful of Python `str` operations the bot applies to what users type:
 * `strip()`, `lower()`, `upper()`, `startswith()` and the substring test `in`.
 * Case mapping covers ASCII letters only.
 */
module PyStr {

  /** `str.isspace()` for one character: the set `str.strip()` removes. */
  predicate IsSpace(c: char) {
    c == ' ' || ('\t' <= c <= '\r') || ('\U{1C}' <= c <= '\U{1F}')
    || c == '\U{85}' || c == '\U{A0}' || c == '\U{1680}'
    || ('\U{2000}' <= c <= '\U{200A}') || c == '\U{2028}' || c == '\U{2029}'
    || c == '\U{202F}' || c == '\U{205F}' || c == '\U{3000}'
  }

  predicate AllSpace(s: string) {
    forall i :: 0 <= i < |s| ==> IsSpace(s[i])
  }

  /** Neither end of `s` is whitespace (vacuously true of ""). */
  predicate EdgeClean(s: string) {
    s == [] || (!IsSpace(s[0]) && !IsSpace(s[|s| - 1]))
  }

  /** `s.lstrip()`: drops the whitespace at the start of `s`. */
  function TrimLeft(s: string): (r: string)
    ensures |r| <= |s|
    ensures r == [] || !IsSpace(r[0])
  {
    if |s| > 0 && IsSpace(s[0]) then TrimLeft(s[1..]) else s
  }

  /** `s.rstrip()`: drops the whitespace at the end of `s`. */
  function TrimRight(s: string): (r: string)
    ensures |r| <= |s|
    ensures r == [] || (r[0] == s[0] && !IsSpace(r[|r| - 1]))
  {
    if |s| > 0 && IsSpace(s[|s| - 1]) then TrimRight(s[..|s| - 1]) else s
  }

  /** `lstrip()` keeps a suffix of `s` and everything it cuts off is whitespace. */
  lemma {:induction false} TrimLeftCutsSpace(s: string)
    ensures var r := TrimLeft(s);
            r == s[|s| - |r|..] && AllSpace(s[..|s| - |r|])
    decreases |s|
  {
    if |s| > 0 && IsSpace(s[0]) {
      var r := TrimLeft(s[1..]);
      TrimLeftCutsSpace(s[1..]);
      assert s[1..][|s| - 1 - |r|..] == s[|s| - |r|..];
      assert s[1..][..|s| - 1 - |r|] == s[1..|s| - |r|];
    }
  }

  /** `rstrip()` keeps a prefix of `s` and everything it cuts off is whitespace. */
  lemma {:induction false} TrimRightCutsSpace(s: string)
    ensures var r := TrimRight(s);
            r == s[..|r|] && AllSpace(s[|r|..])
    decreases |s|
  {
    if |s| > 0 && IsSpace(s[|s| - 1]) {
      var r := TrimRight(s[..|s| - 1]);
      TrimRightCutsSpace(s[..|s| - 1]);
      assert s[..|s| - 1][..|r|] == s[..|r|];
      assert s[..|s| - 1][|r|..] == s[|r|..|s| - 1];
    }
  }

  /** `s.strip()`. */
  function Strip(s: string): (r: string)
    ensures |r| <= |s|
    ensures EdgeClean(r)
  {
    TrimRight(TrimLeft(s))
  }

  lemma {:induction false} TrimLeftPadded(pre: string, t: string)
    requires AllSpace(pre)
    requires t == [] || !IsSpace(t[0])
    ensures TrimLeft(pre + t) == t
    decreases |pre|
  {
    if pre == [] {
      assert pre + t == t;
    } else {
      assert (pre + t)[0] == pre[0];
      assert (pre + t)[1..] == pre[1..] + t;
      TrimLeftPadded(pre[1..], t);
    }
  }

  lemma {:induction false} TrimRightPadded(t: string, post: string)
    requires AllSpace(post)
    requires t == [] || !IsSpace(t[|t| - 1])
    ensures TrimRight(t + post) == t
    decreases |post|
  {
    if post == [] {
      assert t + post == t;
    } else {
      var n := |t + post|;
      assert (t + post)[n - 1] == post[|post| - 1];
      assert (t + post)[..n - 1] == t + post[..|post| - 1];
      TrimRightPadded(t, post[..|post| - 1]);
    }
  }

  /**
   * Whatever whitespace surrounds a text with no whitespace at either end,
   * `strip()` gives back exactly that text.
   */
  lemma StripPadded(pre: string, t: string, post: string)
    requires AllSpace(pre) && AllSpace(post) && EdgeClean(t)
    ensures Strip(pre + t + post) == t
  {
    assert pre + t + post == pre + (t + post);
    if t == [] {
      assert t + post == post;
      TrimLeftPadded(pre + post, []);
      assert pre + post + [] == pre + post;
      assert TrimRight([]) == [];
    } else {
      assert (t + post)[0] == t[0];
      TrimLeftPadded(pre, t + post);
      TrimRightPadded(t, post);
    }
  }

  function LowerChar(c: char): char {
    if 'A' <= c <= 'Z' then (c as int + 32) as char else c
  }

  function UpperChar(c: char): char {
    if 'a' <= c <= 'z' then (c as int - 32) as char else c
  }

  /** `s.lower()`, character by character. */
  function Lower(s: string): (r: string)
    ensures |r| == |s|
    ensures forall i :: 0 <= i < |s| ==> r[i] == LowerChar(s[i])
  {
    if s == [] then [] else [LowerChar(s[0])] + Lower(s[1..])
  }

  /** `s.upper()`, character by character. */
  function Upper(s: string): (r: string)
    ensures |r| == |s|
    ensures forall i :: 0 <= i < |s| ==> r[i] == UpperChar(s[i])
  {
    if s == [] then [] else [UpperChar(s[0])] + Upper(s[1..])
  }

  /** `upper()` leaves no lower-case ASCII letter behind. */
  lemma UpperHasNoLowerCase(s: string)
    ensures forall i :: 0 <= i < |s| ==> !('a' <= Upper(s)[i] <= 'z')
  {
  }

  /** An ASCII letter is not whitespace, so case mapping one character keeps it whitespace or not. */
  lemma CaseMappingKeepsSpace(c: char)
    ensures IsSpace(LowerChar(c)) == IsSpace(c) && IsSpace(UpperChar(c)) == IsSpace(c)
  {
    if 'A' <= c <= 'Z' {
      assert 'a' <= LowerChar(c) <= 'z';
    }
    if 'a' <= c <= 'z' {
      assert 'A' <= UpperChar(c) <= 'Z';
    }
  }

  /** Case mapping never touches whitespace, so it keeps a stripped text stripped. */
  lemma CaseMappingKeepsEdges(s: string)
    requires EdgeClean(s)
    ensures EdgeClean(Lower(s)) && EdgeClean(Upper(s))
  {
    if s != [] {
      var n := |s| - 1;
      CaseMappingKeepsSpace(s[0]);
      CaseMappingKeepsSpace(s[n]);
      assert Lower(s)[0] == LowerChar(s[0]) && Lower(s)[n] == LowerChar(s[n]);
      assert Upper(s)[0] == UpperChar(s[0]) && Upper(s)[n] == UpperChar(s[n]);
    }
  }

  /** `s.startswith(p)`. */
  predicate StartsWith(s: string, p: string) {
    |p| <= |s| && s[..|p|] == p
  }

  /** `sub in s`. */
  predicate Contains(s: string, sub: string) {
    exists i :: 0 <= i <= |s| && StartsWith(s[i..], sub)
  }

  /** A text in which the first character of `sub` never occurs does not contain `sub`. */
  lemma AbsentFirstChar(s: string, sub: string)
    requires sub != [] && forall k :: 0 <= k < |s| ==> s[k] != sub[0]
    ensures !Contains(s, sub)
  {
    forall i | 0 <= i <= |s|
      ensures !StartsWith(s[i..], sub)
    {
      if i < |s| {
        assert s[i..][0] == s[i];
      }
    }
  }
}
