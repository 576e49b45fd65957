/**
 * The Python string built-ins the engine relies on, restricted to ASCII:
 * `str.strip()`, `str.upper()`, `str.lower()` and the substring test `in`.
 */
module Text {

  /** Python's `str.isspace()` on an ASCII character: TAB, LF, VT, FF, CR, the four
      information separators 0x1C-0x1F, and SPACE. */
  predicate IsSpace(c: char) {
    c == ' ' || (9 <= c as int <= 13) || (28 <= c as int <= 31)
  }

  predicate IsLowerAscii(c: char) { 'a' <= c <= 'z' }

  predicate IsUpperAscii(c: char) { 'A' <= c <= 'Z' }

  /** No lower-case ASCII letter anywhere in `s`. */
  predicate NoLowercase(s: string) {
    forall i :: 0 <= i < |s| ==> !IsLowerAscii(s[i])
  }

  /** `s.lstrip()`: the suffix of `s` left after removing leading white space. */
  function TrimStart(s: string): (r: string)
    ensures |r| <= |s| && r == s[|s| - |r|..]
    ensures forall k :: 0 <= k < |s| - |r| ==> IsSpace(s[k])
    ensures r == [] || !IsSpace(r[0])
  {
    if s != [] && IsSpace(s[0]) then TrimStart(s[1..]) else s
  }

  /** `s.rstrip()`: the prefix of `s` left after removing trailing white space. */
  function TrimEnd(s: string): (r: string)
    ensures |r| <= |s| && r == s[..|r|]
    ensures forall k :: |r| <= k < |s| ==> IsSpace(s[k])
    ensures r == [] || !IsSpace(r[|r| - 1])
  {
    if s != [] && IsSpace(s[|s| - 1]) then TrimEnd(s[..|s| - 1]) else s
  }

  /** `s.strip()`. */
  function Strip(s: string): (r: string)
    ensures |r| <= |s|
    ensures r == [] || (!IsSpace(r[0]) && !IsSpace(r[|r| - 1]))
    ensures s != [] && !IsSpace(s[0]) && !IsSpace(s[|s| - 1]) ==> r == s
  {
    TrimEnd(TrimStart(s))
  }

  function UpperChar(c: char): char {
    if IsLowerAscii(c) then (c as int - 32) as char else c
  }

  function LowerChar(c: char): char {
    if IsUpperAscii(c) then (c as int + 32) as char else c
  }

  /** `s.upper()`: every lower-case letter replaced by its capital, nothing else touched. */
  function Upper(s: string): (r: string)
    ensures |r| == |s| && NoLowercase(r)
    ensures forall i :: 0 <= i < |s| && !IsLowerAscii(s[i]) ==> r[i] == s[i]
    ensures forall i :: 0 <= i < |s| && IsLowerAscii(s[i]) ==> r[i] as int == s[i] as int - 32
  {
    seq(|s|, i requires 0 <= i < |s| => UpperChar(s[i]))
  }

  /** `s.lower()`: every capital replaced by its lower-case letter, nothing else touched. */
  function Lower(s: string): (r: string)
    ensures |r| == |s|
    ensures forall i :: 0 <= i < |s| ==> !IsUpperAscii(r[i])
    ensures forall i :: 0 <= i < |s| && !IsUpperAscii(s[i]) ==> r[i] == s[i]
    ensures forall i :: 0 <= i < |s| && IsUpperAscii(s[i]) ==> r[i] as int == s[i] as int + 32
  {
    seq(|s|, i requires 0 <= i < |s| => LowerChar(s[i]))
  }

  /** `a` and `b` differ at most in the case of their letters: `a.lower() == b.lower()`. */
  predicate SameUpToCase(a: string, b: string) {
    |a| == |b| && forall i :: 0 <= i < |a| ==> LowerChar(a[i]) == LowerChar(b[i])
  }

  /** Stripping twice strips nothing more. */
  lemma StripIsIdempotent(s: string)
    ensures Strip(Strip(s)) == Strip(s)
  {
    var r := Strip(s);
    if r != [] {
      assert !IsSpace(r[0]) && !IsSpace(r[|r| - 1]);
    }
  }

  lemma SameCaseOfSuffix(a: string, b: string, k: nat)
    requires SameUpToCase(a, b) && k <= |a|
    ensures SameUpToCase(a[k..], b[k..])
  {
    assert forall i :: 0 <= i < |a| - k ==> a[k..][i] == a[k + i] && b[k..][i] == b[k + i];
  }

  lemma SameCaseOfPrefix(a: string, b: string, k: nat)
    requires SameUpToCase(a, b) && k <= |a|
    ensures SameUpToCase(a[..k], b[..k])
  {
    assert forall i :: 0 <= i < k ==> a[..k][i] == a[i] && b[..k][i] == b[i];
  }

  /** Whether a character is white space does not depend on its case. */
  lemma SpaceOfSameCase(c: char, d: char)
    requires LowerChar(c) == LowerChar(d)
    ensures IsSpace(c) == IsSpace(d)
  {
  }

  lemma {:induction false} TrimStartOfSameCase(a: string, b: string)
    requires SameUpToCase(a, b)
    ensures SameUpToCase(TrimStart(a), TrimStart(b))
  {
    if a != [] {
      SpaceOfSameCase(a[0], b[0]);
      if IsSpace(a[0]) {
        SameCaseOfSuffix(a, b, 1);
        TrimStartOfSameCase(a[1..], b[1..]);
      }
    }
  }

  lemma {:induction false} TrimEndOfSameCase(a: string, b: string)
    requires SameUpToCase(a, b)
    ensures SameUpToCase(TrimEnd(a), TrimEnd(b))
  {
    if a != [] {
      SpaceOfSameCase(a[|a| - 1], b[|a| - 1]);
      if IsSpace(a[|a| - 1]) {
        SameCaseOfPrefix(a, b, |a| - 1);
        TrimEndOfSameCase(a[..|a| - 1], b[..|a| - 1]);
      }
    }
  }

  /** Texts that differ only in case are equal once stripped and lower-cased. */
  lemma LowerStripOfSameCase(a: string, b: string)
    requires SameUpToCase(a, b)
    ensures Lower(Strip(a)) == Lower(Strip(b))
  {
    TrimStartOfSameCase(a, b);
    TrimEndOfSameCase(TrimStart(a), TrimStart(b));
    LowerOfSameCase(Strip(a), Strip(b));
  }

  lemma LowerOfSameCase(x: string, y: string)
    requires SameUpToCase(x, y)
    ensures Lower(x) == Lower(y)
  {
    forall i | 0 <= i < |x| ensures Lower(x)[i] == Lower(y)[i] {
      assert Lower(x)[i] == LowerChar(x[i]) && Lower(y)[i] == LowerChar(y[i]);
    }
  }

  /** `s.upper()` and `s.lower()` differ from `s` only in case. */
  lemma CaseMapsKeepLetters(s: string)
    ensures SameUpToCase(Upper(s), s) && SameUpToCase(Lower(s), s)
  {
    assert forall i :: 0 <= i < |s| ==> LowerChar(Upper(s)[i]) == LowerChar(s[i]);
    assert forall i :: 0 <= i < |s| ==> LowerChar(Lower(s)[i]) == LowerChar(s[i]);
  }

  /** `needle` occurs in `hay` starting at position `k`. */
  predicate OccursAt(hay: string, needle: string, k: int) {
    0 <= k && k + |needle| <= |hay| && hay[k..k + |needle|] == needle
  }

  /** Python's `needle in hay` on strings: substring containment (the empty string is in every string). */
  predicate Contains(hay: string, needle: string) {
    exists k :: 0 <= k <= |hay| && OccursAt(hay, needle, k)
  }
}
