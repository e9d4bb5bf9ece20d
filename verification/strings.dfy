/** The three string operations the navigation decision is built from:
    `toLowerCase`, `startsWith` and `includes`, each defined the way the
    runtime evaluates it (character by character). `ToLower` is characterised
    character by character; `StartsWith` and `Contains` are each proved equal
    to a definition over slices. */
module Strings {

  predicate IsAsciiUpper(c: char) {
    'A' <= c <= 'Z'
  }

  /** Case folding of one character, restricted to ASCII. */
  function LowerChar(c: char): (r: char)
    ensures !IsAsciiUpper(r)
    ensures r == c || (IsAsciiUpper(c) && r as int - c as int == 'a' as int - 'A' as int)
  {
    if IsAsciiUpper(c) then (c as int - 'A' as int + 'a' as int) as char else c
  }

  /** `s.toLowerCase()`, restricted to ASCII letters. */
  function ToLower(s: string): (r: string)
    ensures |r| == |s|
    ensures forall i :: 0 <= i < |s| ==> r[i] == LowerChar(s[i])
  {
    if s == [] then [] else [LowerChar(s[0])] + ToLower(s[1..])
  }

  /** Two strings that differ only in the case of ASCII letters. */
  ghost predicate SameIgnoringAsciiCase(a: string, b: string) {
    |a| == |b| && forall i :: 0 <= i < |a| ==> LowerChar(a[i]) == LowerChar(b[i])
  }

  lemma ToLowerOfSameIgnoringCase(a: string, b: string)
    requires SameIgnoringAsciiCase(a, b)
    ensures ToLower(a) == ToLower(b)
  {
    assert forall i :: 0 <= i < |a| ==> ToLower(a)[i] == ToLower(b)[i];
  }

  /** A string without ASCII capitals is its own lowercase form. */
  lemma ToLowerOfLowercase(s: string)
    requires forall i :: 0 <= i < |s| ==> !IsAsciiUpper(s[i])
    ensures ToLower(s) == s
  {
    assert forall i :: 0 <= i < |s| ==> ToLower(s)[i] == s[i];
  }

  lemma {:induction false} ToLowerIdempotent(s: string)
    ensures ToLower(ToLower(s)) == ToLower(s)
  {
    if s != [] {
      ToLowerIdempotent(s[1..]);
      assert ToLower(s)[1..] == ToLower(s[1..]);
    }
  }

  /** `s.startsWith(p)`, compared character by character. */
  predicate StartsWith(s: string, p: string) {
    |p| == 0 || (|s| > 0 && s[0] == p[0] && StartsWith(s[1..], p[1..]))
  }

  /** `s.includes(t)`: `t` starts at some position of `s`. */
  predicate Contains(s: string, t: string) {
    StartsWith(s, t) || (|s| > 0 && Contains(s[1..], t))
  }

  /** `t` occurs in `s` at position `i`. */
  ghost predicate OccursAt(s: string, t: string, i: nat) {
    i + |t| <= |s| && s[i..i + |t|] == t
  }

  lemma {:induction false} StartsWithIff(s: string, p: string)
    ensures StartsWith(s, p) <==> |p| <= |s| && s[..|p|] == p
  {
    if |p| > 0 && |s| > 0 {
      StartsWithIff(s[1..], p[1..]);
      if |p| <= |s| && s[..|p|] == p {
        assert s[1..][..|p| - 1] == s[..|p|][1..];
      }
      if StartsWith(s, p) {
        assert s[..|p|] == [s[0]] + s[1..][..|p| - 1];
        assert p == [p[0]] + p[1..];
      }
    }
  }

  /** `t` cannot occur in `s` if one of its characters is missing from `s`. */
  lemma MissingCharNotContained(s: string, t: string, k: nat)
    requires k < |t|
    requires forall i :: 0 <= i < |s| ==> s[i] != t[k]
    ensures forall i: nat :: !OccursAt(s, t, i)
  {
    forall i: nat
      ensures !OccursAt(s, t, i)
    {
      if i + |t| <= |s| {
        assert s[i..i + |t|][k] == s[i + k];
      }
    }
  }

  lemma {:induction false} ContainsIff(s: string, t: string)
    ensures Contains(s, t) <==> exists i: nat :: OccursAt(s, t, i)
  {
    StartsWithIff(s, t);
    if StartsWith(s, t) {
      assert OccursAt(s, t, 0);
    } else if |s| > 0 {
      ContainsIff(s[1..], t);
      if Contains(s[1..], t) {
        var j: nat :| OccursAt(s[1..], t, j);
        assert s[1..][j..j + |t|] == s[j + 1..j + 1 + |t|];
        assert OccursAt(s, t, j + 1);
      }
      if i: nat :| OccursAt(s, t, i) {
        assert i != 0;
        assert s[1..][i - 1..i - 1 + |t|] == s[i..i + |t|];
        assert OccursAt(s[1..], t, i - 1);
      }
    }
  }
}
