/** The string operations the tournament filter and the status badge rely on:
    JavaScript's `toLowerCase`, `toUpperCase` and `includes`, restricted to
    ASCII letters (any other character is left unchanged by the case
    mappings). */
module Text {

  predicate IsUpper(c: char) { 'A' <= c <= 'Z' }

  predicate IsLower(c: char) { 'a' <= c <= 'z' }

  function LowerChar(c: char): (r: char)
    ensures !IsUpper(r)
    ensures IsUpper(c) ==> IsLower(r)
    ensures !IsUpper(c) ==> r == c
  {
    if IsUpper(c) then (c as int + 32) as char else c
  }

  function UpperChar(c: char): (r: char)
    ensures !IsLower(r)
    ensures IsLower(c) ==> IsUpper(r)
    ensures !IsLower(c) ==> r == c
  {
    if IsLower(c) then (c as int - 32) as char else c
  }

  /** Upper-casing a character and lower-casing it again loses nothing that
      lower-casing alone keeps. */
  lemma LowerUpperChar(c: char)
    ensures LowerChar(UpperChar(c)) == LowerChar(c)
  {
  }

  /** `s.toLowerCase()` on ASCII letters. */
  function Lower(s: string): (r: string)
    ensures |r| == |s|
    ensures forall i :: 0 <= i < |s| ==> r[i] == LowerChar(s[i])
  {
    if s == [] then [] else [LowerChar(s[0])] + Lower(s[1..])
  }

  /** A string without upper-case letters is its own lower-case form. */
  lemma LowerFixesLowercase(s: string)
    requires forall i :: 0 <= i < |s| ==> !IsUpper(s[i])
    ensures Lower(s) == s
  {
  }

  /** Lower-casing is idempotent. */
  lemma LowerIdempotent(s: string)
    ensures Lower(Lower(s)) == Lower(s)
  {
    LowerFixesLowercase(Lower(s));
  }

  predicate StartsWith(s: string, prefix: string) {
    |prefix| <= |s| && s[..|prefix|] == prefix
  }

  /** `s.includes(needle)`: some suffix of `s` starts with `needle`. */
  predicate Includes(s: string, needle: string)
    decreases |s|
  {
    StartsWith(s, needle) || (|s| > 0 && Includes(s[1..], needle))
  }

  /** `needle` occurs in `s` starting at index `i`. */
  ghost predicate OccursAt(s: string, needle: string, i: int) {
    0 <= i && i + |needle| <= |s| && s[i..i + |needle|] == needle
  }

  /** The recursive search agrees with the positional definition of a
      substring occurrence. */
  lemma {:induction false} IncludesIffOccurs(s: string, needle: string)
    ensures Includes(s, needle) <==> exists i :: OccursAt(s, needle, i)
    decreases |s|
  {
    if |s| == 0 {
      if Includes(s, needle) {
        assert OccursAt(s, needle, 0);
      }
      if exists i :: OccursAt(s, needle, i) {
        var i :| OccursAt(s, needle, i);
        assert needle == [];
        assert StartsWith(s, needle);
      }
    } else {
      IncludesIffOccurs(s[1..], needle);
      if StartsWith(s, needle) {
        assert OccursAt(s, needle, 0);
      } else if Includes(s[1..], needle) {
        var i :| OccursAt(s[1..], needle, i);
        assert s[1..][i..i + |needle|] == s[i + 1..i + 1 + |needle|];
        assert OccursAt(s, needle, i + 1);
      }
      if exists i :: OccursAt(s, needle, i) {
        var i :| OccursAt(s, needle, i);
        if i == 0 {
          assert StartsWith(s, needle);
        } else {
          assert s[1..][i - 1..i - 1 + |needle|] == s[i..i + |needle|];
          assert OccursAt(s[1..], needle, i - 1);
        }
      }
    }
  }

  /** A string lacking one of the needle's characters does not include it. */
  lemma MissingCharExcludes(s: string, needle: string, k: int)
    requires 0 <= k < |needle| && needle[k] !in s
    ensures !Includes(s, needle)
  {
    IncludesIffOccurs(s, needle);
    forall i
      ensures !OccursAt(s, needle, i)
    {
      if 0 <= i && i + |needle| <= |s| {
        assert s[i..i + |needle|][k] == s[i + k];
        assert s[i + k] in s;
      }
    }
  }
}
