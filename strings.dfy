/** The two string operations the keyword rules use: lower-casing and
    substring search (`string.ToLower`, `string.Contains`). */
module Strings {

  /** Lower-cases the ASCII letters A-Z and leaves every other character
      as it is (culture-specific case mappings are not modelled). */
  function Lower(s: string): (r: string)
    ensures |r| == |s|
    ensures forall i :: 0 <= i < |s| ==> r[i] == LowerChar(s[i])
  {
    seq(|s|, i requires 0 <= i < |s| => LowerChar(s[i]))
  }

  function LowerChar(c: char): (r: char)
    ensures 'A' <= c <= 'Z' ==> 'a' <= r <= 'z'
    ensures !('A' <= c <= 'Z') ==> r == c
  {
    if 'A' <= c <= 'Z' then (c as int - 'A' as int + 'a' as int) as char else c
  }

  /** `s.StartsWith(p)` (ordinal). */
  predicate StartsWith(s: string, p: string)
  {
    |p| <= |s| && s[..|p|] == p
  }

  /** `s.Contains(p)` (ordinal): `p` occurs in `s` at some position. */
  predicate Contains(s: string, p: string)
    decreases |s|
  {
    StartsWith(s, p) || (|s| > 0 && Contains(s[1..], p))
  }

  /** `p` occurs in `s` starting at index `i`. */
  predicate OccursAt(s: string, p: string, i: int)
  {
    0 <= i <= |s| - |p| && s[i..i + |p|] == p
  }

  /** The recursive search agrees with the positional definition of
      "occurs as a substring". */
  lemma {:induction false} ContainsAt(s: string, p: string)
    ensures Contains(s, p) <==> exists i :: OccursAt(s, p, i)
    decreases |s|
  {
    if StartsWith(s, p) {
      assert OccursAt(s, p, 0);
    } else if |s| > 0 {
      ContainsAt(s[1..], p);
      if Contains(s[1..], p) {
        var i :| OccursAt(s[1..], p, i);
        assert s[i + 1..i + 1 + |p|] == s[1..][i..i + |p|];
        assert OccursAt(s, p, i + 1);
      } else {
        forall i | 0 <= i <= |s| - |p|
          ensures !OccursAt(s, p, i)
        {
          if i == 0 {
            assert s[..|p|] == s[0..0 + |p|];
          } else {
            assert s[i..i + |p|] == s[1..][i - 1..i - 1 + |p|];
            assert !OccursAt(s[1..], p, i - 1);
          }
        }
      }
    } else {
      assert |s| == 0;
    }
  }
}
