/** The length of a .NET string: `string.Length` counts UTF-16 code units,
    so a character outside the Basic Multilingual Plane, stored as a
    surrogate pair, counts twice. */
module Utf16 {

  /** The positions of `s` holding a character outside the Basic
      Multilingual Plane (at or above U+10000). */
  function Supplementary(s: string): set<nat>
  {
    set i: nat | i < |s| && s[i] as int >= 0x1_0000
  }

  /** Every character of `s` lies in the Basic Multilingual Plane. */
  predicate InBmp(s: string)
  {
    forall i :: 0 <= i < |s| ==> s[i] as int < 0x1_0000
  }

  /** `string.Length` of the .NET string that holds the characters `s`:
      between one and two code units per character, and one per character
      exactly when every character is in the Basic Multilingual Plane. */
  function Length(s: string): (n: nat)
    ensures |s| <= n <= 2 * |s|
    ensures InBmp(s) <==> n == |s|
  {
    SupplementaryBound(s);
    |s| + |Supplementary(s)|
  }

  /** A character outside the Basic Multilingual Plane is one character
      but two code units. */
  lemma SurrogatePairCountsTwice()
    ensures |"\U{1F600}"| == 1 && Length("\U{1F600}") == 2
  {
    assert Supplementary("\U{1F600}") == {0};
  }

  /** Appending a character adds its position exactly when it lies
      outside the Basic Multilingual Plane. */
  lemma SupplementarySnoc(s: string, c: char)
    ensures Supplementary(s + [c])
            == Supplementary(s) + (if c as int >= 0x1_0000 then {|s|} else {})
  {
  }

  lemma {:induction false} SupplementaryBound(s: string)
    ensures |Supplementary(s)| <= |s|
    ensures InBmp(s) <==> Supplementary(s) == {}
  {
    if s == [] {
      assert Supplementary(s) == {};
    } else {
      var init := s[..|s| - 1];
      assert s == init + [s[|s| - 1]];
      SupplementaryBound(init);
      SupplementarySnoc(init, s[|s| - 1]);
      assert |init| !in Supplementary(init);
      assert InBmp(s) <==> InBmp(init) && s[|s| - 1] as int < 0x1_0000;
    }
  }
}
