/** Substring tests on strings, the model of Swift's `String.contains(_:)`. */
module Text {

  /** `sub` occurs in `s` starting at index `i`. */
  predicate OccursAt(s: string, sub: string, i: int) {
    0 <= i && i + |sub| <= |s| && s[i..i + |sub|] == sub
  }

  /** `s` contains `sub` as a contiguous substring. */
  predicate Contains(s: string, sub: string) {
    exists i | 0 <= i <= |s| - |sub| :: OccursAt(s, sub, i)
  }

  /** A string contains every prefix of itself. */
  lemma PrefixContained(s: string, prefix: string)
    requires |prefix| <= |s| && s[..|prefix|] == prefix
    ensures Contains(s, prefix)
  {
    assert OccursAt(s, prefix, 0);
  }

  /** `s` contains at least one of `needles`. */
  function ContainsAny(s: string, needles: seq<string>): (b: bool)
    ensures b <==> exists k :: 0 <= k < |needles| && Contains(s, needles[k])
  {
    if |needles| == 0 then false
    else if Contains(s, needles[0]) then true
    else
      var rest := ContainsAny(s, needles[1..]);
      assert forall k :: 1 <= k < |needles| ==> needles[k] == needles[1..][k - 1];
      rest
  }
}
