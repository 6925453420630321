/** PHP's `str_contains`, with a declarative reference definition of "occurs in". */
module PhpStrings {

  /** `needle` occurs in `haystack` starting at position `i` (exact, case-sensitive match). */
  predicate OccursAt(haystack: string, needle: string, i: int) {
    0 <= i && i + |needle| <= |haystack| && haystack[i..i + |needle|] == needle
  }

  /** `needle` occurs somewhere in `haystack`. */
  ghost predicate Occurs(haystack: string, needle: string) {
    exists i :: OccursAt(haystack, needle, i)
  }

  /**
   * `str_contains($haystack, $needle)`: is `needle` a prefix of some suffix of
   * `haystack`? The empty needle is contained in every string, as in PHP 8.
   */
  function StrContains(haystack: string, needle: string): (b: bool)
    decreases |haystack|
  {
    needle <= haystack || (|haystack| > 0 && StrContains(haystack[1..], needle))
  }

  /** The scanning definition agrees with the reference definition, in both directions. */
  lemma {:induction false} StrContainsIffOccurs(haystack: string, needle: string)
    ensures StrContains(haystack, needle) <==> Occurs(haystack, needle)
    decreases |haystack|
  {
    if needle <= haystack {
      assert OccursAt(haystack, needle, 0);
    } else if |haystack| > 0 {
      var tail := haystack[1..];
      StrContainsIffOccurs(tail, needle);
      if Occurs(tail, needle) {
        var j :| OccursAt(tail, needle, j);
        assert forall k :: j + 1 <= k < j + 1 + |needle| ==> haystack[k] == tail[k - 1];
        assert haystack[j + 1..j + 1 + |needle|] == tail[j..j + |needle|];
        assert OccursAt(haystack, needle, j + 1);
      }
      if Occurs(haystack, needle) {
        var i :| OccursAt(haystack, needle, i);
        assert i != 0 by {
          assert !OccursAt(haystack, needle, 0);
        }
        assert forall k :: i <= k < i + |needle| ==> tail[k - 1] == haystack[k];
        assert tail[i - 1..i - 1 + |needle|] == haystack[i..i + |needle|];
        assert OccursAt(tail, needle, i - 1);
      }
    }
  }

  /** A string occurs in any concatenation that places it right after a prefix. */
  lemma OccursBetween(prefix: string, needle: string, suffix: string)
    ensures OccursAt(prefix + needle + suffix, needle, |prefix|)
  {
  }
}
