/** The two string operations every filter in the front-end is built from:
    `toLowerCase` (restricted here to ASCII letters) and `includes`. */
module Text {

  /** `toLowerCase` on one character: ASCII upper-case letters become lower-case. */
  function LowerChar(c: char): char
  {
    if 'A' <= c <= 'Z' then (c as int + 32) as char else c
  }

  /** `s.toLowerCase()`, character by character. */
  function Lower(s: string): (r: string)
    ensures |r| == |s|
    ensures forall i :: 0 <= i < |s| ==> r[i] == LowerChar(s[i])
  {
    seq(|s|, i requires 0 <= i < |s| => LowerChar(s[i]))
  }

  /** `a` and `b` differ at most in the case of their letters. */
  predicate SameUpToCase(a: string, b: string)
  {
    |a| == |b| && forall i :: 0 <= i < |a| ==> LowerChar(a[i]) == LowerChar(b[i])
  }

  /** `hay.includes(needle)`: `needle` occurs in `hay` as a contiguous block. */
  predicate Contains(hay: string, needle: string)
    decreases |hay|
  {
    needle <= hay || (hay != [] && Contains(hay[1..], needle))
  }

  /** `hay.toLowerCase().includes(needle.toLowerCase())`, the test all text filters use. */
  predicate ContainsIgnoringCase(hay: string, needle: string)
  {
    Contains(Lower(hay), Lower(needle))
  }

  /** Lower-casing is idempotent. */
  lemma LowerIdempotent(s: string)
    ensures Lower(Lower(s)) == Lower(s)
  {
  }

  /** Two strings lower-case to the same string exactly when they differ only in case. */
  lemma SameUpToCaseLower(a: string, b: string)
    ensures SameUpToCase(a, b) <==> Lower(a) == Lower(b)
  {
    if Lower(a) == Lower(b) {
      forall i | 0 <= i < |a| ensures LowerChar(a[i]) == LowerChar(b[i]) {
        assert Lower(a)[i] == Lower(b)[i];
      }
    }
  }

  /** Lower-casing commutes with taking a slice. */
  lemma LowerSlice(s: string, i: int, j: int)
    requires 0 <= i <= j <= |s|
    ensures Lower(s[i..j]) == Lower(s)[i..j]
  {
  }

  /** A string can contain another only if it is at least as long. */
  lemma {:induction false} ContainsLength(hay: string, needle: string)
    requires Contains(hay, needle)
    ensures |needle| <= |hay|
    decreases |hay|
  {
    if !(needle <= hay) {
      ContainsLength(hay[1..], needle);
    }
  }

  /** A string contains a non-empty needle only if it contains the needle's first character. */
  lemma {:induction false} ContainsNeedsFirstChar(hay: string, needle: string)
    requires needle != []
    ensures Contains(hay, needle) ==> needle[0] in hay
    decreases |hay|
  {
    if hay != [] && !(needle <= hay) {
      ContainsNeedsFirstChar(hay[1..], needle);
      assert forall c :: c in hay[1..] ==> c in hay;
    }
  }

  /** The case-insensitive test fails when the needle's first letter, lowered, does not occur
      in the lowered string searched. */
  lemma MissingFirstCharNotFound(hay: string, needle: string)
    requires needle != [] && LowerChar(needle[0]) !in Lower(hay)
    ensures !ContainsIgnoringCase(hay, needle)
  {
    ContainsNeedsFirstChar(Lower(hay), Lower(needle));
  }

  /** Every slice of a string is contained in it. */
  lemma {:induction false} ContainsSlice(hay: string, i: int, j: int)
    requires 0 <= i <= j <= |hay|
    ensures Contains(hay, hay[i..j])
    decreases i
  {
    if i == 0 {
      assert hay[..j] <= hay;
    } else {
      ContainsSlice(hay[1..], i - 1, j - 1);
      assert hay[1..][i - 1..j - 1] == hay[i..j];
    }
  }

  /** `needle` occurs in `hay` starting at index `i`. */
  predicate OccursAt(hay: string, needle: string, i: int)
  {
    0 <= i && i + |needle| <= |hay| && hay[i..i + |needle|] == needle
  }

  /** `includes` succeeds exactly when the needle occurs at some index of the string. */
  lemma {:induction false} ContainsOccurs(hay: string, needle: string)
    ensures Contains(hay, needle) <==> exists i :: OccursAt(hay, needle, i)
    decreases |hay|
  {
    if Contains(hay, needle) {
      if needle <= hay {
        assert OccursAt(hay, needle, 0);
      } else {
        ContainsOccurs(hay[1..], needle);
        var i :| OccursAt(hay[1..], needle, i);
        assert hay[1..][i..i + |needle|] == hay[i + 1..i + 1 + |needle|];
        assert OccursAt(hay, needle, i + 1);
      }
    }
    if exists i :: OccursAt(hay, needle, i) {
      var i :| OccursAt(hay, needle, i);
      ContainsSlice(hay, i, i + |needle|);
    }
  }

  /** The case-insensitive test finds every slice of `hay`, whatever the case of its letters. */
  lemma ContainsIgnoringCaseSlice(hay: string, needle: string, i: int, j: int)
    requires 0 <= i <= j <= |hay|
    requires SameUpToCase(needle, hay[i..j])
    ensures ContainsIgnoringCase(hay, needle)
  {
    SameUpToCaseLower(needle, hay[i..j]);
    LowerSlice(hay, i, j);
    ContainsSlice(Lower(hay), i, j);
  }

  /** The empty string is contained in every string, so an empty needle always matches. */
  lemma ContainsIgnoringCaseEmpty(hay: string)
    ensures ContainsIgnoringCase(hay, "")
  {
    assert Lower("") == "";
  }
}
