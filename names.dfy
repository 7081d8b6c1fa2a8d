/**
 * Case-insensitive name comparison (`stricmp`, ast.c). Names are assumed to
 * be what the parser produces, C strings without an inner NUL; the model does
 * not check this, and for a name with an inner NUL it compares the whole
 * sequence where C would stop at the first NUL.
 */
module Names {

  /** C `tolower` in the "C" locale: only 'A'..'Z' change. */
  function ToLower(c: char): (r: char)
    ensures !('A' <= r <= 'Z')
    ensures 'A' <= c <= 'Z' || r == c
    ensures 'A' <= c <= 'Z' ==> r as int == c as int + 32
  {
    if 'A' <= c <= 'Z' then (c as int + 32) as char else c
  }

  /** The names `stricmp` reports equal: same length, same letters up to case. */
  predicate SameName(a: string, b: string)
  {
    |a| == |b| && forall i :: 0 <= i < |a| ==> ToLower(a[i]) == ToLower(b[i])
  }

  /**
   * `stricmp`: scans both strings while neither has ended and returns 1 at the
   * first position whose characters differ even after `tolower`. After the
   * scan the two current characters are equal only when both strings ended
   * together, which gives 0.
   */
  method Stricmp(s1: string, s2: string) returns (r: int)
    ensures r == 0 || r == 1
    ensures r == 0 <==> SameName(s1, s2)
  {
    var k := 0;
    while k < |s1| && k < |s2|
      invariant 0 <= k <= |s1| && k <= |s2|
      invariant forall i :: 0 <= i < k ==> ToLower(s1[i]) == ToLower(s2[i])
    {
      if s1[k] != s2[k] && ToLower(s1[k]) != ToLower(s2[k]) {
        return 1;
      }
      k := k + 1;
    }
    if k == |s1| && k == |s2| {
      return 0;
    }
    return 1;
  }

  lemma SameNameReflexive(a: string)
    ensures SameName(a, a)
  {
  }

  lemma SameNameSymmetric(a: string, b: string)
    ensures SameName(a, b) == SameName(b, a)
  {
  }

  lemma SameNameTransitive(a: string, b: string, c: string)
    requires SameName(a, b) && SameName(b, c)
    ensures SameName(a, c)
  {
  }

  /** Case matters to nothing but letters: "Count" and "COUNT" name the same variable, "N1" and "n2" do not. */
  lemma SameNameExamples()
    ensures SameName("Count", "COUNT")
    ensures !SameName("N1", "n2")
    ensures !SameName("A", "AB")
  {
    assert ToLower("N1"[1]) != ToLower("n2"[1]);
  }
}
