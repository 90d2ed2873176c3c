/**
 * The two string operations the search boxes use: `toLowerCase()`, taken here
 * over ASCII letters only, and `includes`, JavaScript's substring test.
 */
module Text {

  function LowerChar(c: char): char
  {
    if 'A' <= c <= 'Z' then (c as int + 32) as char else c
  }

  function ToLower(s: string): string
  {
    seq(|s|, i requires 0 <= i < |s| => LowerChar(s[i]))
  }

  /** `needle` sits in `hay` starting at index `i`. */
  predicate OccursAt(hay: string, needle: string, i: int)
  {
    0 <= i && i + |needle| <= |hay| && hay[i..i + |needle|] == needle
  }

  /** `hay.includes(needle)`, scanning start positions from the left. */
  function Includes(hay: string, needle: string): bool
    decreases |hay|
  {
    if |needle| > |hay| then false
    else if needle <= hay then true
    else Includes(hay[1..], needle)
  }

  /** The scan agrees with the definition of a substring, in both directions. */
  lemma {:induction false} IncludesIffOccurs(hay: string, needle: string)
    ensures Includes(hay, needle) <==> exists i :: OccursAt(hay, needle, i)
    decreases |hay|
  {
    if |needle| > |hay| {
    } else if needle <= hay {
      assert OccursAt(hay, needle, 0);
    } else {
      IncludesIffOccurs(hay[1..], needle);
      if j :| OccursAt(hay[1..], needle, j) {
        assert hay[1..][j..j + |needle|] == hay[j + 1..j + 1 + |needle|];
        assert OccursAt(hay, needle, j + 1);
      }
      if i :| OccursAt(hay, needle, i) {
        assert i != 0;
        assert hay[1..][i - 1..i - 1 + |needle|] == hay[i..i + |needle|];
        assert OccursAt(hay[1..], needle, i - 1);
      }
    }
  }

  /** The case-insensitive search used by every list page. */
  predicate MatchesSearch(field: string, term: string)
  {
    Includes(ToLower(field), ToLower(term))
  }

  /** An empty search term matches every field. */
  lemma EmptyTermMatches(field: string)
    ensures MatchesSearch(field, "")
  {
  }
}
