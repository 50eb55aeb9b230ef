/**
 * The string operations the pages use: `toLowerCase`, `toUpperCase` on one character,
 * `includes`, `startsWith` and capitalising the first character.
 * Case mapping covers the ASCII letters only.
 */
module Text {

  function LowerChar(c: char): char {
    if 'A' <= c <= 'Z' then (c as int + 32) as char else c
  }

  function UpperChar(c: char): char {
    if 'a' <= c <= 'z' then (c as int - 32) as char else c
  }

  /** `s.toLowerCase()`. */
  function ToLower(s: string): (r: string)
    ensures |r| == |s|
    ensures forall i :: 0 <= i < |s| ==> r[i] == LowerChar(s[i])
  {
    seq(|s|, i requires 0 <= i < |s| => LowerChar(s[i]))
  }

  /** `needle` occurs in `hay` starting at position `i`. */
  ghost predicate OccursAt(hay: string, needle: string, i: int) {
    0 <= i && i + |needle| <= |hay| && hay[i..i + |needle|] == needle
  }

  /** `s.startsWith(prefix)`, character by character. */
  function StartsWith(s: string, prefix: string): (r: bool)
    ensures r <==> prefix <= s
    decreases |prefix|
  {
    if prefix == [] then true
    else if s == [] then false
    else
      assert prefix <= s <==> prefix[0] == s[0] && prefix[1..] <= s[1..];
      s[0] == prefix[0] && StartsWith(s[1..], prefix[1..])
  }

  /** `hay.includes(needle)`. */
  function Contains(hay: string, needle: string): bool
    decreases |hay|
  {
    StartsWith(hay, needle) || (hay != [] && Contains(hay[1..], needle))
  }

  /** `Contains` finds exactly the occurrences. */
  lemma {:induction false} ContainsIffOccurs(hay: string, needle: string)
    ensures Contains(hay, needle) <==> exists i :: OccursAt(hay, needle, i)
    decreases |hay|
  {
    if StartsWith(hay, needle) {
      assert OccursAt(hay, needle, 0);
    } else if hay != [] {
      ContainsIffOccurs(hay[1..], needle);
      ShiftOccurrence(hay, needle);
    }
  }

  /** Only a string at least as long as `needle` can contain it. */
  lemma ContainsNeedsRoom(hay: string, needle: string)
    requires Contains(hay, needle)
    ensures |needle| <= |hay|
  {
    ContainsIffOccurs(hay, needle);
  }

  /** When `needle` is not a prefix of `hay`, it occurs in `hay` iff it occurs in `hay[1..]`. */
  lemma ShiftOccurrence(hay: string, needle: string)
    requires hay != [] && !(needle <= hay)
    ensures (exists i :: OccursAt(hay[1..], needle, i)) <==> (exists i :: OccursAt(hay, needle, i))
  {
    var n := |needle|;
    if i :| OccursAt(hay[1..], needle, i) {
      assert hay[1..][i..i + n] == hay[i + 1..i + 1 + n];
      assert OccursAt(hay, needle, i + 1);
    }
    if i :| OccursAt(hay, needle, i) {
      assert i != 0;
      assert hay[1..][i - 1..i - 1 + n] == hay[i..i + n];
      assert OccursAt(hay[1..], needle, i - 1);
    }
  }

  /** `s.toLowerCase().includes(term.toLowerCase())`: the search the pages run. */
  function ContainsIgnoringCase(s: string, term: string): bool {
    Contains(ToLower(s), ToLower(term))
  }


  /** `s.charAt(0).toUpperCase() + s.slice(1)`. */
  function Capitalize(s: string): (r: string)
    ensures |r| == |s|
    ensures s != [] ==> r[0] == UpperChar(s[0]) && r[1..] == s[1..]
  {
    if s == [] then [] else [UpperChar(s[0])] + s[1..]
  }

  lemma LowerCharIdempotent(c: char)
    ensures LowerChar(LowerChar(c)) == LowerChar(c)
  {
  }

  /** Lower-casing twice is lower-casing once. */
  lemma ToLowerIdempotent(s: string)
    ensures ToLower(ToLower(s)) == ToLower(s)
  {
    forall i | 0 <= i < |s|
      ensures ToLower(ToLower(s))[i] == ToLower(s)[i]
    {
      LowerCharIdempotent(s[i]);
    }
  }

  /** The empty string occurs in every string. */
  lemma EmptyTermMatches(s: string)
    ensures Contains(s, "")
    ensures ContainsIgnoringCase(s, "")
  {
    assert StartsWith(s, "");
    assert StartsWith(ToLower(s), ToLower(""));
  }

  /** The search is blind to the case of both the text and the term. */
  lemma SearchIgnoresCase(s: string, term: string)
    ensures ContainsIgnoringCase(ToLower(s), term) == ContainsIgnoringCase(s, term)
    ensures ContainsIgnoringCase(s, ToLower(term)) == ContainsIgnoringCase(s, term)
  {
    ToLowerIdempotent(s);
    ToLowerIdempotent(term);
  }
}
