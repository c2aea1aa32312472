/**
 * Case handling of player names. JavaScript `toLowerCase` and SQL `LOWER` are both
 * modelled as ASCII lower-casing; the display form upper-cases the first character.
 */
module Text {

  function LowerChar(c: char): (d: char)
    ensures 'A' <= c <= 'Z' ==> d as int == c as int + 32
    ensures !('A' <= c <= 'Z') ==> d == c
    ensures !('A' <= d <= 'Z')
  {
    if 'A' <= c <= 'Z' then (c as int + 32) as char else c
  }

  function UpperChar(c: char): (d: char)
    ensures 'a' <= c <= 'z' ==> d as int == c as int - 32
    ensures !('a' <= c <= 'z') ==> d == c
  {
    if 'a' <= c <= 'z' then (c as int - 32) as char else c
  }

  /** `s.toLowerCase()` / `LOWER(s)`: every character lower-cased, nothing else changed. */
  function Lower(s: string): (r: string)
    ensures |r| == |s|
    ensures forall i :: 0 <= i < |s| ==> r[i] == LowerChar(s[i])
  {
    if s == [] then [] else [LowerChar(s[0])] + Lower(s[1..])
  }

  /** `name.charAt(0).toUpperCase() + name.slice(1)`: the display form of a name. */
  function Capitalize(s: string): (r: string)
    ensures |r| == |s|
    ensures s != [] ==> r[0] == UpperChar(s[0]) && r[1..] == s[1..]
  {
    if s == [] then [] else [UpperChar(s[0])] + s[1..]
  }

  /** Lower-casing a lower-cased name changes nothing. */
  lemma LowerIdempotent(s: string)
    ensures Lower(Lower(s)) == Lower(s)
  {
  }

  /**
   * Lower-casing the display form of a lower-cased name gives the name back; this is
   * why looking up a rating history by the capitalized display name finds the same
   * player as the lower-cased grouping key.
   */
  lemma LowerCapitalizeLower(s: string)
    ensures Lower(Capitalize(Lower(s))) == Lower(s)
  {
    var k := Lower(s);
    var r := Lower(Capitalize(k));
    if s != [] {
      assert r[0] == LowerChar(UpperChar(k[0]));
      assert r[0] == k[0];
      forall i | 1 <= i < |k| ensures r[i] == k[i] {
        assert Capitalize(k)[i] == k[i];
      }
      assert r == k;
    }
  }
}
