/**
 * String operations used by the filters and labels: `toLowerCase`,
 * `includes`, and `split("T")[0]`.
 */
module Text {

  /** `c.toLowerCase()` for one character (ASCII letters only). */
  function LowerChar(c: char): char {
    if 'A' <= c <= 'Z' then (c as int + 32) as char else c
  }

  /** `s.toLowerCase()`. */
  function Lower(s: string): (r: string)
    ensures |r| == |s|
    ensures forall i :: 0 <= i < |s| ==> r[i] == LowerChar(s[i])
  {
    if s == [] then [] else [LowerChar(s[0])] + Lower(s[1..])
  }

  /** Lower-casing twice is lower-casing once. */
  lemma LowerIdempotent(s: string)
    ensures Lower(Lower(s)) == Lower(s)
  {
  }

  /** `t` occurs in `s` at position `i`. */
  predicate OccursAt(s: string, t: string, i: int) {
    0 <= i && i + |t| <= |s| && s[i..i + |t|] == t
  }

  /** `s.includes(t)`, scanning `s` from the left. */
  function Contains(s: string, t: string): (r: bool)
    ensures r <==> exists i :: OccursAt(s, t, i)
  {
    if t <= s then
      assert OccursAt(s, t, 0);
      true
    else if s == [] then
      assert forall i :: !OccursAt(s, t, i);
      false
    else
      var r := Contains(s[1..], t);
      assert forall i :: OccursAt(s[1..], t, i) ==> OccursAt(s, t, i + 1);
      assert forall i :: OccursAt(s, t, i) && i > 0 ==> OccursAt(s[1..], t, i - 1);
      r
  }

  /** `s.toLowerCase().includes(t.toLowerCase())`: case-insensitive containment. */
  predicate IncludesIgnoreCase(s: string, t: string) {
    Contains(Lower(s), Lower(t))
  }

  /** Every string contains the empty string, whatever its case. */
  lemma IncludesEmpty(s: string)
    ensures IncludesIgnoreCase(s, "")
  {
    assert OccursAt(Lower(s), Lower(""), 0);
  }

  /** `s.split("T")[0]`: the part of `s` before its first `T`. */
  function BeforeT(s: string): (r: string)
    ensures r <= s
    ensures 'T' !in r
    ensures |r| < |s| ==> s[|r|] == 'T'
  {
    if s == [] || s[0] == 'T' then [] else [s[0]] + BeforeT(s[1..])
  }

  /** A string without `T` is kept whole. */
  lemma BeforeTWhole(s: string)
    requires 'T' !in s
    ensures BeforeT(s) == s
  {
  }

  /** An ISO date-time `d + "T" + t` is cut back to its date `d`. */
  lemma BeforeTDateTime(d: string, t: string)
    requires 'T' !in d
    ensures BeforeT(d + "T" + t) == d
  {
    var s := d + "T" + t;
    var r := BeforeT(s);
    assert s[..|d|] == d && s[|d|] == 'T';
    assert forall i :: 0 <= i < |d| ==> s[i] == d[i] && d[i] in d;
  }
}
