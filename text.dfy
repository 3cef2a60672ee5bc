/**
 * String predicates the handlers rely on: substring search (the store's
 * `contains` filter), prefix tests (`startsWith`) and the code-point
 * ordering used for `orderBy: { name: 'asc' }`.
 */
module Text {

  /** `s.startsWith(p)` */
  predicate StartsWith(s: string, p: string) {
    |p| <= |s| && s[..|p|] == p
  }

  /** `needle` occurs in `s` at offset `i`. */
  predicate OccursAt(s: string, needle: string, i: nat) {
    i + |needle| <= |s| && s[i..i + |needle|] == needle
  }

  /** `s` contains `needle` as a contiguous substring. */
  ghost predicate Contains(s: string, needle: string) {
    exists i: nat :: OccursAt(s, needle, i)
  }

  /** Whether `needle` occurs at some offset `from` or later. */
  function OccursFrom(s: string, needle: string, from: nat): (b: bool)
    decreases |s| - from
    ensures b <==> exists i: nat :: from <= i && OccursAt(s, needle, i)
  {
    if from + |needle| > |s| then false
    else if s[from..from + |needle|] == needle then assert OccursAt(s, needle, from); true
    else OccursFrom(s, needle, from + 1)
  }

  /** The executable form of Contains. */
  function Includes(s: string, needle: string): (b: bool)
    ensures b <==> Contains(s, needle)
  {
    OccursFrom(s, needle, 0)
  }

  lemma EmptyIsEverywhere(s: string)
    ensures Contains(s, "")
  {
    assert OccursAt(s, "", 0);
  }

  lemma SelfContains(s: string)
    ensures Contains(s, s)
  {
    assert OccursAt(s, s, 0);
  }

  /** Lexicographic order on code points, the empty string first. */
  predicate LexLe(a: string, b: string)
    decreases |a|
  {
    if a == [] then true
    else if b == [] then false
    else if a[0] != b[0] then a[0] < b[0]
    else LexLe(a[1..], b[1..])
  }

  lemma {:induction false} LexLeTotal(a: string, b: string)
    ensures LexLe(a, b) || LexLe(b, a)
    decreases |a|
  {
    if a != [] && b != [] && a[0] == b[0] {
      LexLeTotal(a[1..], b[1..]);
    }
  }

  lemma {:induction false} LexLeTransitive(a: string, b: string, c: string)
    requires LexLe(a, b) && LexLe(b, c)
    ensures LexLe(a, c)
    decreases |a|
  {
    if a != [] && b != [] && c != [] && a[0] == b[0] && b[0] == c[0] {
      LexLeTransitive(a[1..], b[1..], c[1..]);
    }
  }

  lemma {:induction false} LexLeAntisymmetric(a: string, b: string)
    requires LexLe(a, b) && LexLe(b, a)
    ensures a == b
    decreases |a|
  {
    if a != [] && b != [] {
      LexLeAntisymmetric(a[1..], b[1..]);
      assert a == [a[0]] + a[1..] && b == [b[0]] + b[1..];
    }
  }
}
