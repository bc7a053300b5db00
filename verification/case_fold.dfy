/** Python's `str.lower()` as far as the sensors use it: to compare a label
    with the ASCII words "blocked" and "cached". */
module CaseFold {

  /** U+212A KELVIN SIGN, the one character outside ASCII whose lower-case
      form is an ASCII letter ('k'). */
  const KelvinSign: char := '\U{212A}'

  function LowerChar(c: char): char {
    if 'A' <= c <= 'Z' then (c as int + 32) as char
    else if c == KelvinSign then 'k'
    else c
  }

  /** Lower-cases ASCII letters and the Kelvin sign; every other character is
      kept. For every other character Python's lower-case form is either the
      character itself or not an ASCII letter, so comparing `Lower(s)` with an
      ASCII lower-case word agrees with comparing `s.lower()` with it. */
  function Lower(s: string): (r: string)
    ensures |r| == |s|
    ensures forall i :: 0 <= i < |s| ==> r[i] == LowerChar(s[i])
    ensures forall i :: 0 <= i < |r| ==> !('A' <= r[i] <= 'Z') && r[i] != KelvinSign
    ensures forall i :: 0 <= i < |s| && r[i] != s[i] ==> 'A' <= s[i] <= 'Z' || s[i] == KelvinSign
  {
    seq(|s|, i requires 0 <= i < |s| => LowerChar(s[i]))
  }

  /** A word of lower-case ASCII letters. */
  predicate LowerWord(w: string) {
    forall i :: 0 <= i < |w| ==> 'a' <= w[i] <= 'z'
  }

  /** `s` spells `w` letter by letter in either case, with the Kelvin sign
      allowed for a 'k'. */
  predicate SpelledAs(s: string, w: string)
    requires LowerWord(w)
  {
    |s| == |w| &&
    forall i :: 0 <= i < |s| ==>
      s[i] == w[i] || s[i] == (w[i] as int - 32) as char || (w[i] == 'k' && s[i] == KelvinSign)
  }

  /** A string lower-cases to a lower-case ASCII word exactly when it spells
      that word in any mix of cases. */
  lemma LowerMatchesWord(s: string, w: string)
    requires LowerWord(w)
    ensures Lower(s) == w <==> SpelledAs(s, w)
  {
  }

  /** The strings the `blocked` counter accepts: "blocked" in any mix of
      cases, with the Kelvin sign allowed for its K. */
  lemma BlockedIff(s: string)
    ensures Lower(s) == "blocked" <==>
              |s| == 7 && forall i :: 0 <= i < 7 ==>
                s[i] == "blocked"[i] || s[i] == "BLOCKED"[i] || (i == 4 && s[i] == KelvinSign)
  {
  }

  /** The strings the `cached` counter accepts: "cached" in any mix of cases. */
  lemma CachedIff(s: string)
    ensures Lower(s) == "cached" <==>
              |s| == 6 && forall i :: 0 <= i < 6 ==> s[i] == "cached"[i] || s[i] == "CACHED"[i]
  {
  }

  /** Lower-casing twice is lower-casing once. */
  lemma LowerIdempotent(s: string)
    ensures Lower(Lower(s)) == Lower(s)
  {
  }

  /** "BLOCKED", "Blocked" and "BLOCKED" spelt with the Kelvin sign for its
      K all count as blocked. */
  lemma BlockedSpellings()
    ensures Lower("BLOCKED") == "blocked"
    ensures Lower("Blocked") == "blocked"
    ensures Lower("BLOC" + [KelvinSign] + "ED") == "blocked"
  {
  }
}
