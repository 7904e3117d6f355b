/** Character and string helpers the game relies on: lower-casing, the
    letter test and counting the occurrences of a character. Kotlin's
    `lowercase()` and `Char.isLetter()` follow the Unicode tables; here they
    are restricted to ASCII. */
module Text {

  predicate IsUpper(c: char) {
    'A' <= c <= 'Z'
  }

  /** The 52 ASCII letters in alphabet order, lower case first. */
  function Alphabet(): string {
    seq(52, i requires 0 <= i < 52 =>
      if i < 26 then ('a' as int + i) as char else ('A' as int + i - 26) as char)
  }

  /** `Char.isLetter`, restricted to ASCII: exactly the characters of the
      alphabet above. */
  predicate IsLetter(c: char)
    ensures IsLetter(c) <==> c in Alphabet()
  {
    if 'a' <= c <= 'z' then
      assert Alphabet()[c as int - 'a' as int] == c;
      true
    else if 'A' <= c <= 'Z' then
      assert Alphabet()[26 + c as int - 'A' as int] == c;
      true
    else
      false
  }

  /** A string with no upper-case letter, as every result of `Lower` is. */
  predicate IsLowercase(s: string) {
    forall i :: 0 <= i < |s| ==> !IsUpper(s[i])
  }

  /** Lower-cases one character: upper-case letters become the matching
      lower-case letter, every other character is kept. */
  function LowerChar(c: char): (d: char)
    ensures !IsUpper(d)
    ensures IsLetter(d) == IsLetter(c)
    ensures !IsUpper(c) ==> d == c
    ensures IsUpper(c) ==> d as int - 'a' as int == c as int - 'A' as int
  {
    if IsUpper(c) then (c as int - 'A' as int + 'a' as int) as char else c
  }

  /** Kotlin's `String.lowercase()`: character by character, same length. */
  function Lower(s: string): (r: string)
    ensures |r| == |s|
    ensures forall i :: 0 <= i < |s| ==> r[i] == LowerChar(s[i])
    ensures IsLowercase(r)
  {
    if s == [] then [] else [LowerChar(s[0])] + Lower(s[1..])
  }

  /** A string that is already lower-case is its own lower-case form. */
  lemma LowerKeepsLowercase(s: string)
    requires IsLowercase(s)
    ensures Lower(s) == s
  {
    assert forall i :: 0 <= i < |s| ==> Lower(s)[i] == s[i];
  }

  /** Lower-casing twice is lower-casing once. */
  lemma LowerIdempotent(s: string)
    ensures Lower(Lower(s)) == Lower(s)
  {
    LowerKeepsLowercase(Lower(s));
  }

  /** `w.count { it == c }`: the number of characters of `w` equal to `c`. */
  function Occurrences(w: string, c: char): (n: nat)
    ensures n <= |w|
    ensures n == 0 <==> c !in w
  {
    if w == [] then 0
    else
      var init := w[..|w| - 1];
      assert w == init + [w[|w| - 1]];
      Occurrences(init, c) + (if w[|w| - 1] == c then 1 else 0)
  }

  /** The positions of `w` that hold `c`. */
  function Positions(w: string, c: char): set<int> {
    set i | 0 <= i < |w| && w[i] == c
  }

  /** The count is the number of positions holding the character. */
  lemma {:induction false} OccurrencesCountsPositions(w: string, c: char)
    ensures Occurrences(w, c) == |Positions(w, c)|
  {
    if w == [] {
      assert Positions(w, c) == {};
    } else {
      var last := |w| - 1;
      var init := w[..last];
      OccurrencesCountsPositions(init, c);
      assert last !in Positions(init, c);
      if w[last] == c {
        assert Positions(w, c) == Positions(init, c) + {last};
      } else {
        assert Positions(w, c) == Positions(init, c);
      }
    }
  }
}
