/** Small shared vocabulary: an optional value, JavaScript's `||` default
    on strings, and ASCII case mapping (`toUpperCase` / `toLowerCase`). */
module Common {

  /** A value that may be absent (`undefined`, `null`, a failed fetch, or NaN
      where a number was expected). */
  datatype Option<T> = None | Some(value: T)

  /** JavaScript's `||` on a string that may be absent: a present,
      non-empty string is kept; a missing or empty one (both falsy) gives
      way to `fallback`. */
  function OrDefault(x: Option<string>, fallback: string): (r: string)
    ensures x.Some? && x.value != "" ==> r == x.value
    ensures x.None? || x.value == "" ==> r == fallback
    ensures r != "" <== fallback != ""
  {
    if x.Some? && x.value != "" then x.value else fallback
  }

  predicate IsLowerLetter(c: char) { 'a' <= c <= 'z' }

  predicate IsUpperLetter(c: char) { 'A' <= c <= 'Z' }

  function UpperChar(c: char): char {
    if IsLowerLetter(c) then (c as int - 32) as char else c
  }

  function LowerChar(c: char): char {
    if IsUpperLetter(c) then (c as int + 32) as char else c
  }

  function ToUpper(s: string): string {
    seq(|s|, i requires 0 <= i < |s| => UpperChar(s[i]))
  }

  function ToLower(s: string): string {
    seq(|s|, i requires 0 <= i < |s| => LowerChar(s[i]))
  }

  /** A string with no lower-case ASCII letter. */
  predicate NoLowerLetter(s: string) {
    forall i :: 0 <= i < |s| ==> !IsLowerLetter(s[i])
  }

  /** Upper-casing changes only the case of letters: it keeps the length,
      and lower-casing its result is lower-casing the original. */
  lemma UpperKeepsLetters(s: string)
    ensures |ToUpper(s)| == |s|
    ensures ToLower(ToUpper(s)) == ToLower(s)
  {
    forall i | 0 <= i < |s|
      ensures ToLower(ToUpper(s))[i] == ToLower(s)[i]
    {
      var c := s[i];
      if IsLowerLetter(c) {
        assert UpperChar(c) as int == c as int - 32;
      }
    }
  }

  /** Upper-casing leaves a string that has no lower-case letter unchanged,
      and its result never has one. */
  lemma UpperFixesUpper(s: string)
    ensures NoLowerLetter(ToUpper(s))
    ensures NoLowerLetter(s) <==> ToUpper(s) == s
  {
    if NoLowerLetter(s) {
      assert forall i :: 0 <= i < |s| ==> ToUpper(s)[i] == s[i];
    }
    if ToUpper(s) == s {
      assert forall i :: 0 <= i < |s| ==> s[i] == UpperChar(s[i]);
    }
  }
}
