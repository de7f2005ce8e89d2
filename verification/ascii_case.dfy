/** Case folding as used by the command dispatchers, restricted to ASCII letters. */
module AsciiCase {

  /** Lower-cases one ASCII letter; every other character is left alone. */
  function Lower(c: char): char {
    if 'A' <= c <= 'Z' then (c as int + ('a' as int - 'A' as int)) as char else c
  }

  /** `String.toLowerCase`, character by character. */
  function ToLower(s: string): string {
    seq(|s|, i requires 0 <= i < |s| => Lower(s[i]))
  }

  /** `String.equalsIgnoreCase`: same length and the same characters once folded. */
  predicate EqualsIgnoreCase(a: string, b: string) {
    |a| == |b| && forall i :: 0 <= i < |a| ==> Lower(a[i]) == Lower(b[i])
  }

  /** A string that lower-casing leaves unchanged (every command token is one). */
  predicate IsLowerCase(s: string) {
    forall i :: 0 <= i < |s| ==> Lower(s[i]) == s[i]
  }

  /** Folding a character twice is the same as folding it once. */
  lemma LowerIdempotent(c: char)
    ensures Lower(Lower(c)) == Lower(c)
  {
  }

  /** Against a lower-case token, "lower-case then compare exactly" and
      "compare ignoring case" accept exactly the same inputs. */
  lemma ToLowerMatchesIgnoringCase(input: string, token: string)
    requires IsLowerCase(token)
    ensures ToLower(input) == token <==> EqualsIgnoreCase(input, token)
  {
    if ToLower(input) == token {
      forall i | 0 <= i < |input|
        ensures Lower(input[i]) == Lower(token[i])
      {
        LowerIdempotent(input[i]);
      }
    }
    if EqualsIgnoreCase(input, token) {
      assert forall i :: 0 <= i < |input| ==> ToLower(input)[i] == token[i];
    }
  }
}
