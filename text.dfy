/**
 * The two string operations of Go's `strings` package that the runner relies
 * on: `strings.Contains` (error classification) and `strings.ToUpper`
 * (method validation).
 */
module Text {

  /** `pre` is a prefix of `s`. */
  predicate IsPrefix(pre: string, s: string) {
    |pre| <= |s| && s[..|pre|] == pre
  }

  /** `strings.Contains(s, sub)`: tries every start position of `s`, left to right. */
  predicate Contains(s: string, sub: string)
    decreases |s|
  {
    IsPrefix(sub, s) || (|s| > 0 && Contains(s[1..], sub))
  }

  /** Reference definition of an occurrence: `sub` sits in `s` starting at index `i`. */
  ghost predicate OccursAt(s: string, sub: string, i: int) {
    0 <= i && i + |sub| <= |s| && s[i..i + |sub|] == sub
  }

  /** The scanning definition agrees with the index-based one, in both directions. */
  lemma {:induction false} ContainsIffOccurs(s: string, sub: string)
    ensures Contains(s, sub) <==> exists i :: OccursAt(s, sub, i)
    decreases |s|
  {
    if IsPrefix(sub, s) {
      assert OccursAt(s, sub, 0);
    } else if |s| == 0 {
      assert |sub| > 0;
    } else {
      ContainsIffOccurs(s[1..], sub);
      if Contains(s[1..], sub) {
        var j :| OccursAt(s[1..], sub, j);
        assert s[1..][j..j + |sub|] == s[j + 1..j + 1 + |sub|];
        assert OccursAt(s, sub, j + 1);
      }
      forall i | OccursAt(s, sub, i) ensures Contains(s[1..], sub) {
        assert i != 0;
        assert s[1..][i - 1..i - 1 + |sub|] == s[i..i + |sub|];
        assert OccursAt(s[1..], sub, i - 1);
      }
    }
  }

  /** A text that lacks one of the characters of `sub` does not contain `sub`. */
  lemma MissingCharNotContained(s: string, sub: string, c: char)
    requires c in sub && c !in s
    ensures !Contains(s, sub)
  {
    ContainsIffOccurs(s, sub);
  }

  /**
   * `unicode.ToUpper` on one character, for every character whose upper-case
   * form is an ASCII letter: 'a'..'z', the dotless i (U+0131, upper-case 'I')
   * and the long s (U+017F, upper-case 'S'). Every other character is kept:
   * its upper-case form is not an ASCII letter either way.
   */
  function UpperRune(c: char): (u: char)
    ensures 'A' <= u <= 'Z' ==> u == c || 'a' <= c <= 'z' || c == '\U{131}' || c == '\U{17F}'
  {
    if 'a' <= c <= 'z' then (c as int - 32) as char
    else if c == '\U{131}' then 'I'
    else if c == '\U{17F}' then 'S'
    else c
  }

  /** `strings.ToUpper`, character by character. */
  function ToUpper(s: string): (r: string)
    ensures |r| == |s|
  {
    seq(|s|, i requires 0 <= i < |s| => UpperRune(s[i]))
  }

  /** Upper-casing twice is upper-casing once. */
  lemma ToUpperIdempotent(s: string)
    ensures ToUpper(ToUpper(s)) == ToUpper(s)
  {
    assert forall i :: 0 <= i < |s| ==> ToUpper(ToUpper(s))[i] == ToUpper(s)[i];
  }

  /** Every character of `s` is an upper-case ASCII letter. */
  predicate AsciiUpper(s: string) {
    forall i :: 0 <= i < |s| ==> 'A' <= s[i] <= 'Z'
  }

  /** `c` is `C` itself, its lower-case ASCII letter, or the dotless i for 'I' or the long s for 'S'. */
  predicate LetterVariant(c: char, C: char) {
    c == C || ('A' <= C <= 'Z' && c == (C as int + 32) as char) ||
    (C == 'I' && c == '\U{131}') || (C == 'S' && c == '\U{17F}')
  }

  /** Reference definition of case-insensitive spelling: `s` spells `name` with each letter in either case. */
  ghost predicate CaseVariant(s: string, name: string) {
    |s| == |name| && forall i :: 0 <= i < |s| ==> LetterVariant(s[i], name[i])
  }

  /** Upper-casing any case variant of an upper-case name gives the name. */
  lemma UpperOfVariant(s: string, name: string)
    requires AsciiUpper(name) && CaseVariant(s, name)
    ensures ToUpper(s) == name
  {
    forall i | 0 <= i < |s|
      ensures ToUpper(s)[i] == name[i]
    {
      assert LetterVariant(s[i], name[i]);
    }
  }

  /** A text whose upper-case form is all ASCII letters is a case variant of that form. */
  lemma VariantOfUpper(s: string)
    requires AsciiUpper(ToUpper(s))
    ensures CaseVariant(s, ToUpper(s))
  {
    forall i | 0 <= i < |s|
      ensures LetterVariant(s[i], ToUpper(s)[i])
    {
      assert ToUpper(s)[i] == UpperRune(s[i]);
    }
  }
}
