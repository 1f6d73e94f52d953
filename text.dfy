/** The string operations the components use: `toUpperCase`/`toLowerCase`
    on ASCII letters, `includes`, and the emptiness of `trim()`. */
module Text {

  function UpperChar(c: char): char
  {
    if 'a' <= c <= 'z' then (c as int - 32) as char else c
  }

  function LowerChar(c: char): char
  {
    if 'A' <= c <= 'Z' then (c as int + 32) as char else c
  }

  predicate IsLowerLetter(c: char)
  {
    'a' <= c <= 'z'
  }

  predicate IsUpperLetter(c: char)
  {
    'A' <= c <= 'Z'
  }

  /** `s.toUpperCase()` restricted to ASCII letters: no lower-case letter is
      left, each one becomes the letter 32 code points below it, and every
      other character stays where it was. */
  function ToUpper(s: string): (r: string)
    ensures |r| == |s|
    ensures forall i :: 0 <= i < |r| ==> !IsLowerLetter(r[i])
    ensures forall i :: 0 <= i < |s| && IsLowerLetter(s[i]) ==> r[i] as int == s[i] as int - 32
    ensures forall i :: 0 <= i < |s| && !IsLowerLetter(s[i]) ==> r[i] == s[i]
  {
    seq(|s|, i requires 0 <= i < |s| => UpperChar(s[i]))
  }

  /** `s.toLowerCase()` restricted to ASCII letters: no upper-case letter is
      left, each one becomes the letter 32 code points above it, and every
      other character stays where it was. */
  function ToLower(s: string): (r: string)
    ensures |r| == |s|
    ensures forall i :: 0 <= i < |r| ==> !IsUpperLetter(r[i])
    ensures forall i :: 0 <= i < |s| && IsUpperLetter(s[i]) ==> r[i] as int == s[i] as int + 32
    ensures forall i :: 0 <= i < |s| && !IsUpperLetter(s[i]) ==> r[i] == s[i]
  {
    seq(|s|, i requires 0 <= i < |s| => LowerChar(s[i]))
  }

  /** Upper-casing twice is upper-casing once, and likewise for lower-casing. */
  lemma CaseMappingIdempotent(s: string)
    ensures ToUpper(ToUpper(s)) == ToUpper(s)
    ensures ToLower(ToLower(s)) == ToLower(s)
  {
  }

  /** The two mappings forget the same thing: two texts that agree once
      upper-cased agree once lower-cased, so either one compares texts
      regardless of case. */
  lemma CaseMappingsAgree(s: string, t: string)
    ensures ToUpper(s) == ToUpper(t) <==> ToLower(s) == ToLower(t)
  {
    if ToUpper(s) == ToUpper(t) {
      assert forall i :: 0 <= i < |s| ==> ToLower(s)[i] == ToLower(t)[i] by {
        forall i | 0 <= i < |s| ensures ToLower(s)[i] == ToLower(t)[i] {
          assert ToUpper(s)[i] == ToUpper(t)[i];
        }
      }
    }
    if ToLower(s) == ToLower(t) {
      assert forall i :: 0 <= i < |s| ==> ToUpper(s)[i] == ToUpper(t)[i] by {
        forall i | 0 <= i < |s| ensures ToUpper(s)[i] == ToUpper(t)[i] {
          assert ToLower(s)[i] == ToLower(t)[i];
        }
      }
    }
  }

  /** `hay.includes(needle)`: `needle` occurs in `hay` at some position. */
  predicate Contains(hay: string, needle: string)
  {
    exists i | 0 <= i <= |hay| :: OccursAt(hay, needle, i)
  }

  predicate OccursAt(hay: string, needle: string, i: int)
  {
    0 <= i <= |hay| - |needle| && hay[i..i + |needle|] == needle
  }

  /** The characters `trim()` removes from either end (the ASCII ones). */
  predicate IsWhitespace(c: char)
  {
    c == ' ' || c == '\t' || c == '\n' || c == '\r' || c == '\U{000B}' || c == '\U{000C}'
  }

  /** `s.trim()` is the empty string. */
  predicate IsBlank(s: string)
  {
    forall i :: 0 <= i < |s| ==> IsWhitespace(s[i])
  }
}
