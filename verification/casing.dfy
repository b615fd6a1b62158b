/**
 The generator's two string helpers, `lowercase` and `capitalize`: each changes the
 first character of a non-empty string and keeps the rest. Case mapping is modelled
 for the ASCII letters only.
 */
module Casing {

  predicate IsUpper(c: char) { 'A' <= c <= 'Z' }

  predicate IsLower(c: char) { 'a' <= c <= 'z' }

  function ToLower(c: char): char
  {
    if IsUpper(c) then (c as int + 32) as char else c
  }

  function ToUpper(c: char): char
  {
    if IsLower(c) then (c as int - 32) as char else c
  }

  /** `lowercase(string)`: the first character in lower case, the rest unchanged.
      The source takes `substring(0, 1)`, which throws on the empty string. */
  function Lowercase(s: string): (r: string)
    requires |s| > 0
    ensures |r| == |s| && r[1..] == s[1..]
    ensures !IsUpper(r[0])
    ensures IsUpper(s[0]) ==> IsLower(r[0]) && ToUpper(r[0]) == s[0]
    ensures !IsUpper(s[0]) ==> r == s
  {
    [ToLower(s[0])] + s[1..]
  }

  /** `capitalize(string)`: the first character in upper case, the rest unchanged. */
  function Capitalize(s: string): (r: string)
    requires |s| > 0
    ensures |r| == |s| && r[1..] == s[1..]
    ensures !IsLower(r[0])
    ensures IsLower(s[0]) ==> IsUpper(r[0]) && ToLower(r[0]) == s[0]
    ensures !IsLower(s[0]) ==> r == s
  {
    [ToUpper(s[0])] + s[1..]
  }

  /** Lower-casing a capitalised lower-initial string gives the string back. */
  lemma LowercaseUndoesCapitalize(s: string)
    requires |s| > 0 && !IsUpper(s[0])
    ensures Lowercase(Capitalize(s)) == s
  {
    var c := Capitalize(s);
    assert Lowercase(c)[1..] == s[1..];
    assert Lowercase(c)[0] == s[0];
  }

  /** Capitalising a lower-cased upper-initial string gives the string back. */
  lemma CapitalizeUndoesLowercase(s: string)
    requires |s| > 0 && !IsLower(s[0])
    ensures Capitalize(Lowercase(s)) == s
  {
    var l := Lowercase(s);
    assert Capitalize(l)[1..] == s[1..];
    assert Capitalize(l)[0] == s[0];
  }

  /** `capitalize` is injective on strings that do not start with an upper-case
      letter, which is every result of `lowercase`. */
  lemma CapitalizeInjective(a: string, b: string)
    requires |a| > 0 && |b| > 0 && !IsUpper(a[0]) && !IsUpper(b[0])
    requires Capitalize(a) == Capitalize(b)
    ensures a == b
  {
    LowercaseUndoesCapitalize(a);
    LowercaseUndoesCapitalize(b);
  }
}
