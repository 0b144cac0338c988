/** Model of the `std::string` part of src/strings_demo.cpp: `combine` and the copying
    and in-place `ToUpper`/`ToLower`. Characters follow the "C" locale: `toupper` and
    `tolower` change only the ASCII letters. */
module Strings {
  import opened MachineInt

  /** `std::string combine(const std::string& name, const std::string& surname)`:
      the name, one space, then the surname. */
  function Combine(name: string, surname: string): (r: string)
    ensures |r| == |name| + |surname| + 1
    ensures r[..|name|] == name && r[|name|] == ' ' && r[|name| + 1..] == surname
  {
    name + " " + surname
  }

  predicate IsLower(c: char) { 'a' <= c <= 'z' }
  predicate IsUpper(c: char) { 'A' <= c <= 'Z' }

  /** `toupper`: a lower-case letter becomes upper-case; any other character,
      including ',' and ' ', is returned unchanged. */
  function ToUpperChar(c: char): (r: char)
    ensures r != c <==> IsLower(c)
    ensures IsLower(c) ==> IsUpper(r) && r as int - 'A' as int == c as int - 'a' as int
  {
    if IsLower(c) then (c as int - 32) as char else c
  }

  /** `tolower`: an upper-case letter becomes lower-case; any other character is
      returned unchanged. */
  function ToLowerChar(c: char): (r: char)
    ensures r != c <==> IsUpper(c)
    ensures IsUpper(c) ==> IsLower(r) && r as int - 'a' as int == c as int - 'A' as int
  {
    if IsUpper(c) then (c as int + 32) as char else c
  }

  /** The two character maps undo each other on letters. */
  lemma CaseRoundTrip(c: char)
    ensures IsLower(c) ==> ToLowerChar(ToUpperChar(c)) == c
    ensures IsUpper(c) ==> ToUpperChar(ToLowerChar(c)) == c
  {
  }

  /** Specification of both `ToUpper` overloads: character i of the result is
      `toupper` of character i of the input. */
  function UpperString(s: string): string
  {
    seq(|s|, i requires 0 <= i < |s| => ToUpperChar(s[i]))
  }

  /** Specification of both `ToLower` overloads. */
  function LowerString(s: string): string
  {
    seq(|s|, i requires 0 <= i < |s| => ToLowerChar(s[i]))
  }

  predicate HasNoLower(s: string) { forall i :: 0 <= i < |s| ==> !IsLower(s[i]) }
  predicate HasNoUpper(s: string) { forall i :: 0 <= i < |s| ==> !IsUpper(s[i]) }

  /** Converting to upper case twice is converting once; the result has no lower-case
      letter, and text without lower-case letters is left as it is. */
  lemma UpperStringIdempotent(s: string)
    ensures HasNoLower(UpperString(s))
    ensures UpperString(UpperString(s)) == UpperString(s)
    ensures HasNoLower(s) ==> UpperString(s) == s
  {
    var u := UpperString(s);
    assert forall i :: 0 <= i < |s| ==> u[i] == ToUpperChar(s[i]);
    if HasNoLower(s) {
      assert forall i :: 0 <= i < |s| ==> u[i] == s[i];
    }
  }

  /** Lowering text that has no lower-case letter gives text with no upper-case
      letter, and raising it again restores the original. */
  lemma LowerStringOfUpperText(s: string)
    requires HasNoLower(s)
    ensures HasNoUpper(LowerString(s))
    ensures UpperString(LowerString(s)) == s
  {
    var l := LowerString(s);
    forall i | 0 <= i < |s|
      ensures !IsUpper(l[i]) && ToUpperChar(l[i]) == s[i]
    {
      CaseRoundTrip(s[i]);
    }
  }

  /** `std::string ToUpper(const std::string &str)`: builds a new string of
      `str.length()` spaces and overwrites position i with `toupper(str[i])`. The
      counter is an `int`, so the length must not exceed the `int` range. */
  method ToUpper(str: string) returns (s: string)
    requires |str| <= MaxInt32
    ensures s == UpperString(str)
  {
    s := seq(|str|, _ => ' ');
    var i := 0;
    while i < |str|
      invariant 0 <= i <= |str| && |s| == |str|
      invariant forall k :: 0 <= k < i ==> s[k] == ToUpperChar(str[k])
    {
      s := s[i := ToUpperChar(str[i])];
      i := i + 1;
    }
  }

  /** `std::string ToLower(const std::string &str)`. */
  method ToLower(str: string) returns (s: string)
    requires |str| <= MaxInt32
    ensures s == LowerString(str)
  {
    s := seq(|str|, _ => ' ');
    var i := 0;
    while i < |str|
      invariant 0 <= i <= |str| && |s| == |str|
      invariant forall k :: 0 <= k < i ==> s[k] == ToLowerChar(str[k])
    {
      s := s[i := ToLowerChar(str[i])];
      i := i + 1;
    }
  }

  /** `void ToUpper(std::string &str)`: overwrites each character of the string's
      buffer in place; the length does not change and the result is the one the
      copying overload returns. */
  method ToUpperInPlace(str: array<char>)
    requires str.Length <= MaxInt32
    modifies str
    ensures str[..] == UpperString(old(str[..]))
  {
    var i := 0;
    while i < str.Length
      invariant 0 <= i <= str.Length
      invariant forall k :: 0 <= k < i ==> str[k] == ToUpperChar(old(str[k]))
      invariant forall k :: i <= k < str.Length ==> str[k] == old(str[k])
    {
      str[i] := ToUpperChar(str[i]);
      i := i + 1;
    }
  }

  /** `void ToLower(std::string &str)`. */
  method ToLowerInPlace(str: array<char>)
    requires str.Length <= MaxInt32
    modifies str
    ensures str[..] == LowerString(old(str[..]))
  {
    var i := 0;
    while i < str.Length
      invariant 0 <= i <= str.Length
      invariant forall k :: 0 <= k < i ==> str[k] == ToLowerChar(old(str[k]))
      invariant forall k :: i <= k < str.Length ==> str[k] == old(str[k])
    {
      str[i] := ToLowerChar(str[i]);
      i := i + 1;
    }
  }

  const LowerText: string := "originally, this was all in lower"
  const UpperText: string := "ORIGINALLY, THIS WAS ALL IN UPPER"

  /** The upper-case demo text has no lower-case letter. */
  lemma UpperTextHasNoLower()
    ensures HasNoLower(UpperText)
  {
  }

  /** What the demo prints for the lower-case text converted to upper case. */
  lemma UpperOfLowerText()
    ensures UpperString(LowerText) == "ORIGINALLY, THIS WAS ALL IN LOWER"
  {
  }

  /** What the demo prints for the upper-case text converted to lower case. */
  lemma LowerOfUpperText()
    ensures LowerString(UpperText) == "originally, this was all in upper"
  {
  }

  /** `test_string_conversion_functions()`: the in-place ToUpper on lower-case and on
      upper-case text, the copying ToUpper on lower-case text and the copying
      ToLower on upper-case text. Returns the four results: both ToUpper overloads
      agree on the lower-case text, ToUpper leaves the upper-case text as it is, and
      ToLower lowers it (raising it again restores it). */
  method TestStringConversionFunctions() returns (r1: string, r2: string, r3: string, r4: string)
    ensures r1 == r3 == UpperString(LowerText) == "ORIGINALLY, THIS WAS ALL IN LOWER"
    ensures HasNoLower(r1)
    ensures r2 == UpperText
    ensures r4 == LowerString(UpperText) == "originally, this was all in upper"
    ensures HasNoUpper(r4) && UpperString(r4) == UpperText
  {
    var s1 := new char[|LowerText|](i requires 0 <= i < |LowerText| => LowerText[i]);
    assert s1[..] == LowerText;
    ToUpperInPlace(s1);
    r1 := s1[..];
    var s2 := new char[|UpperText|](i requires 0 <= i < |UpperText| => UpperText[i]);
    assert s2[..] == UpperText;
    ToUpperInPlace(s2);
    r2 := s2[..];
    r3 := ToUpper(LowerText);
    r4 := ToLower(UpperText);
    UpperStringIdempotent(LowerText);
    UpperTextHasNoLower();
    UpperStringIdempotent(UpperText);
    LowerStringOfUpperText(UpperText);
    UpperOfLowerText();
    LowerOfUpperText();
  }
}
