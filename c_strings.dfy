/** Model of the C-string part of src/strings_demo.cpp: `combine3` (and its faulty
    sibling `combine2`), which size a heap `char` buffer and fill it with `strcpy` and
    `strcat`, and the `strcmp` comparison used by the `const char*` specialisation of
    `max` in src/templates_demo.cpp. A C string argument is given by its characters
    before the terminating NUL; a buffer is an `array<char>`. */
module CStrings {
  import Strings

  const NUL: char := '\0'

  /** `strlen`: the index of the first NUL in the buffer. */
  function StrLen(buf: seq<char>): (n: nat)
    requires NUL in buf
    ensures n < |buf| && buf[n] == NUL && NUL !in buf[..n]
  {
    if buf[0] == NUL then 0
    else
      assert buf == [buf[0]] + buf[1..];
      var m := StrLen(buf[1..]);
      assert buf[..m + 1] == [buf[0]] + buf[1..][..m];
      m + 1
  }

  /** A buffer that starts with the characters of p and a NUL holds the C string p. */
  lemma StrLenOfTerminated(p: string, buf: seq<char>)
    requires NUL !in p && |p| < |buf| && buf[..|p| + 1] == p + [NUL]
    ensures NUL in buf && StrLen(buf) == |p|
  {
    assert buf[|p|] == NUL;
    assert forall i :: 0 <= i < |p| ==> buf[i] == p[i];
  }

  /** Writes the characters of src and a terminating NUL into dst from index `at`:
      the copy loop shared by `strcpy` and `strcat`. */
  method WriteTerminated(dst: array<char>, at: nat, src: string)
    requires NUL !in src && at + |src| < dst.Length
    modifies dst
    ensures dst[..] == old(dst[..at]) + src + [NUL] + old(dst[at + |src| + 1..])
  {
    var k := 0;
    while k < |src|
      invariant 0 <= k <= |src|
      invariant forall j :: 0 <= j < at ==> dst[j] == old(dst[j])
      invariant forall j :: 0 <= j < k ==> dst[at + j] == src[j]
      invariant forall j :: at + k <= j < dst.Length ==> dst[j] == old(dst[j])
    {
      dst[at + k] := src[k];
      k := k + 1;
    }
    dst[at + |src|] := NUL;
    assert dst[..] == old(dst[..at]) + src + [NUL] + old(dst[at + |src| + 1..]);
  }

  /** The room `strcpy(dst, src)` needs: the characters and the NUL. */
  predicate StrcpyFits(buf: seq<char>, src: string)
  {
    |src| + 1 <= |buf|
  }

  /** The room `strcat(dst, src)` needs: dst holds a C string, and after it there is
      space for the characters of src and the NUL. */
  predicate StrcatFits(buf: seq<char>, src: string)
  {
    NUL in buf && StrLen(buf) + |src| + 1 <= |buf|
  }

  /** `strcpy(dst, src)`: dst starts with src and a NUL; the rest is untouched. */
  method Strcpy(dst: array<char>, src: string)
    requires NUL !in src && StrcpyFits(dst[..], src)
    modifies dst
    ensures dst[..] == src + [NUL] + old(dst[|src| + 1..])
  {
    WriteTerminated(dst, 0, src);
  }

  /** `strcat(dst, src)`: src and a NUL overwrite dst from its terminating NUL on. */
  method Strcat(dst: array<char>, src: string)
    requires NUL !in src && StrcatFits(dst[..], src)
    modifies dst
    ensures var n := StrLen(old(dst[..]));
      dst[..] == old(dst[..n]) + src + [NUL] + old(dst[n + |src| + 1..])
  {
    WriteTerminated(dst, StrLen(dst[..]), src);
  }

  /** The buffer size `combine3` allocates: strlen(name) + strlen(" ") + strlen(surname) + 1. */
  function Combine3Size(name: string, surname: string): nat
  {
    |name| + |" "| + |surname| + 1
  }

  /** The buffer size `combine2` allocates: the same sum without the + 1 for the NUL. */
  function Combine2Size(name: string, surname: string): nat
  {
    |name| + |" "| + |surname|
  }

  /** `const char* combine3(const char* name, const char* surname)`: every write of
      its `strcpy` and `strcat` calls stays inside the fresh buffer, which ends up
      holding the name, a space, the surname and the NUL, exactly filled: the
      std::string `combine` followed by the terminator. */
  method Combine3(name: string, surname: string) returns (combined: array<char>)
    requires NUL !in name && NUL !in surname
    ensures fresh(combined) && combined.Length == Combine3Size(name, surname)
    ensures combined[..] == Strings.Combine(name, surname) + [NUL]
  {
    combined := new char[Combine3Size(name, surname)];
    Strcpy(combined, name);
    StrLenOfTerminated(name, combined[..]);
    Strcat(combined, " ");
    assert combined[..|name| + 2] == name + " " + [NUL];
    StrLenOfTerminated(name + " ", combined[..]);
    ghost var before := combined[..];
    Strcat(combined, surname);
    assert before[..|name| + 1] == name + " ";
    assert combined[..] == (name + " ") + surname + [NUL];
  }

  /** `combine2` as written: once `strcpy(combined, name)` and `strcat(combined, " ")`
      have run, the buffer has no room left for `strcat(combined, surname)`: every
      character of surname fits, but its terminating NUL would land at index |buf|,
      exactly one past the end of the buffer. */
  lemma Combine2LastStrcatOverflows(name: string, surname: string, buf: seq<char>)
    requires NUL !in name && NUL !in surname
    requires |buf| == Combine2Size(name, surname)
    requires |name| + 2 <= |buf| && buf[..|name| + 2] == name + " " + [NUL]
    ensures !StrcatFits(buf, surname)
    ensures NUL in buf && StrLen(buf) + |surname| == |buf|
  {
    StrLenOfTerminated(name + " ", buf);
  }

  /** With an empty surname `combine2` already overflows at `strcat(combined, " ")`. */
  lemma Combine2EmptySurnameOverflows(name: string, buf: seq<char>)
    requires NUL !in name
    requires |buf| == Combine2Size(name, "")
    requires buf[..|name| + 1] == name + [NUL]
    ensures !StrcatFits(buf, " ")
  {
    StrLenOfTerminated(name, buf);
  }

  /** `const char* combine2(const char* name, const char* surname)` as written: runs
      its calls on a fresh buffer of `Combine2Size` chars up to the first call that
      would write past the end, and returns the buffer as it stands then together
      with that call's position (1 for the `strcpy`, 2 and 3 for the two `strcat`s).
      With an empty surname it is `strcat(combined, " ")`; otherwise it is the final
      `strcat`, whose NUL alone would land one past the end. */
  method Combine2(name: string, surname: string) returns (combined: array<char>, overflowingCall: nat)
    requires NUL !in name && NUL !in surname
    ensures fresh(combined) && combined.Length == Combine2Size(name, surname)
    ensures overflowingCall == if surname == [] then 2 else 3
    ensures surname == [] ==> combined[..] == name + [NUL] && !StrcatFits(combined[..], " ")
    ensures surname != [] ==>
      combined[..|name| + 2] == name + " " + [NUL] && !StrcatFits(combined[..], surname) &&
      NUL in combined[..] && StrLen(combined[..]) + |surname| == combined.Length
  {
    combined := new char[Combine2Size(name, surname)];
    Strcpy(combined, name);
    if surname == [] {
      assert combined[..] == name + [NUL];
      Combine2EmptySurnameOverflows(name, combined[..]);
      overflowingCall := 2;
      return;
    }
    StrLenOfTerminated(name, combined[..]);
    Strcat(combined, " ");
    assert combined[..|name| + 2] == name + " " + [NUL];
    Combine2LastStrcatOverflows(name, surname, combined[..]);
    overflowingCall := 3;
  }

  /** The code of the character at the front of a C string; the NUL that ends it
      reads as 0. */
  function FrontCode(s: string): nat
  {
    if s == [] then 0 else s[0] as nat
  }

  /** `strcmp(s1, s2)`: compares character by character up to the first difference or
      the end of either string, and returns the difference of the character codes
      there; only its sign is meaningful. */
  function Strcmp(s1: string, s2: string): int
    requires NUL !in s1 && NUL !in s2
  {
    if s1 == [] || s2 == [] || s1[0] != s2[0] then FrontCode(s1) - FrontCode(s2)
    else Strcmp(s1[1..], s2[1..])
  }

  /** Lexicographic order on strings, stated independently of `strcmp`: a proper
      prefix comes first, otherwise the first differing character decides. */
  predicate LexLess(a: string, b: string)
  {
    (|a| < |b| && a == b[..|a|]) ||
    exists k :: 0 <= k < |a| && k < |b| && a[..k] == b[..k] && a[k] < b[k]
  }

  /** The sign of `strcmp` is the lexicographic order: negative exactly when s1 comes
      first, zero exactly when the strings are equal, and swapping the arguments
      negates the result. */
  lemma {:induction false} StrcmpIsLexicographic(s1: string, s2: string)
    requires NUL !in s1 && NUL !in s2
    ensures Strcmp(s1, s2) < 0 <==> LexLess(s1, s2)
    ensures Strcmp(s1, s2) == 0 <==> s1 == s2
    ensures Strcmp(s2, s1) == -Strcmp(s1, s2)
  {
    if s1 == [] || s2 == [] {
      if s1 == [] && s2 != [] {
        assert s2[0] != NUL;
        assert s1 == s2[..|s1|];
      } else if s1 != [] && s2 == [] {
        assert s1[0] != NUL;
        assert !LexLess(s1, s2);
      }
    } else if s1[0] != s2[0] {
      if s1[0] < s2[0] {
        assert s1[..0] == s2[..0];
      } else {
        if LexLess(s1, s2) {
          var k :| 0 <= k < |s1| && k < |s2| && s1[..k] == s2[..k] && s1[k] < s2[k];
          assert k != 0;
          assert s1[0] == s1[..k][0];
        }
      }
    } else {
      var t1, t2 := s1[1..], s2[1..];
      assert NUL !in t1 && NUL !in t2 by {
        assert forall i :: 0 <= i < |t1| ==> t1[i] == s1[i + 1];
        assert forall i :: 0 <= i < |t2| ==> t2[i] == s2[i + 1];
      }
      StrcmpIsLexicographic(t1, t2);
      assert s1 == [s1[0]] + t1 && s2 == [s2[0]] + t2;
      LexLessCons(s1[0], t1, t2);
    }
  }

  /** A common first character does not change the lexicographic order. */
  lemma LexLessCons(c: char, a: string, b: string)
    ensures LexLess([c] + a, [c] + b) <==> LexLess(a, b)
  {
    if LexLess(a, b) {
      LexLessConsIntro(c, a, b);
    }
    if LexLess([c] + a, [c] + b) {
      LexLessConsElim(c, a, b);
    }
  }

  lemma LexLessConsIntro(c: char, a: string, b: string)
    requires LexLess(a, b)
    ensures LexLess([c] + a, [c] + b)
  {
    var ca, cb := [c] + a, [c] + b;
    if |a| < |b| && a == b[..|a|] {
      assert ca == cb[..|ca|];
    } else {
      var k :| 0 <= k < |a| && k < |b| && a[..k] == b[..k] && a[k] < b[k];
      assert ca[..k + 1] == [c] + a[..k] && cb[..k + 1] == [c] + b[..k];
      assert ca[k + 1] == a[k] && cb[k + 1] == b[k];
    }
  }

  lemma LexLessConsElim(c: char, a: string, b: string)
    requires LexLess([c] + a, [c] + b)
    ensures LexLess(a, b)
  {
    var ca, cb := [c] + a, [c] + b;
    if |ca| < |cb| && ca == cb[..|ca|] {
      assert a == ca[1..] == cb[1..][..|a|] == b[..|a|];
    } else {
      var k :| 0 <= k < |ca| && k < |cb| && ca[..k] == cb[..k] && ca[k] < cb[k];
      assert k != 0;
      assert a[..k - 1] == ca[..k][1..] && b[..k - 1] == cb[..k][1..];
      assert a[k - 1] == ca[k] && b[k - 1] == cb[k];
    }
  }
}
