/** The Python string operations the serializers and forms apply to submitted
    text: `str.isspace` and `str.strip`. */
module Text {
  /** `str.isspace()` for one character: the ASCII whitespace and separator
      controls, NEL, NO-BREAK SPACE and the Unicode space and line/paragraph
      separators. */
  predicate IsSpace(c: char) {
    var n := c as int;
    || n == 0x20 || (0x09 <= n <= 0x0D) || (0x1C <= n <= 0x1F)
    || n == 0x85 || n == 0xA0 || n == 0x1680 || (0x2000 <= n <= 0x200A)
    || n == 0x2028 || n == 0x2029 || n == 0x202F || n == 0x205F || n == 0x3000
  }

  /** A string with no whitespace at either end. */
  predicate IsStripped(s: string) {
    s == "" || (!IsSpace(s[0]) && !IsSpace(s[|s| - 1]))
  }

  /** The framework's text fields refuse U+0000 (after trimming, which never
      removes it, since it is not whitespace). */
  predicate NoNullCharacter(s: string) {
    '\0' !in s
  }

  /** Every character of `s` is whitespace (vacuously so for `""`). */
  predicate AllSpace(s: string) {
    forall k :: 0 <= k < |s| ==> IsSpace(s[k])
  }

  /** `s.strip()`: a whitespace-only text strips to `""`. */
  function Strip(s: string): (r: string)
    ensures IsStripped(r)
    ensures |r| <= |s|
    ensures IsStripped(s) ==> r == s
    ensures r == "" <==> AllSpace(s)
  {
    if s != "" && IsSpace(s[0]) then
      assert forall k :: 1 <= k < |s| ==> s[1..][k - 1] == s[k];
      Strip(s[1..])
    else if s != "" && IsSpace(s[|s| - 1]) then
      assert forall k :: 0 <= k < |s| - 1 ==> s[..|s| - 1][k] == s[k];
      Strip(s[..|s| - 1])
    else s
  }

  lemma AllSpaceAppend(a: string, b: string)
    requires AllSpace(a) && AllSpace(b)
    ensures AllSpace(a + b)
  {
    assert forall k :: 0 <= k < |a + b| ==> (a + b)[k] == if k < |a| then a[k] else b[k - |a|];
  }

  /** Peeling a leading space: the bounds found in `s[1..]` shift by one. */
  lemma ShiftPastLeadingSpace(s: string, i: nat, j: nat)
    requires s != "" && IsSpace(s[0]) && i <= j <= |s| - 1
    requires AllSpace(s[1..][..i]) && AllSpace(s[1..][j..])
    ensures s[1..][i..j] == s[i + 1..j + 1]
    ensures AllSpace(s[..i + 1]) && AllSpace(s[j + 1..])
  {
    assert s[..i + 1] == [s[0]] + s[1..][..i];
    assert s[j + 1..] == s[1..][j..];
    AllSpaceAppend([s[0]], s[1..][..i]);
  }

  /** Peeling a trailing space: the bounds found in `s[..|s| - 1]` still hold. */
  lemma KeepBeforeTrailingSpace(s: string, i: nat, j: nat)
    requires s != "" && IsSpace(s[|s| - 1]) && i <= j <= |s| - 1
    requires AllSpace(s[..|s| - 1][..i]) && AllSpace(s[..|s| - 1][j..])
    ensures s[..|s| - 1][i..j] == s[i..j]
    ensures AllSpace(s[..i]) && AllSpace(s[j..])
  {
    var t := s[..|s| - 1];
    assert s[..i] == t[..i];
    assert s[j..] == t[j..] + [s[|s| - 1]];
    AllSpaceAppend(t[j..], [s[|s| - 1]]);
  }

  /** What `strip` keeps: the text between the leading and the trailing run of
      whitespace, both of which it removes entirely. */
  lemma {:induction false} StripInfix(s: string) returns (i: nat, j: nat)
    ensures i <= j <= |s|
    ensures Strip(s) == s[i..j]
    ensures AllSpace(s[..i]) && AllSpace(s[j..])
  {
    if s != "" && IsSpace(s[0]) {
      var i', j' := StripInfix(s[1..]);
      ShiftPastLeadingSpace(s, i', j');
      i, j := i' + 1, j' + 1;
    } else if s != "" && IsSpace(s[|s| - 1]) {
      i, j := StripInfix(s[..|s| - 1]);
      KeepBeforeTrailingSpace(s, i, j);
    } else {
      i, j := 0, |s|;
      assert s[..0] == "" && s[|s|..] == "";
    }
  }

  /** Stripping removes characters and adds none. */
  lemma StripIsInfix(s: string)
    ensures forall c :: c in Strip(s) ==> c in s
  {
    var i, j := StripInfix(s);
    assert forall k :: 0 <= k < j - i ==> s[i..j][k] == s[i + k];
  }
}
