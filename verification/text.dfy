/** The handful of JavaScript string operations the handlers rely on:
    `s || fallback` on a nullable string, `trim`, `toLowerCase`, and the
    decimal rendering of a non-negative integer. */
module Text {
  import opened Wrappers

  /** JavaScript `s || fallback` on a nullable string: null and the empty
      string are both falsy and fall back. */
  function OrElse(s: Option<string>, fallback: string): (r: string)
    ensures s.Some? && s.value != "" ==> r == s.value
    ensures s.None? || s.value == "" ==> r == fallback
  {
    if s.Some? && s.value != "" then s.value else fallback
  }

  /** The characters `String.prototype.trim` strips that the model knows:
      space, tab, the line terminators, vertical tab, form feed, no-break
      space and the byte-order mark. */
  predicate IsWhitespace(c: char) {
    c == ' ' || c == '\t' || c == '\n' || c == '\r' || c == '\U{000B}' || c == '\U{000C}'
    || c == '\U{00A0}' || c == '\U{FEFF}' || c == '\U{2028}' || c == '\U{2029}'
  }

  predicate IsBlank(s: string) {
    forall i :: 0 <= i < |s| ==> IsWhitespace(s[i])
  }

  /** `s` with its leading whitespace removed. */
  function TrimStart(s: string): (r: string)
    ensures |r| <= |s| && r == s[|s| - |r|..]
    ensures r == [] || !IsWhitespace(r[0])
    ensures IsBlank(s[..|s| - |r|])
  {
    if s != [] && IsWhitespace(s[0]) then
      var rest := TrimStart(s[1..]);
      assert s[..|s| - |rest|] == [s[0]] + s[1..][..|s| - 1 - |rest|];
      rest
    else s
  }

  /** `s` with its trailing whitespace removed. */
  function TrimEnd(s: string): (r: string)
    ensures |r| <= |s| && r == s[..|r|]
    ensures r == [] || !IsWhitespace(r[|r| - 1])
    ensures IsBlank(s[|r|..])
  {
    if s != [] && IsWhitespace(s[|s| - 1]) then
      var rest := TrimEnd(s[..|s| - 1]);
      assert s[|rest|..] == s[..|s| - 1][|rest|..] + [s[|s| - 1]];
      rest
    else s
  }

  /** How many whitespace characters `s` starts with. */
  function LeadingBlanks(s: string): (k: nat)
    ensures k <= |s| && IsBlank(s[..k])
    ensures k < |s| ==> !IsWhitespace(s[k])
  {
    |s| - |TrimStart(s)|
  }

  /** `String.prototype.trim`: the result is the part of `s` between a
      blank prefix and a blank suffix, and neither of its ends is
      whitespace. */
  function Trim(s: string): (r: string)
    ensures LeadingBlanks(s) + |r| <= |s|
    ensures r == s[LeadingBlanks(s)..LeadingBlanks(s) + |r|]
    ensures IsBlank(s[LeadingBlanks(s) + |r|..])
    ensures r == [] || (!IsWhitespace(r[0]) && !IsWhitespace(r[|r| - 1]))
  {
    var front := TrimStart(s);
    var k := |s| - |front|;
    assert k == LeadingBlanks(s);
    var r := TrimEnd(front);
    assert front == s[k..];
    assert r == front[..|r|];
    assert s[k..k + |r|] == front[..|r|];
    assert s[k + |r|..] == front[|r|..];
    r
  }

  /** A string trims to empty exactly when it is all whitespace. */
  lemma TrimEmptyIffBlank(s: string)
    ensures Trim(s) == [] <==> IsBlank(s)
  {
    var k := LeadingBlanks(s);
    if Trim(s) == [] {
      assert s == s[..k] + s[k..];
    } else if k < |s| {
      assert s[k] == Trim(s)[0];
    }
  }

  /** `toLowerCase` on one character, for the ASCII letters. */
  function LowerChar(c: char): (d: char)
    ensures 'A' <= c <= 'Z' ==> 'a' <= d <= 'z' && d as int - c as int == 32
    ensures !('A' <= c <= 'Z') ==> d == c
    ensures !('A' <= d <= 'Z')
  {
    if 'A' <= c <= 'Z' then (c as int + 32) as char else c
  }

  /** `String.prototype.toLowerCase`, restricted to the ASCII letters. */
  function ToLower(s: string): (r: string)
    ensures |r| == |s|
    ensures forall i :: 0 <= i < |s| ==> r[i] == LowerChar(s[i])
  {
    seq(|s|, i requires 0 <= i < |s| => LowerChar(s[i]))
  }

  /** Lowercasing never turns whitespace into text or text into whitespace. */
  lemma LowerCharKeepsWhitespace(c: char)
    ensures IsWhitespace(LowerChar(c)) <==> IsWhitespace(c)
  {
    if 'A' <= c <= 'Z' {
      assert 'a' <= LowerChar(c) <= 'z';
    }
  }

  /** Lowercasing keeps a string blank or not blank. */
  lemma LowerKeepsBlank(s: string)
    ensures IsBlank(ToLower(s)) <==> IsBlank(s)
  {
    var r := ToLower(s);
    forall i | 0 <= i < |s|
      ensures IsWhitespace(r[i]) <==> IsWhitespace(s[i])
    {
      LowerCharKeepsWhitespace(s[i]);
    }
  }

  /** A lowercased copy `r` of `s`. */
  predicate LowerCopy(s: string, r: string) {
    |r| == |s| && forall i :: 0 <= i < |s| ==> r[i] == LowerChar(s[i])
  }

  /** A lowercased copy has whitespace at the same positions. */
  lemma LowerCopySameWhitespace(s: string, r: string)
    requires LowerCopy(s, r)
    ensures forall i :: 0 <= i < |s| ==> (IsWhitespace(r[i]) <==> IsWhitespace(s[i]))
  {
    forall i | 0 <= i < |s|
      ensures IsWhitespace(r[i]) <==> IsWhitespace(s[i])
    {
      LowerCharKeepsWhitespace(s[i]);
    }
  }

  /** A lowercased copy starts with the same number of blanks. */
  lemma LowerCopyLeadingBlanks(s: string, r: string)
    requires LowerCopy(s, r)
    ensures LeadingBlanks(r) == LeadingBlanks(s)
  {
    LowerCopySameWhitespace(s, r);
  }

  /** A blank tail of `r` is a blank tail of any `s` with whitespace at
      the same positions. */
  lemma BlankTailCarries(s: string, r: string, a: nat)
    requires |r| == |s| && a <= |s|
    requires forall i :: 0 <= i < |s| ==> (IsWhitespace(r[i]) <==> IsWhitespace(s[i]))
    requires IsBlank(r[a..])
    ensures IsBlank(s[a..])
  {
    forall i | 0 <= i < |s| - a
      ensures IsWhitespace(s[a..][i])
    {
      assert r[a..][i] == r[a + i];
    }
  }

  /** Trimming a lowercased copy keeps the same characters as trimming the
      string itself, each lowercased: the same number of leading blanks is
      skipped, and what follows the kept part is blank. */
  lemma TrimOfLower(s: string, r: string)
    requires LowerCopy(s, r)
    ensures var t := Trim(r);
            var k := LeadingBlanks(s);
            k + |t| <= |s|
            && (forall i :: 0 <= i < |t| ==> t[i] == LowerChar(s[k + i]))
            && IsBlank(s[k + |t|..])
  {
    LowerCopyLeadingBlanks(s, r);
    LowerCopySameWhitespace(s, r);
    BlankTailCarries(s, r, LeadingBlanks(s) + |Trim(r)|);
  }

  predicate IsDigit(c: char) {
    '0' <= c <= '9'
  }

  /** The decimal text of `n`, as `String(n)` writes a non-negative integer. */
  function DecimalText(n: nat): string {
    var last := ['0' + (n % 10) as char];
    if n < 10 then last else DecimalText(n / 10) + last
  }

  /** The decimal rendering of `n` is a non-empty run of digits that reads
      back as `n`. */
  lemma {:induction false} DecimalTextReadsBack(n: nat)
    ensures DecimalText(n) != []
    ensures forall i :: 0 <= i < |DecimalText(n)| ==> IsDigit(DecimalText(n)[i])
    ensures DigitsValue(DecimalText(n)) == n
  {
    var r := DecimalText(n);
    var last := ['0' + (n % 10) as char];
    if n >= 10 {
      var front := DecimalText(n / 10);
      DecimalTextReadsBack(n / 10);
      assert r == front + last;
      assert r[..|r| - 1] == front;
    }
  }

  function DigitsValue(s: string): nat
    requires forall i :: 0 <= i < |s| ==> IsDigit(s[i])
  {
    if s == [] then 0
    else
      assert IsDigit(s[|s| - 1]);
      10 * DigitsValue(s[..|s| - 1]) + (s[|s| - 1] as int - '0' as int) as nat
  }
}
