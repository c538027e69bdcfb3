/**
 * Character classes and string operations of Python's `str` and `re`
 * that the curriculum code relies on.
 */
module Text {

  /** `\d`, restricted to ASCII digits. */
  predicate IsDigit(c: char) { '0' <= c <= '9' }

  /** `\s` and `str.isspace`: the code points Python treats as whitespace. */
  predicate IsSpace(c: char) {
    ('\t' <= c <= '\r') || ('\U{1C}' <= c <= ' ') || c == '\U{85}' || c == '\U{A0}'
    || c == '\U{1680}' || ('\U{2000}' <= c <= '\U{200A}') || c == '\U{2028}' || c == '\U{2029}'
    || c == '\U{202F}' || c == '\U{205F}' || c == '\U{3000}'
  }

  predicate AllDigits(s: string) {
    forall k :: 0 <= k < |s| ==> IsDigit(s[k])
  }

  /**
   * End of the longest run of characters of one class starting at `i`:
   * the possessive `c*` of a regular expression.
   */
  function RunEnd(s: string, i: nat, inClass: char -> bool): (j: nat)
    requires i <= |s|
    decreases |s| - i
    ensures i <= j <= |s|
    ensures forall k :: i <= k < j ==> inClass(s[k])
    ensures j == |s| || !inClass(s[j])
  {
    if i == |s| || !inClass(s[i]) then i else RunEnd(s, i + 1, inClass)
  }

  lemma {:induction false} RunEndExact(s: string, i: nat, n: nat, inClass: char -> bool)
    requires i + n <= |s|
    requires forall k :: i <= k < i + n ==> inClass(s[k])
    requires i + n == |s| || !inClass(s[i + n])
    ensures RunEnd(s, i, inClass) == i + n
    decreases n
  {
    if n > 0 {
      RunEndExact(s, i + 1, n - 1, inClass);
    }
  }

  function DigitChar(n: nat): (c: char)
    requires n < 10
    ensures IsDigit(c)
  {
    (n + '0' as int) as char
  }

  /** `str(n)` for a natural number. */
  function NatStr(n: nat): (s: string)
    ensures |s| > 0 && AllDigits(s)
    ensures n < 10 <==> |s| == 1
  {
    if n < 10 then [DigitChar(n)] else NatStr(n / 10) + [DigitChar(n % 10)]
  }

  /** `int(s)` for a string of digits. */
  function NatOfDigits(s: string): (n: nat)
    requires AllDigits(s)
  {
    if s == [] then 0 else NatOfDigits(s[..|s| - 1]) * 10 + (s[|s| - 1] as int - '0' as int)
  }

  /** Parsing the decimal rendering gives the number back. */
  lemma {:induction false} NatStrRoundTrip(n: nat)
    ensures NatOfDigits(NatStr(n)) == n
  {
    if n >= 10 {
      var s := NatStr(n);
      assert s[..|s| - 1] == NatStr(n / 10);
      NatStrRoundTrip(n / 10);
    }
  }

  /** `str(n)` for any integer, with a leading `-` for negatives. */
  function IntStr(n: int): (s: string)
    ensures n >= 0 ==> s == NatStr(n)
    ensures n < 0 ==> s == "-" + NatStr(-n)
  {
    if n >= 0 then NatStr(n) else "-" + NatStr(-n)
  }

  /** `A` sits in `s` at position `i`, character by character. */
  predicate At(s: string, i: nat, A: string) {
    i + |A| <= |s| && forall k :: 0 <= k < |A| ==> s[i + k] == A[k]
  }

  /** Every character of a digit string placed in `s` is a digit there. */
  lemma DigitsAt(s: string, i: nat, A: string)
    requires At(s, i, A) && AllDigits(A)
    ensures forall j :: i <= j < i + |A| ==> IsDigit(s[j])
  {
    forall j | i <= j < i + |A| ensures IsDigit(s[j]) {
      assert s[i + (j - i)] == A[j - i];
    }
  }

  /** `sub in s`, Python's substring test. */
  predicate IsSubstringAt(s: string, sub: string, i: nat) {
    i + |sub| <= |s| && s[i..i + |sub|] == sub
  }

  function ContainsFrom(s: string, sub: string, i: nat): (b: bool)
    decreases |s| + 1 - i
    ensures b <==> exists k :: i <= k && IsSubstringAt(s, sub, k)
  {
    if i + |sub| > |s| then false
    else if IsSubstringAt(s, sub, i) then true
    else ContainsFrom(s, sub, i + 1)
  }

  predicate Contains(s: string, sub: string) {
    ContainsFrom(s, sub, 0)
  }

  /** `s.startswith(p)`. */
  predicate StartsWith(s: string, p: string) {
    |p| <= |s| && s[..|p|] == p
  }

  /** `s.replace(c, t)` for a one-character pattern. */
  function Replace(s: string, c: char, t: string): (r: string)
    ensures c !in t ==> c !in r
    ensures c !in s ==> r == s
    ensures forall x :: x in r ==> x in s || x in t
  {
    if s == [] then []
    else (if s[0] == c then t else [s[0]]) + Replace(s[1..], c, t)
  }

  /** `s.replace(c, "")`: the characters of `s` other than `c`, in order. */
  function Remove(s: string, c: char): (r: string)
    ensures c !in r
    ensures forall x :: x in r ==> x in s
  {
    Replace(s, c, "")
  }

  /** `s.rstrip()`. */
  function RStrip(s: string): (r: string)
  {
    if s != [] && IsSpace(s[|s| - 1]) then RStrip(s[..|s| - 1]) else s
  }

  /** `rstrip` keeps a prefix, ends on a non-space, and drops only spaces. */
  lemma {:induction false} RStripShape(s: string)
    ensures |RStrip(s)| <= |s| && RStrip(s) == s[..|RStrip(s)|]
    ensures RStrip(s) == [] || !IsSpace(RStrip(s)[|RStrip(s)| - 1])
    ensures forall k :: |RStrip(s)| <= k < |s| ==> IsSpace(s[k])
  {
    if s != [] && IsSpace(s[|s| - 1]) {
      RStripShape(s[..|s| - 1]);
    }
  }

  /** `sep.join(parts)`. */
  function Join(parts: seq<string>, sep: string): string
  {
    if parts == [] then ""
    else if |parts| == 1 then parts[0]
    else parts[0] + sep + Join(parts[1..], sep)
  }

  /** `s.rfind(c)` for a single character: the last index of `c`, or -1. */
  function RFind(s: string, c: char): (r: int)
    ensures -1 <= r < |s|
    ensures r >= 0 ==> s[r] == c
    ensures forall k :: r < k < |s| ==> s[k] != c
  {
    if s == [] then -1
    else if s[|s| - 1] == c then |s| - 1
    else RFind(s[..|s| - 1], c)
  }
}
