/**
 * A hand-written stand-in for the `re.search` calls of the source.
 *
 * A pattern is a `Matcher`: given the text and a start position it yields
 * the captured groups if the pattern matches there.  Matchers are built from
 * the blocks below, each of which consumes possessively (the longest run).
 * In every pattern the source uses, a repeated element is followed by an
 * element that cannot begin with a character the repetition consumes, so a
 * backtracking engine reaches the same match as this possessive one.
 * `Search` is `re.search`: the match at the leftmost start position.
 */
module Patterns {
  import opened Wrappers
  import opened Text

  type Matcher = (string, nat) -> Option<seq<string>>

  /** One literal character. */
  function Lit(s: string, i: nat, c: char): (r: Option<nat>)
    requires i <= |s|
    ensures r.Some? <==> i < |s| && s[i] == c
    ensures r.Some? ==> r.value == i + 1
  {
    if i < |s| && s[i] == c then Some(i + 1) else None
  }

  /** A literal word. */
  function Word(s: string, i: nat, w: string): (r: Option<nat>)
    requires i <= |s|
    ensures r.Some? <==> IsSubstringAt(s, w, i)
    ensures r.Some? ==> r.value == i + |w| <= |s|
  {
    if IsSubstringAt(s, w, i) then Some(i + |w|) else None
  }

  /** `\d+` when `max == 0`, `\d{1,max}` otherwise. */
  function Digits(s: string, i: nat, max: nat): (r: Option<nat>)
    requires i <= |s|
    ensures r.Some? <==> i < RunEnd(s, i, IsDigit) && (max == 0 || RunEnd(s, i, IsDigit) - i <= max)
    ensures r.Some? ==> r.value == RunEnd(s, i, IsDigit)
    ensures r.Some? ==> i < r.value <= |s| && AllDigits(s[i..r.value])
    ensures r.Some? ==> max == 0 || r.value - i <= max
  {
    var j := RunEnd(s, i, IsDigit);
    if i < j && (max == 0 || j - i <= max) then Some(j) else None
  }

  /** A digit string placed in a text and ended by a non-digit is one `\d` run. */
  lemma DigitsInside(s: string, i: nat, A: string, max: nat)
    requires At(s, i, A) && i + |A| < |s| && !IsDigit(s[i + |A|])
    requires A != [] && AllDigits(A) && (max == 0 || |A| <= max)
    ensures Digits(s, i, max) == Some(i + |A|)
    ensures s[i..i + |A|] == A
  {
    DigitsAt(s, i, A);
    RunEndExact(s, i, |A|, IsDigit);
  }

  /** `\s*`. */
  function Spaces(s: string, i: nat): (j: nat)
    requires i <= |s|
    ensures i <= j <= |s|
  {
    RunEnd(s, i, IsSpace)
  }

  /** `[...]+` over a class of characters. */
  function OneOrMore(s: string, i: nat, inClass: char -> bool): (r: Option<nat>)
    requires i <= |s|
    ensures r.Some? <==> i < |s| && inClass(s[i])
    ensures r.Some? ==> i < r.value <= |s|
  {
    var j := RunEnd(s, i, inClass);
    if i < j then Some(j) else None
  }

  /** `[...]`: exactly one character of a class. */
  function OneOf(s: string, i: nat, inClass: char -> bool): (r: Option<nat>)
    requires i <= |s|
    ensures r.Some? <==> i < |s| && inClass(s[i])
    ensures r.Some? ==> r.value == i + 1
  {
    if i < |s| && inClass(s[i]) then Some(i + 1) else None
  }

  /** `c?`. */
  function Optional(s: string, i: nat, c: char): (j: nat)
    requires i <= |s|
    ensures j == (if i < |s| && s[i] == c then i + 1 else i)
  {
    if i < |s| && s[i] == c then i + 1 else i
  }

  /** The leftmost start position at or after `i` where `m` matches. */
  function FirstMatchFrom(m: Matcher, s: string, i: nat): (r: Option<nat>)
    decreases |s| + 1 - i
    ensures r.Some? ==> i <= r.value <= |s| && m(s, r.value).Some?
    ensures r.Some? ==> forall k :: i <= k < r.value ==> m(s, k).None?
    ensures r.None? ==> forall k :: i <= k <= |s| ==> m(s, k).None?
  {
    if i > |s| then None
    else if m(s, i).Some? then Some(i)
    else FirstMatchFrom(m, s, i + 1)
  }

  /** `re.search(pattern, s)`: the groups of the leftmost match. */
  function Search(m: Matcher, s: string): (r: Option<seq<string>>)
    ensures r.Some? <==> exists k :: 0 <= k <= |s| && m(s, k).Some?
    ensures r.Some? ==> exists k :: 0 <= k <= |s| && m(s, k) == r && forall j :: 0 <= j < k ==> m(s, j).None?
  {
    match FirstMatchFrom(m, s, 0)
    case None => None
    case Some(k) => m(s, k)
  }

  /** Search at a position where the pattern matches, with none earlier. */
  lemma SearchFindsFirst(m: Matcher, s: string, k: nat)
    requires k <= |s| && m(s, k).Some?
    requires forall j :: 0 <= j < k ==> m(s, j).None?
    ensures Search(m, s) == m(s, k)
  {
    var r := FirstMatchFrom(m, s, 0);
    assert r.Some? && r.value == k;
  }

  /** A search that cannot succeed anywhere. */
  lemma SearchFails(m: Matcher, s: string)
    requires forall j :: 0 <= j <= |s| ==> m(s, j).None?
    ensures Search(m, s) == None
  {
  }

  /**
   * An ordered pattern list where the first pattern that matches wins:
   * its index and groups.
   */
  function FirstPattern(ms: seq<Matcher>, s: string): (r: Option<(nat, seq<string>)>)
    ensures r.Some? ==> r.value.0 < |ms| && Search(ms[r.value.0], s) == Some(r.value.1)
    ensures r.Some? ==> forall q :: 0 <= q < r.value.0 ==> Search(ms[q], s).None?
    ensures r.None? ==> forall q :: 0 <= q < |ms| ==> Search(ms[q], s).None?
  {
    if ms == [] then None
    else match Search(ms[0], s)
      case Some(g) => Some((0, g))
      case None =>
        match FirstPattern(ms[1..], s)
        case None => None
        case Some(r) => Some((r.0 + 1, r.1))
  }
}
