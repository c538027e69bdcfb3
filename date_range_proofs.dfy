/**
 * What `parse_date_range` yields on the two normalised shapes the link
 * parser produces (weekly_curriculum_manager.py:347-379).
 */
module DateRangeProofs {
  import opened Wrappers
  import opened Dates
  import opened Text
  import opened Patterns
  import opened LinkParsing

  /** "M월D1일~D2일". */
  function SameMonthText(m: nat, d1: nat, d2: nat): string {
    NatStr(m) + "월" + NatStr(d1) + "일~" + NatStr(d2) + "일"
  }

  /** "M1월D1일~M2월D2일". */
  function CrossMonthText(m1: nat, d1: nat, m2: nat, d2: nat): string {
    NatStr(m1) + "월" + NatStr(d1) + "일~" + NatStr(m2) + "월" + NatStr(d2) + "일"
  }

  lemma ShortNumber(n: nat)
    requires n < 100
    ensures 1 <= |NatStr(n)| <= 2
  {
  }

  predicate IsShortNumber(A: string) { 1 <= |A| <= 2 && AllDigits(A) }

  /** Where each piece of the same-month text sits. */
  lemma SameMonthLayout(s: string, A: string, B: string, C: string)
    requires s == A + "월" + B + "일~" + C + "일"
    ensures var a := |A|; var c := a + 1 + |B|; var f := c + 2 + |C|;
      |s| == f + 1 && At(s, 0, A) && s[a] == '월' && At(s, a + 1, B) && s[c] == '일'
      && s[c + 1] == '~' && At(s, c + 2, C) && s[f] == '일'
  {
  }

  /** Where each piece of the cross-month text sits. */
  lemma CrossMonthLayout(s: string, A: string, B: string, C: string, D: string)
    requires s == A + "월" + B + "일~" + C + "월" + D + "일"
    ensures var a := |A|; var c := a + 1 + |B|; var f := c + 2 + |C|; var h := f + 1 + |D|;
      |s| == h + 1 && At(s, 0, A) && s[a] == '월' && At(s, a + 1, B) && s[c] == '일'
      && s[c + 1] == '~' && At(s, c + 2, C) && s[f] == '월' && At(s, f + 1, D) && s[h] == '일'
  {
  }

  lemma CompactSameMonthMatches(s: string, A: string, B: string, C: string)
    requires IsShortNumber(A) && IsShortNumber(B) && IsShortNumber(C)
    requires var a := |A|; var c := a + 1 + |B|; var f := c + 2 + |C|;
      |s| == f + 1 && At(s, 0, A) && s[a] == '월' && At(s, a + 1, B) && s[c] == '일'
      && s[c + 1] == '~' && At(s, c + 2, C) && s[f] == '일'
    ensures CompactSameMonth(s, 0) == Some([A, B, C])
  {
    var a := |A|;
    var c := a + 1 + |B|;
    var f := c + 2 + |C|;
    DigitsInside(s, 0, A, 2);
    DigitsInside(s, a + 1, B, 2);
    DigitsInside(s, c + 2, C, 2);
    assert Lit(s, a, '월') == Some(a + 1);
    assert Lit(s, c, '일') == Some(c + 1);
    assert Lit(s, c + 1, '~') == Some(c + 2);
    assert Lit(s, f, '일') == Some(f + 1);
  }

  lemma ParseSameMonthForm(year: int, m: nat, d1: nat, d2: nat)
    requires m < 100 && d1 < 100 && d2 < 100
    ensures ParseDateRange(SameMonthText(m, d1, d2), year)
      == if IsValid(Date(year, m, d1)) && IsValid(Date(year, m, d2))
         then Some((Date(year, m, d1), Date(year, m, d2))) else None
  {
    var A, B, C := NatStr(m), NatStr(d1), NatStr(d2);
    var s := SameMonthText(m, d1, d2);
    ShortNumber(m); ShortNumber(d1); ShortNumber(d2);
    SameMonthLayout(s, A, B, C);
    CompactSameMonthMatches(s, A, B, C);
    SearchFindsFirst(CompactSameMonth, s, 0);
    NatStrRoundTrip(m); NatStrRoundTrip(d1); NatStrRoundTrip(d2);
  }

  lemma CompactCrossMonthMatches(s: string, A: string, B: string, C: string, D: string)
    requires IsShortNumber(A) && IsShortNumber(B) && IsShortNumber(C) && IsShortNumber(D)
    requires var a := |A|; var c := a + 1 + |B|; var f := c + 2 + |C|; var h := f + 1 + |D|;
      |s| == h + 1 && At(s, 0, A) && s[a] == '월' && At(s, a + 1, B) && s[c] == '일'
      && s[c + 1] == '~' && At(s, c + 2, C) && s[f] == '월' && At(s, f + 1, D) && s[h] == '일'
    ensures CompactCrossMonth(s, 0) == Some([A, B, C, D])
  {
    var a := |A|;
    var c := a + 1 + |B|;
    var f := c + 2 + |C|;
    var h := f + 1 + |D|;
    DigitsInside(s, 0, A, 2);
    DigitsInside(s, a + 1, B, 2);
    DigitsInside(s, c + 2, C, 2);
    DigitsInside(s, f + 1, D, 2);
    assert Lit(s, a, '월') == Some(a + 1);
    assert Lit(s, c, '일') == Some(c + 1);
    assert Lit(s, c + 1, '~') == Some(c + 2);
    assert Lit(s, f, '월') == Some(f + 1);
    assert Lit(s, h, '일') == Some(h + 1);
  }

  /** A same-month match needs a tilde followed by digits and the day mark. */
  lemma SameMonthNeedsDayAfterTilde(s: string, k: nat, t: nat)
    requires CompactSameMonth(s, k).Some?
    requires forall j :: 0 <= j < |s| && s[j] == '~' ==> j == t
    ensures t + 1 <= |s| && RunEnd(s, t + 1, IsDigit) < |s| && s[RunEnd(s, t + 1, IsDigit)] == '일'
  {
    var a := Digits(s, k, 2).value;
    var b := Lit(s, a, '월').value;
    var c := Digits(s, b, 2).value;
    var d := Lit(s, c, '일').value;
    var e := Lit(s, d, '~').value;
    assert s[d] == '~';
    var f := Digits(s, e, 2).value;
    assert Lit(s, f, '일').Some?;
  }

  /** In the cross-month text the only tilde sits after the first day. */
  lemma CrossMonthTildeUnique(s: string, A: string, B: string, C: string, D: string)
    requires IsShortNumber(A) && IsShortNumber(B) && IsShortNumber(C) && IsShortNumber(D)
    requires var a := |A|; var c := a + 1 + |B|; var f := c + 2 + |C|; var h := f + 1 + |D|;
      |s| == h + 1 && At(s, 0, A) && s[a] == '월' && At(s, a + 1, B) && s[c] == '일'
      && s[c + 1] == '~' && At(s, c + 2, C) && s[f] == '월' && At(s, f + 1, D) && s[h] == '일'
    ensures forall j :: 0 <= j < |s| && s[j] == '~' ==> j == |A| + |B| + 2
  {
    var a := |A|;
    var c := a + 1 + |B|;
    var f := c + 2 + |C|;
    var h := f + 1 + |D|;
    DigitsAt(s, 0, A);
    DigitsAt(s, a + 1, B);
    DigitsAt(s, c + 2, C);
    DigitsAt(s, f + 1, D);
    forall j | 0 <= j < |s| && s[j] == '~' ensures j == c + 1 {
      if j < a {
      } else if a < j < c {
      } else if c + 1 < j < f {
      } else if f < j < h {
      }
    }
  }

  /** The same-month pattern, tried first, finds nothing in a cross-month text. */
  lemma CrossMonthIsNotSameMonth(s: string, A: string, B: string, C: string, D: string)
    requires IsShortNumber(A) && IsShortNumber(B) && IsShortNumber(C) && IsShortNumber(D)
    requires var a := |A|; var c := a + 1 + |B|; var f := c + 2 + |C|; var h := f + 1 + |D|;
      |s| == h + 1 && At(s, 0, A) && s[a] == '월' && At(s, a + 1, B) && s[c] == '일'
      && s[c + 1] == '~' && At(s, c + 2, C) && s[f] == '월' && At(s, f + 1, D) && s[h] == '일'
    ensures Search(CompactSameMonth, s) == None
  {
    CrossMonthTildeUnique(s, A, B, C, D);
    DigitsInside(s, |A| + |B| + 3, C, 2);
    forall k | 0 <= k <= |s| ensures CompactSameMonth(s, k).None? {
      if CompactSameMonth(s, k).Some? {
        SameMonthNeedsDayAfterTilde(s, k, |A| + |B| + 2);
      }
    }
    SearchFails(CompactSameMonth, s);
  }

  /**
   * `parse_date_range` on "M1월D1일~M2월D2일": both dates in `year`, as
   * written, or nothing when either date does not exist.
   */
  lemma ParseCrossMonthForm(year: int, m1: nat, d1: nat, m2: nat, d2: nat)
    requires m1 < 100 && d1 < 100 && m2 < 100 && d2 < 100
    ensures ParseDateRange(CrossMonthText(m1, d1, m2, d2), year) ==
      if IsValid(Date(year, m1, d1)) && IsValid(Date(year, m2, d2))
      then Some((Date(year, m1, d1), Date(year, m2, d2)))
      else None
  {
    var A, B, C, D := NatStr(m1), NatStr(d1), NatStr(m2), NatStr(d2);
    var s := CrossMonthText(m1, d1, m2, d2);
    ShortNumber(m1); ShortNumber(d1); ShortNumber(m2); ShortNumber(d2);
    CrossMonthLayout(s, A, B, C, D);
    CrossMonthIsNotSameMonth(s, A, B, C, D);
    CompactCrossMonthMatches(s, A, B, C, D);
    SearchFindsFirst(CompactCrossMonth, s, 0);
    NatStrRoundTrip(m1); NatStrRoundTrip(d1); NatStrRoundTrip(m2); NatStrRoundTrip(d2);
  }

  /**
   * A December-to-January range keeps both dates in the same year, so its
   * end comes before its start.
   */
  lemma DecemberToJanuaryGoesBackwards(year: int)
    requires MinYear <= year <= MaxYear
    ensures var r := ParseDateRange(CrossMonthText(12, 29, 1, 4), year);
      r == Some((Date(year, 12, 29), Date(year, 1, 4))) && Before(r.value.1, r.value.0)
  {
    ParseCrossMonthForm(year, 12, 29, 1, 4);
  }
}
