/**
 * Report-year extraction from a file path (line 192): the leftmost match of
 * the pattern `(M)([1-9]\d{3,})(_)`, whose second group is read as a decimal
 * number. The source indexes the match without checking it; here a path
 * with no match yields `None`.
 */
module ReportYear {
  import opened Wrappers

  predicate IsDigit(c: char) { '0' <= c <= '9' }

  /** Length of the run of digits that starts at position i. */
  function DigitRun(s: string, i: nat): (n: nat)
    requires i <= |s|
    ensures i + n <= |s|
    ensures forall k :: i <= k < i + n ==> IsDigit(s[k])
    ensures i + n < |s| ==> !IsDigit(s[i + n])
    decreases |s| - i
  {
    if i < |s| && IsDigit(s[i]) then 1 + DigitRun(s, i + 1) else 0
  }

  /**
   * The pattern matches at position i: an `M`, a non-zero digit, at least
   * three more digits, then `_`. The `\d{3,}` repetition is greedy, but
   * giving a digit back never helps, since the character after it would be
   * a digit and not `_`; so the digits of the year are the whole run.
   */
  predicate MatchesAt(s: string, i: nat) {
    && i + 1 < |s|
    && s[i] == 'M'
    && '1' <= s[i + 1] <= '9'
    && DigitRun(s, i + 1) >= 4
    && i + 1 + DigitRun(s, i + 1) < |s|
    && s[i + 1 + DigitRun(s, i + 1)] == '_'
  }

  function DigitValue(c: char): nat
    requires IsDigit(c)
  {
    c as int - '0' as int
  }

  /** `int()` of a string of decimal digits. */
  function DecimalValue(ds: string): nat
    requires forall k :: 0 <= k < |ds| ==> IsDigit(ds[k])
  {
    if ds == [] then 0
    else DecimalValue(ds[..|ds| - 1]) * 10 + DigitValue(ds[|ds| - 1])
  }

  function Pow10(n: nat): (p: nat)
    ensures p >= 1
  {
    if n == 0 then 1 else 10 * Pow10(n - 1)
  }

  /** A digit string with a non-zero first digit is at least 10^(length - 1). */
  lemma {:induction false} DecimalValueLowerBound(ds: string)
    requires |ds| >= 1 && forall k :: 0 <= k < |ds| ==> IsDigit(ds[k])
    requires ds[0] != '0'
    ensures DecimalValue(ds) >= Pow10(|ds| - 1)
  {
    if |ds| > 1 {
      var init := ds[..|ds| - 1];
      assert init[0] == ds[0];
      DecimalValueLowerBound(init);
    } else {
      assert ds[..0] == [];
    }
  }

  lemma {:induction false} Pow10Monotone(m: nat, n: nat)
    requires m <= n
    ensures Pow10(m) <= Pow10(n)
    decreases n
  {
    if m < n {
      Pow10Monotone(m, n - 1);
    }
  }

  /** The year matched at position i. */
  function YearAt(s: string, i: nat): (y: int)
    requires MatchesAt(s, i)
    ensures y >= 1000
  {
    var digits := s[i + 1 .. i + 1 + DigitRun(s, i + 1)];
    DecimalValueLowerBound(digits);
    Pow10Monotone(3, |digits| - 1);
    DecimalValue(digits)
  }

  /** Leftmost match at or after position from. */
  function SearchFrom(s: string, from: nat): (r: Option<int>)
    requires from <= |s|
    ensures r.None? <==> forall i :: from <= i < |s| ==> !MatchesAt(s, i)
    ensures r.Some? ==> exists i :: from <= i < |s| && MatchesAt(s, i) && r.value == YearAt(s, i)
                          && forall j :: from <= j < i ==> !MatchesAt(s, j)
    decreases |s| - from
  {
    if from == |s| then None
    else if MatchesAt(s, from) then Some(YearAt(s, from))
    else SearchFrom(s, from + 1)
  }

  /**
   * The report year of a path: the digits after the first `M` that starts a
   * match, read as a number; `None` when nothing in the path matches.
   */
  function ExtractYear(path: string): (r: Option<int>)
    ensures r.None? <==> forall i :: 0 <= i < |path| ==> !MatchesAt(path, i)
    ensures r.Some? ==> exists i :: 0 <= i < |path| && MatchesAt(path, i) && r.value == YearAt(path, i)
                          && forall j :: 0 <= j < i ==> !MatchesAt(path, j)
    ensures r.Some? ==> r.value >= 1000
  {
    SearchFrom(path, 0)
  }

  /** A release file name yields its year. */
  lemma ExtractYearExample()
    ensures ExtractYear("M2016_data.xlsx") == Some(2016)
  {
    var s := "M2016_data.xlsx";
    assert DigitRun(s, 5) == 0;
    assert DigitRun(s, 1) == 4;
    assert MatchesAt(s, 0);
    assert s[1..5] == "2016";
    assert DecimalValue("2016") == 2016 by {
      assert "2016"[..3] == "201";
      assert "201"[..2] == "20";
      assert "20"[..1] == "2";
      assert "2"[..0] == "";
    }
  }
}
