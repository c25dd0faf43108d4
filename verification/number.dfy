/** `parseFloat` on the strings the slicer-output patterns capture: runs of
    digits and dots. On such a string JavaScript reads the longest prefix
    of the form `digits`, `digits.digits*` or `.digits`, and returns NaN
    (None) when no prefix has that form. */
module Number {
  import opened Wrappers
  import opened Text
  import opened Pattern

  predicate AllDigits(s: string)
  {
    forall i :: 0 <= i < |s| ==> IsDigit(s[i])
  }

  /** Number of leading decimal digits. */
  function LeadingDigits(s: string): (n: nat)
    ensures n <= |s|
    ensures forall i :: 0 <= i < n ==> IsDigit(s[i])
    ensures n < |s| ==> !IsDigit(s[n])
  {
    if s != [] && IsDigit(s[0]) then 1 + LeadingDigits(s[1..]) else 0
  }

  /** `LeadingDigits` is the length of the maximal digit prefix. */
  lemma {:induction false} LeadingDigitsIs(s: string, m: nat)
    requires m <= |s|
    requires forall i :: 0 <= i < m ==> IsDigit(s[i])
    requires m < |s| ==> !IsDigit(s[m])
    ensures LeadingDigits(s) == m
    decreases m
  {
    if m > 0 {
      LeadingDigitsIs(s[1..], m - 1);
    }
  }

  /** Value of a digit string, most significant digit first. */
  function IntValue(ds: string): nat
    requires AllDigits(ds)
  {
    if ds == [] then 0 else 10 * IntValue(ds[..|ds| - 1]) + DigitValue(ds[|ds| - 1])
  }

  /** Value of the digits after a decimal point. */
  function FracValue(ds: string): (r: real)
    requires AllDigits(ds)
    ensures 0.0 <= r < 1.0
  {
    if ds == [] then 0.0 else (DigitValue(ds[0]) as real + FracValue(ds[1..])) / 10.0
  }

  /** `t` is a decimal literal `parseFloat` accepts whole: digits with an
      optional point and fraction, or a point and at least one digit. */
  predicate DecimalForm(t: string)
  {
    var n := LeadingDigits(t);
    (n == |t| && n > 0) ||
    (n < |t| && t[n] == '.' && AllDigits(t[n + 1..]) && (n > 0 || |t| > n + 1))
  }

  /** The value of a decimal literal. */
  function DecimalValue(t: string): real
    requires DecimalForm(t)
  {
    var n := LeadingDigits(t);
    IntValue(t[..n]) as real + (if n < |t| then FracValue(t[n + 1..]) else 0.0)
  }

  /** Length of the prefix `parseFloat` reads, 0 when it reads none. */
  function ParsedLength(s: string): (k: nat)
    requires AllRun(s)
    ensures k <= |s|
  {
    var n := LeadingDigits(s);
    if n < |s| then
      var m := LeadingDigits(s[n + 1..]);
      if n == 0 && m == 0 then 0 else n + 1 + m
    else n
  }

  /** `parseFloat(s)` for a run of digits and dots. */
  function ParseFloat(s: string): (r: Option<real>)
    requires AllRun(s)
    ensures r.Some? ==> r.value >= 0.0
  {
    var k := ParsedLength(s);
    if k == 0 then None
    else
      LongestDecimalPrefix(s);
      Some(DecimalValue(s[..k]))
  }

  /** `ParsedLength` picks the longest prefix in decimal form, and there is
      none exactly when it is 0. */
  lemma LongestDecimalPrefix(s: string)
    requires AllRun(s)
    ensures ParsedLength(s) > 0 ==> DecimalForm(s[..ParsedLength(s)])
    ensures forall k :: ParsedLength(s) < k <= |s| ==> !DecimalForm(s[..k])
  {
    var n := LeadingDigits(s);
    if n < |s| {
      assert s[n] == '.';
      var rest := s[n + 1..];
      var m := LeadingDigits(rest);
      var e := n + 1 + m;
      if n > 0 || m > 0 {
        var t := s[..e];
        LeadingDigitsIs(t, n);
        assert t[n + 1..] == rest[..m];
      }
      forall k | ParsedLength(s) < k <= |s|
        ensures !DecimalForm(s[..k])
      {
        var t := s[..k];
        LeadingDigitsIs(t, n);
        if n == 0 && m == 0 {
          assert t[0] == '.';
          if |t| > 1 {
            assert t[1] == rest[0];
            assert !IsDigit(t[1]);
          }
        } else {
          assert e < k;
          assert t[e] == rest[m];
          assert !IsDigit(t[e]);
        }
      }
    } else {
      assert ParsedLength(s) == |s|;
      if n > 0 {
        LeadingDigitsIs(s[..n], n);
      }
    }
  }

  /** `parseFloat` returns NaN exactly when no prefix is a decimal literal,
      and otherwise the value of the longest one. */
  lemma ParseFloatMeaning(s: string)
    requires AllRun(s)
    ensures ParseFloat(s).None? <==> forall k :: 0 < k <= |s| ==> !DecimalForm(s[..k])
    ensures ParseFloat(s).Some? ==>
      exists k :: 0 < k <= |s| && DecimalForm(s[..k]) && ParseFloat(s).value == DecimalValue(s[..k])
        && forall k' :: k < k' <= |s| ==> !DecimalForm(s[..k'])
  {
    LongestDecimalPrefix(s);
    var k := ParsedLength(s);
    if k > 0 {
      assert 0 < k <= |s| && DecimalForm(s[..k]) && ParseFloat(s).value == DecimalValue(s[..k]);
    }
  }

  /** Decimal digits of a natural number, most significant first. */
  function NatToString(v: nat): (s: string)
    ensures |s| > 0 && AllDigits(s)
  {
    if v < 10 then [DigitChar(v)] else NatToString(v / 10) + [DigitChar(v % 10)]
  }

  lemma {:induction false} IntValueOfNatToString(v: nat)
    ensures IntValue(NatToString(v)) == v
  {
    var s := NatToString(v);
    if v < 10 {
      assert s[..|s| - 1] == [];
    } else {
      assert s[..|s| - 1] == NatToString(v / 10);
      IntValueOfNatToString(v / 10);
    }
  }

  /** `parseFloat` reads back the decimal rendering of a whole number. */
  lemma ParseFloatNat(v: nat)
    ensures AllRun(NatToString(v))
    ensures ParseFloat(NatToString(v)) == Some(v as real)
  {
    var s := NatToString(v);
    LeadingDigitsIs(s, |s|);
    assert s[..|s|] == s;
    IntValueOfNatToString(v);
  }

  /** A second point ends the number. */
  lemma ParseFloatSecondPoint()
    ensures ParseFloat("1.2.3") == Some(1.2)
  {
    LeadingDigitsIs("1.2.3", 1);
    LeadingDigitsIs("2.3", 1);
    LeadingDigitsIs("1.2", 1);
    assert "1.2.3"[..3] == "1.2";
    assert "1.2"[..1] == "1" && "1.2"[2..] == "2";
  }

  /** A trailing point is dropped. */
  lemma ParseFloatTrailingPoint()
    ensures ParseFloat("5.") == Some(5.0)
  {
    LeadingDigitsIs("5.", 1);
    LeadingDigitsIs("", 0);
    assert "5."[..2] == "5.";
    assert "5."[..1] == "5" && "5."[2..] == "";
  }

  /** A lone point is NaN. */
  lemma ParseFloatLonePoint()
    ensures ParseFloat(".") == None
  {
    LeadingDigitsIs(".", 0);
    LeadingDigitsIs("", 0);
  }

  /** A leading point starts a fraction. */
  lemma ParseFloatLeadingPoint()
    ensures ParseFloat(".5") == Some(0.5)
  {
    LeadingDigitsIs(".5", 0);
    LeadingDigitsIs("5", 1);
    assert ".5"[..2] == ".5" && ".5"[..0] == "" && ".5"[1..] == "5";
    assert "5"[1..] == "";
  }
}
