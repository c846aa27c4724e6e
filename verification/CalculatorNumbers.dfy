/**
 * What a number token is worth, digit by digit, and which texts are numbers.
 */
module CalculatorNumbers {
  import opened Calculator

  predicate AllDigits(s: string) { forall k :: 0 <= k < |s| ==> IsDigit(s[k]) }

  function DigitValue(c: char): int
    requires IsDigit(c)
  {
    c as int - '0' as int
  }

  lemma {:induction false} DotsJoin(a: string, b: string)
    ensures Dots(a + b) == Dots(a) + Dots(b)
  {
    if b == "" {
      assert a + b == a;
    } else {
      DotsJoin(a, b[..|b| - 1]);
      assert (a + b)[..|a + b| - 1] == a + b[..|b| - 1];
    }
  }

  lemma {:induction false} DigitsHaveNoDots(s: string)
    requires AllDigits(s)
    ensures Dots(s) == 0
  {
    if s != "" { DigitsHaveNoDots(s[..|s| - 1]); }
  }

  lemma {:induction false} NoDotsAreDigits(s: string)
    requires Dots(s) == 0 && forall k :: 0 <= k < |s| ==> InNumber(s[k])
    ensures AllDigits(s)
  {
    if s != "" { NoDotsAreDigits(s[..|s| - 1]); }
  }

  lemma DotAtOf(a: string, b: string)
    requires AllDigits(a)
    ensures DotAt(a + "." + b) == |a| && DotAt(a) == |a|
  {
    var s := a + "." + b;
    assert s[|a|] == '.';
    assert forall k :: 0 <= k < |a| ==> s[k] == a[k];
  }

  /** Two rows of digits with a dot between them, one at least not empty. */
  predicate Dotted(s: string, a: string, b: string) { s == a + "." + b && AllDigits(a) && AllDigits(b) && a + b != "" }

  lemma NoLoneDot(s: string, i: nat)
    requires i < |s| && s[i] == '.' && s != "."
    ensures |s| > 1
  {
  }

  lemma SplitAtDot(s: string, k: nat)
    requires k < |s| && s[k] == '.' && s != "."
    requires forall i :: 0 <= i < |s| && i != k ==> IsDigit(s[i])
    ensures Dotted(s, s[..k], s[k + 1..])
  {
    NoLoneDot(s, k);
    var b := s[k + 1..];
    assert forall j :: 0 <= j < |b| ==> b[j] == s[k + 1 + j];
    assert s == s[..k] + "." + b;
    assert |s[..k] + b| == |s| - 1;
  }

  lemma DotSplits(s: string) returns (a: string, b: string)
    requires IsNumber(s) && !AllDigits(s)
    ensures Dotted(s, a, b)
  {
    hide Dotted, Dots;
    var i :| 0 <= i < |s| && !IsDigit(s[i]);
    assert InNumber(s[i]) && s[i] == '.';
    var k := DotAt(s);
    NoDots(s, k);
    forall j | 0 <= j < |s| && j != k ensures IsDigit(s[j]) { assert InNumber(s[j]); }
    SplitAtDot(s, k);
    a, b := s[..k], s[k + 1..];
  }

  /** A number is a row of digits, or two such rows with a dot between them. */
  lemma IsNumberIff(s: string)
    ensures IsNumber(s) <==> (AllDigits(s) && s != "") || exists a, b :: Dotted(s, a, b)
  {
    hide IsNumber, AllDigits;
    if AllDigits(s) && s != "" { WholeIsNumber(s); }
    if a, b :| Dotted(s, a, b) { NumberWithDot(a, b); }
    if IsNumber(s) {
      NotEmpty(s);
      if !AllDigits(s) { var a, b := DotSplits(s); }
    }
  }

  lemma NotEmpty(s: string)
    requires IsNumber(s)
    ensures s != ""
  {
  }

  lemma NumberWithDot(a: string, b: string)
    requires AllDigits(a) && AllDigits(b) && a + b != ""
    ensures IsNumber(a + "." + b)
  {
    DigitsHaveNoDots(a);
    DigitsHaveNoDots(b);
    DotsJoin(a, ".");
    DotsJoin(a + ".", b);
    assert Dots(".") == 1 by { assert "."[..0] == ""; }
  }

  lemma WholeIsNumber(s: string)
    requires AllDigits(s) && s != ""
    ensures IsNumber(s) && DotAt(s) == |s|
  {
    DigitsHaveNoDots(s);
    DotAtOf(s, "");
  }

  /** Whole numbers: one digit is worth itself, one more digit makes ten times as much
      and the digit. */
  lemma WholeNumbers(s: string, c: char)
    requires AllDigits(s) && IsDigit(c)
    ensures IsNumber(s + [c])
    ensures s == "" ==> NumberValue(s + [c]) == DigitValue(c) as real
    ensures s != "" ==> IsNumber(s) && NumberValue(s + [c]) == 10.0 * NumberValue(s) + DigitValue(c) as real
  {
    assert (s + [c])[..|s|] == s;
    WholeIsNumber(s + [c]);
    if s != "" { WholeIsNumber(s); } else { assert s + [c] == [c] && Digits("") == 0; }
  }

  /** A fraction. */
  function Over(n: int, p: nat): real
    requires p > 0
  {
    n as real / p as real
  }

  lemma ValueWithDot(a: string, b: string)
    requires AllDigits(a) && AllDigits(b) && a + b != ""
    ensures IsNumber(a + "." + b) && NumberValue(a + "." + b) == Over(Digits(a + b), Ten(|b|))
  {
    NumberWithDot(a, b);
    DotAtOf(a, b);
    var s := a + "." + b;
    assert s[..|a|] == a && s[|a| + 1..] == b;
  }

  lemma MoreDigit(x: int, d: int, p: nat)
    requires p > 0
    ensures Over(10 * x + d, 10 * p) == Over(x, p) + Over(d, 10 * p)
  {
    var q := p as real;
    assert (10 * p) as real == 10.0 * q && (10 * x + d) as real == 10.0 * x as real + d as real;
    assert (10.0 * x as real) / (10.0 * q) == x as real / q;
  }

  /** A dot behind a whole number changes nothing. */
  lemma WholeWithDot(a: string)
    requires AllDigits(a) && a != ""
    ensures IsNumber(a) && IsNumber(a + ".") && NumberValue(a + ".") == NumberValue(a)
  {
    ValueWithDot(a, "");
    WholeIsNumber(a);
    assert a + "." + "" == a + "." && a + "" == a;
  }

  lemma DigitsMore(s: string, c: char)
    requires AllDigits(s) && IsDigit(c)
    ensures AllDigits(s + [c]) && Digits(s + [c]) == 10 * Digits(s) + DigitValue(c)
  {
    assert (s + [c])[..|s|] == s;
  }

  lemma NextDecimal(a: string, b: string, c: char)
    requires AllDigits(a) && AllDigits(b) && IsDigit(c)
    ensures IsNumber(a + "." + (b + [c]))
    ensures NumberValue(a + "." + (b + [c])) == Over(10 * Digits(a + b) + DigitValue(c), 10 * Ten(|b|))
  {
    hide IsNumber, NumberValue, Over;
    ValueWithDot(a, b + [c]);
    assert a + (b + [c]) == (a + b) + [c];
    DigitsMore(a + b, c);
    assert |b + [c]| == |b| + 1;
    assert Ten(|b| + 1) == 10 * Ten(|b|);
  }

  /** Behind the dot the first digit is worth a tenth of itself, */
  lemma FirstDecimal(c: char)
    requires IsDigit(c)
    ensures IsNumber("." + [c]) && NumberValue("." + [c]) == DigitValue(c) as real / 10.0
  {
    NextDecimal("", "", c);
    NoDigits();
    assert "" + "." + ("" + [c]) == "." + [c];
    assert "" + "" == "";
  }

  /** and every further one a tenth of what it would be one place before. */
  lemma LaterDecimal(a: string, b: string, c: char)
    requires AllDigits(a) && AllDigits(b) && IsDigit(c) && a + b != ""
    ensures IsNumber(a + "." + (b + [c])) && IsNumber(a + "." + b)
    ensures NumberValue(a + "." + (b + [c])) == NumberValue(a + "." + b) + Over(DigitValue(c), 10 * Ten(|b|))
  {
    hide IsNumber, NumberValue, Digits, Ten, Over;
    NextDecimal(a, b, c);
    ValueWithDot(a, b);
    var n, d, p := Digits(a + b), DigitValue(c), Ten(|b|);
    MoreDigit(n, d, p);
  }

  lemma NoDigits()
    ensures Digits("") == 0 && Ten(0) == 1 && Ten(1) == 10
  {
    assert Ten(1) == 10 * Ten(0);
  }
}
