/**
 * The calculator: a tokenizer and a recursive-descent parser that computes an
 * exact rational while it reads. Rationals are reals here; no operation of the
 * calculator leaves the rationals.
 */
module Calculator {
  import opened Options

  // ---------------------------------------------------------------------- tokens

  /** A token of the text; `End` stands for the empty string the stream gives when
      it is exhausted. */
  datatype Token = End | Sign(c: char) | Number(text: string)

  predicate IsSpace(c: char) { c == ' ' || c == '\t' || c == '\r' || c == '\n' }

  predicate IsSign(c: char) { c in "+-*/()" }

  predicate IsDigit(c: char) { '0' <= c <= '9' }

  predicate InNumber(c: char) { IsDigit(c) || c == '.' }

  function NumberEnd(text: string, i: nat): (j: nat)
    requires i <= |text|
    ensures i <= j <= |text|
    ensures forall k :: i <= k < j ==> InNumber(text[k])
    ensures j < |text| ==> !InNumber(text[j])
    decreases |text| - i
  {
    if i < |text| && InNumber(text[i]) then NumberEnd(text, i + 1) else i
  }

  function Dots(s: string): nat {
    if s == "" then 0 else Dots(s[..|s| - 1]) + if s[|s| - 1] == '.' then 1 else 0
  }

  /** Digits with at most one dot among them; a dot alone is no number. */
  predicate IsNumber(s: string) { s != "" && s != "." && Dots(s) <= 1 && forall k :: 0 <= k < |s| ==> InNumber(s[k]) }

  function Tokens(text: string, i: nat): Option<seq<Token>>
    requires i <= |text|
    decreases |text| - i
  {
    if i == |text| then Some([])
    else if IsSpace(text[i]) then Tokens(text, i + 1)
    else if IsSign(text[i]) then Ahead(Sign(text[i]), Tokens(text, i + 1))
    else if InNumber(text[i]) && IsNumber(text[i..NumberEnd(text, i)])
    then Ahead(Number(text[i..NumberEnd(text, i)]), Tokens(text, NumberEnd(text, i)))
    else None
  }

  function Ahead(token: Token, rest: Option<seq<Token>>): Option<seq<Token>> {
    if rest.Some? then Some([token] + rest.value) else None
  }

  // ---------------------------------------------------------------------- numbers

  function Digits(s: string): nat
    requires forall k :: 0 <= k < |s| ==> IsDigit(s[k])
  {
    if s == "" then 0
    else
      assert IsDigit(s[|s| - 1]);
      10 * Digits(s[..|s| - 1]) + (s[|s| - 1] as int - '0' as int)
  }

  function Ten(n: nat): (p: nat)
    ensures p > 0
  {
    if n == 0 then 1 else 10 * Ten(n - 1)
  }

  function DotAt(s: string): (k: nat)
    ensures k <= |s| && forall i :: 0 <= i < k ==> s[i] != '.'
    ensures k < |s| ==> s[k] == '.'
  {
    if s == "" || s[0] == '.' then 0 else 1 + DotAt(s[1..])
  }

  lemma {:induction false} NoDots(s: string, from: nat)
    requires from <= |s| && Dots(s) <= (if from < |s| && s[from] == '.' then 1 else 0)
    requires forall i :: 0 <= i < from ==> s[i] != '.'
    ensures forall i :: from < i < |s| ==> s[i] != '.'
  {
    if from < |s| - 1 { NoDotsFrom(s, from); }
  }

  /** With one dot at `from`, a second one later would make two. */
  lemma {:induction false} NoDotsFrom(s: string, from: nat)
    requires from < |s| && Dots(s) <= (if s[from] == '.' then 1 else 0)
    ensures forall i :: from < i < |s| ==> s[i] != '.'
  {
    if from < |s| - 1 {
      DotsAtLeast(s[..|s| - 1], from);
      NoDotsFrom(s[..|s| - 1], from);
    }
  }

  lemma {:induction false} DotsAtLeast(s: string, k: nat)
    requires k < |s|
    ensures Dots(s) >= if s[k] == '.' then 1 else 0
  {
    if k < |s| - 1 { DotsAtLeast(s[..|s| - 1], k); }
  }

  /** The decimal number a token stands for. */
  function NumberValue(s: string): real
    requires IsNumber(s)
  {
    var k := DotAt(s);
    if k == |s| then Digits(s) as real
    else
      NoDots(s, k);
      Digits(s[..k] + s[k + 1..]) as real / Ten(|s| - k - 1) as real
  }

  // ----------------------------------------------------------------------- parser

  datatype Parsed = Fail | Done(value: real, next: nat)

  function Peek(ts: seq<Token>, i: nat): Token { if i < |ts| then ts[i] else End }

  function Summed(op: Token, v: real, w: real): real { if op == Sign('+') then v + w else v - w }

  /** `*` and `/`; there is no quotient by zero. */
  function Scaled(op: Token, v: real, w: real): Option<real> {
    if op == Sign('*') then Some(v * w) else if w == 0.0 then None else Some(v / w)
  }

  function Expr(ts: seq<Token>, i: nat): (p: Parsed)
    requires i <= |ts|
    ensures p.Done? ==> i < p.next <= |ts|
    decreases |ts| - i, 3
  {
    match Term(ts, i) case Fail => Fail case Done(v, j) => ExprRest(ts, v, j)
  }

  function ExprRest(ts: seq<Token>, v: real, i: nat): (p: Parsed)
    requires i <= |ts|
    ensures p.Done? ==> i <= p.next <= |ts|
    decreases |ts| - i, 4
  {
    if Peek(ts, i) != Sign('+') && Peek(ts, i) != Sign('-') then Done(v, i)
    else match Term(ts, i + 1)
      case Fail => Fail
      case Done(w, j) => ExprRest(ts, Summed(ts[i], v, w), j)
  }

  function Term(ts: seq<Token>, i: nat): (p: Parsed)
    requires i <= |ts|
    ensures p.Done? ==> i < p.next <= |ts|
    decreases |ts| - i, 1
  {
    match Factor(ts, i) case Fail => Fail case Done(v, j) => TermRest(ts, v, j)
  }

  function TermRest(ts: seq<Token>, v: real, i: nat): (p: Parsed)
    requires i <= |ts|
    ensures p.Done? ==> i <= p.next <= |ts|
    decreases |ts| - i, 2
  {
    if Peek(ts, i) != Sign('*') && Peek(ts, i) != Sign('/') then Done(v, i)
    else match Factor(ts, i + 1)
      case Fail => Fail
      case Done(w, j) => match Scaled(ts[i], v, w) case None => Fail case Some(u) => TermRest(ts, u, j)
  }

  function Factor(ts: seq<Token>, i: nat): (p: Parsed)
    requires i <= |ts|
    ensures p.Done? ==> i < p.next <= |ts|
    decreases |ts| - i, 0
  {
    var token := Peek(ts, i);
    if token == End then Fail
    else if token == Sign('+') then Factor(ts, i + 1)
    else if token == Sign('-') then
      match Factor(ts, i + 1) case Fail => Fail case Done(v, j) => Done(-v, j)
    else if token == Sign('(') then
      match Expr(ts, i + 1)
      case Fail => Fail
      case Done(v, j) => if Peek(ts, j) == Sign(')') then Done(v, j + 1) else Fail
    else if token.Number? && IsNumber(token.text) then Done(NumberValue(token.text), i + 1)
    else Fail
  }

  /** A token list stands for a number if the parser reads all of it. */
  function Evaluated(ts: seq<Token>): Option<real> {
    match Expr(ts, 0)
    case Fail => None
    case Done(v, j) => if Peek(ts, j) == End then Some(v) else None
  }

  function Calculated(text: string): Option<real> {
    match Tokens(text, 0) case None => None case Some(ts) => if ts == [] then None else Evaluated(ts)
  }

  // ------------------------------------------------------- the calculator, in place

  /** The end of the number at `i`, if it is one. */
  method ScanNumber(text: string, i: nat) returns (r: Option<nat>)
    requires i < |text| && InNumber(text[i])
    ensures r == if IsNumber(text[i..NumberEnd(text, i)]) then Some(NumberEnd(text, i)) else None
  {
    var end, dots := i, 0;
    while end < |text| && InNumber(text[end])
      invariant i <= end <= |text| && NumberEnd(text, i) == NumberEnd(text, end)
      invariant dots == Dots(text[i..end]) <= 1
      invariant forall k :: i <= k < end ==> InNumber(text[k])
    {
      assert text[i..end + 1][..end - i] == text[i..end];
      if text[end] == '.' {
        dots := dots + 1;
        if dots > 1 {
          MoreDots(text[i..NumberEnd(text, i)], end + 1 - i);
          assert text[i..NumberEnd(text, i)][..end + 1 - i] == text[i..end + 1];
          return None;
        }
      }
      end := end + 1;
    }
    if text[i..end] == "." { return None; }
    return Some(end);
  }

  method TokenizeExpression(text: string) returns (r: Option<seq<Token>>)
    ensures r == Tokens(text, 0)
  {
    var tokens: seq<Token> := [];
    var i := 0;
    assert Tokens(text, 0).Some? ==> [] + Tokens(text, 0).value == Tokens(text, 0).value;
    while i < |text|
      invariant i <= |text|
      invariant Tokens(text, 0) == (if Tokens(text, i).Some? then Some(tokens + Tokens(text, i).value) else None)
    {
      var c := text[i];
      if c == ' ' || c == '\t' || c == '\r' || c == '\n' {
        i := i + 1;
      } else if c in "+-*/()" {
        assert tokens + [Sign(c)] + (if Tokens(text, i + 1).Some? then Tokens(text, i + 1).value else []) ==
          tokens + ([Sign(c)] + if Tokens(text, i + 1).Some? then Tokens(text, i + 1).value else []);
        tokens := tokens + [Sign(c)];
        i := i + 1;
      } else if InNumber(c) {
        var end := ScanNumber(text, i);
        if end.None? { return None; }
        var token := text[i..end.value];
        assert tokens + [Number(token)] + (if Tokens(text, end.value).Some? then Tokens(text, end.value).value else []) ==
          tokens + ([Number(token)] + if Tokens(text, end.value).Some? then Tokens(text, end.value).value else []);
        tokens := tokens + [Number(token)];
        i := end.value;
      } else {
        return None;
      }
    }
    assert tokens + [] == tokens;
    return Some(tokens);
  }

  lemma {:induction false} MoreDots(s: string, n: nat)
    requires n <= |s|
    ensures Dots(s) >= Dots(s[..n])
  {
    if n < |s| {
      MoreDots(s[..|s| - 1], n);
      assert s[..|s| - 1][..n] == s[..n];
    } else {
      assert s[..n] == s;
    }
  }

  /** A rational that is updated in place. */
  class Rat {
    var value: real

    constructor (value: real)
      ensures this.value == value
    {
      this.value := value;
    }

    method Add(x: Rat, y: Rat)
      modifies this
      ensures value == old(x.value) + old(y.value)
    {
      value := x.value + y.value;
    }

    method Sub(x: Rat, y: Rat)
      modifies this
      ensures value == old(x.value) - old(y.value)
    {
      value := x.value - y.value;
    }

    method Mul(x: Rat, y: Rat)
      modifies this
      ensures value == old(x.value) * old(y.value)
    {
      value := x.value * y.value;
    }

    method Quo(x: Rat, y: Rat)
      requires y.value != 0.0
      modifies this
      ensures value == old(x.value) / old(y.value)
    {
      value := x.value / y.value;
    }

    method Neg(x: Rat)
      modifies this
      ensures value == -old(x.value)
    {
      value := -x.value;
    }
  }

  class Stream {
    const tokens: seq<Token>
    var index: nat

    ghost predicate Valid()
      reads this
    {
      index <= |tokens|
    }

    constructor (tokens: seq<Token>)
      ensures Valid() && this.tokens == tokens && index == 0
    {
      this.tokens, index := tokens, 0;
    }

    function Next(): Token
      reads this
    {
      if index >= |tokens| then End else tokens[index]
    }

    method Pop() returns (token: Token)
      requires Valid()
      modifies this
      ensures Valid() && token == old(Next()) && index == old(index) + if token == End then 0 else 1
    {
      token := Next();
      if token != End { index := index + 1; }
    }
  }

  /** What a parse method leaves: a number, or nothing if there is none. */
  ghost predicate Reads(s: Stream, value: Rat?, p: Parsed)
    reads s, value
  {
    s.Valid() && match p case Fail => value == null case Done(v, j) => value != null && value.value == v && s.index == j
  }

  method ParseExpr(s: Stream) returns (value: Rat?)
    requires s.Valid()
    modifies s
    ensures Reads(s, value, Expr(s.tokens, old(s.index))) && (value != null ==> fresh(value))
    decreases |s.tokens| - s.index, 3
  {
    value := ParseTerm(s);
    if value == null { return; }
    while s.Next() == Sign('+') || s.Next() == Sign('-')
      invariant s.Valid() && value != null && fresh(value) && s.index > old(s.index)
      invariant Expr(s.tokens, old(s.index)) == ExprRest(s.tokens, value.value, s.index)
      decreases |s.tokens| - s.index
    {
      var op := s.Pop();
      var right := ParseTerm(s);
      if right == null { return null; }
      if op == Sign('+') { value.Add(value, right); } else { value.Sub(value, right); }
    }
  }

  method Scale(op: Token, value: Rat, right: Rat) returns (ok: bool)
    requires value != right
    modifies value
    ensures ok == Scaled(op, old(value.value), right.value).Some?
    ensures ok ==> value.value == Scaled(op, old(value.value), right.value).value
  {
    if op == Sign('*') {
      value.Mul(value, right);
      return true;
    }
    if right.value == 0.0 { return false; }
    value.Quo(value, right);
    ok := true;
  }

  method ParseTerm(s: Stream) returns (value: Rat?)
    requires s.Valid()
    modifies s
    ensures Reads(s, value, Term(s.tokens, old(s.index))) && (value != null ==> fresh(value))
    decreases |s.tokens| - s.index, 1
  {
    value := ParseFactor(s);
    if value == null { return; }
    while s.Next() == Sign('*') || s.Next() == Sign('/')
      invariant s.Valid() && value != null && fresh(value) && s.index > old(s.index)
      invariant Term(s.tokens, old(s.index)) == TermRest(s.tokens, value.value, s.index)
      decreases |s.tokens| - s.index
    {
      var op := s.Pop();
      var right := ParseFactor(s);
      if right == null { return null; }
      var ok := Scale(op, value, right);
      if !ok { return null; }
    }
  }

  method ParseFactor(s: Stream) returns (value: Rat?)
    requires s.Valid()
    modifies s
    ensures Reads(s, value, Factor(s.tokens, old(s.index))) && (value != null ==> fresh(value))
    decreases |s.tokens| - s.index, 0
  {
    var token := s.Pop();
    if token == End { return null; }
    if token == Sign('+') {
      value := ParseFactor(s);
      return;
    }
    if token == Sign('-') {
      value := ParseFactor(s);
      if value != null { value.Neg(value); }
      return;
    }
    if token == Sign('(') {
      value := ParseExpr(s);
      if value == null { return; }
      var next := s.Pop();
      if next != Sign(')') { return null; }
      return;
    }
    if !token.Number? || !IsNumber(token.text) { return null; }
    value := new Rat(NumberValue(token.text));
  }

  method CalculateExpression(text: string) returns (value: Rat?)
    ensures value == null <==> Calculated(text).None?
    ensures value != null ==> fresh(value) && Calculated(text) == Some(value.value)
  {
    var tokens := TokenizeExpression(text);
    if tokens.None? || tokens.value == [] { return null; }
    var stream := new Stream(tokens.value);
    value := ParseExpr(stream);
    if value == null { return; }
    if stream.Next() != End { return null; }
  }
}
