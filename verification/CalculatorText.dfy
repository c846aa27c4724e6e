/**
 * The calculator on texts: which texts it accepts and what it makes of them. A
 * text is an arithmetic tree printed with any white space between its tokens.
 */
module CalculatorText {
  import opened Options
  import opened Calculator
  import opened CalculatorTrees

  predicate Blank(s: string) { forall k :: 0 <= k < |s| ==> IsSpace(s[k]) }

  predicate Legal(token: Token) { (token.Sign? && IsSign(token.c)) || (token.Number? && IsNumber(token.text)) }

  function Spelled(token: Token): string { match token case End => "" case Sign(c) => [c] case Number(text) => text }

  /** The tokens with a gap before each and one at the end. */
  function Spell(ts: seq<Token>, gaps: seq<string>): string
    requires |gaps| == |ts| + 1
  {
    if ts == [] then gaps[0] else gaps[0] + Spelled(ts[0]) + Spell(ts[1..], gaps[1..])
  }

  predicate TwoNumbers(ts: seq<Token>, k: nat)
    requires 0 < k < |ts|
  {
    ts[k - 1].Number? && ts[k].Number?
  }

  /** Only white space between tokens, and some of it between two numbers. */
  predicate Spaced(ts: seq<Token>, gaps: seq<string>) {
    && |gaps| == |ts| + 1 && (forall k :: 0 <= k < |gaps| ==> Blank(gaps[k]))
    && (forall k :: 0 <= k < |ts| ==> Legal(ts[k]))
    && (forall k :: 0 < k < |ts| && TwoNumbers(ts, k) ==> gaps[k] != "")
  }

  // --------------------------------------------------------------- from tokens to text

  lemma {:induction false} SkipsGap(text: string, i: nat, j: nat)
    requires i <= j <= |text| && Blank(text[i..j])
    ensures Tokens(text, i) == Tokens(text, j)
    decreases j - i
  {
    if i < j {
      assert IsSpace(text[i..j][0]);
      assert text[i + 1..j] == text[i..j][1..];
      SkipsGap(text, i + 1, j);
    }
  }

  lemma {:induction false} NumberEndIs(text: string, i: nat, j: nat)
    requires i <= j <= |text| && (forall k :: i <= k < j ==> InNumber(text[k])) && (j < |text| ==> !InNumber(text[j]))
    ensures NumberEnd(text, i) == j
    decreases j - i
  {
    if i < j { NumberEndIs(text, i + 1, j); }
  }

  /** A number is followed by nothing, by white space or by a sign. */
  lemma AfterNumber(ts: seq<Token>, gaps: seq<string>)
    requires ts != [] && Spaced(ts, gaps) && ts[0].Number?
    ensures
      var rest := Spell(ts[1..], gaps[1..]);
      rest != "" ==> !InNumber(rest[0])
  {
    if gaps[1] != "" {
      assert IsSpace(gaps[1][0]);
    } else if |ts| > 1 {
      assert Legal(ts[1]) && ts[1].Sign?;
    }
  }

  lemma SpacedTail(ts: seq<Token>, gaps: seq<string>)
    requires ts != [] && Spaced(ts, gaps)
    ensures Spaced(ts[1..], gaps[1..]) && |gaps| == |ts| + 1
  {
    hide IsNumber, Legal;
    forall k | 0 < k < |ts[1..]| && TwoNumbers(ts[1..], k) ensures gaps[1..][k] != "" {
      assert TwoNumbers(ts, k + 1);
    }
  }

  lemma WordIsToken(text: string, i: nat, token: Token, rest: string)
    requires Legal(token) && i <= |text| && text[i..] == Spelled(token) + rest
    requires token.Number? && rest != "" ==> !InNumber(rest[0])
    ensures Tokens(text, i) == Ahead(token, Tokens(text, i + |Spelled(token)|))
  {
    hide Dots;
    var word := Spelled(token);
    var j := i + |word|;
    assert text[i..j] == word && text[j..] == rest;
    assert text[i] == word[0];
    if token.Number? {
      forall k | i <= k < j ensures InNumber(text[k]) { assert text[k] == word[k - i]; }
      assert j < |text| ==> text[j] == rest[0];
      NumberEndIs(text, i, j);
    }
  }

  /** The text behind the first gap. */
  lemma BehindGap(text: string, i: nat, ts: seq<Token>, gaps: seq<string>)
    requires Spaced(ts, gaps) && i <= |text| && text[i..] == Spell(ts, gaps)
    ensures |gaps| == |ts| + 1
    ensures
      var j := i + |gaps[0]|;
      && j <= |text| && Tokens(text, i) == Tokens(text, j) && (ts == [] ==> j == |text|)
      && (ts != [] ==> text[j..] == Spelled(ts[0]) + Spell(ts[1..], gaps[1..]))
  {
    hide Tokens, Legal, TwoNumbers;
    var j := i + |gaps[0]|;
    assert text[i..j] == gaps[0];
    SkipsGap(text, i, j);
  }

  /** The first token of the text, and the text behind it. */
  lemma FirstToken(text: string, j: nat, ts: seq<Token>, gaps: seq<string>)
    requires ts != [] && Spaced(ts, gaps) && j <= |text| && text[j..] == Spelled(ts[0]) + Spell(ts[1..], gaps[1..])
    ensures
      var k := j + |Spelled(ts[0])|;
      k <= |text| && Tokens(text, j) == Ahead(ts[0], Tokens(text, k)) && text[k..] == Spell(ts[1..], gaps[1..])
  {
    hide Tokens, Blank, TwoNumbers, Spell, IsNumber, Dots;
    var rest := Spell(ts[1..], gaps[1..]);
    assert Legal(ts[0]);
    if ts[0].Number? { AfterNumber(ts, gaps); }
    WordIsToken(text, j, ts[0], rest);
    assert text[j + |Spelled(ts[0])|..] == text[j..][|Spelled(ts[0])|..];
  }

  /** What is left of the text at `i` spells the tokens. */
  predicate Reads(text: string, i: nat, ts: seq<Token>, gaps: seq<string>) {
    Spaced(ts, gaps) && i <= |text| && text[i..] == Spell(ts, gaps)
  }

  lemma ReadsOn(text: string, i: nat, ts: seq<Token>, gaps: seq<string>) returns (k: nat)
    requires Reads(text, i, ts, gaps) && ts != []
    ensures gaps != [] && Reads(text, k, ts[1..], gaps[1..]) && Tokens(text, i) == Ahead(ts[0], Tokens(text, k))
  {
    hide Tokens, Spaced, Spell, Ahead;
    BehindGap(text, i, ts, gaps);
    var j := i + |gaps[0]|;
    FirstToken(text, j, ts, gaps);
    SpacedTail(ts, gaps);
    k := j + |Spelled(ts[0])|;
  }

  lemma ReadsOut(text: string, i: nat, gaps: seq<string>)
    requires Reads(text, i, [], gaps)
    ensures Tokens(text, i) == Some([])
  {
    BehindGap(text, i, [], gaps);
  }

  lemma {:induction false} SpelledIsTokenized(text: string, i: nat, ts: seq<Token>, gaps: seq<string>)
    requires Spaced(ts, gaps) && i <= |text| && text[i..] == Spell(ts, gaps)
    ensures Tokens(text, i) == Some(ts)
  {
    ReadsTokens(text, i, ts, gaps);
  }

  lemma {:induction false} ReadsTokens(text: string, i: nat, ts: seq<Token>, gaps: seq<string>)
    requires Reads(text, i, ts, gaps)
    ensures Tokens(text, i) == Some(ts)
    decreases |ts|
  {
    hide Reads, Tokens;
    if ts == [] {
      ReadsOut(text, i, gaps);
    } else {
      var k := ReadsOn(text, i, ts, gaps);
      ReadsTokens(text, k, ts[1..], gaps[1..]);
      assert [ts[0]] + ts[1..] == ts;
    }
  }

  // --------------------------------------------------------------- from text to tokens

  /** The gaps recovered from the text at `i`; a number there has no gap before it. */
  predicate Recovered(text: string, i: nat, gaps: seq<string>)
    requires i <= |text| && Tokens(text, i).Some?
  {
    var ts := Tokens(text, i).value;
    && Reads(text, i, ts, gaps)
    && (i < |text| && InNumber(text[i]) ==> gaps[0] == "" && ts != [])
    && (gaps[0] == "" && ts != [] && ts[0].Number? ==> i < |text| && InNumber(text[i]))
  }

  lemma SpaceBehind(text: string, i: nat, later: seq<string>)
    requires i < |text| && IsSpace(text[i]) && Tokens(text, i + 1).Some? && Recovered(text, i + 1, later)
    ensures Tokens(text, i) == Tokens(text, i + 1) && Recovered(text, i, later[0 := [text[i]] + later[0]])
  {
    hide IsNumber, Dots, Legal, Blank, TwoNumbers;
    var ts, gaps := Tokens(text, i + 1).value, later[0 := [text[i]] + later[0]];
    GapGrows(ts, later, text[i]);
    hide Spell;
    assert text[i..] == [text[i]] + text[i + 1..];
  }

  /** The token at `i`, and that the text goes on behind it. */
  lemma HeadWord(text: string, i: nat, j: nat)
    requires i < |text| && !IsSpace(text[i]) && Tokens(text, i).Some?
    requires j == if IsSign(text[i]) then i + 1 else NumberEnd(text, i)
    ensures i < j <= |text| && Tokens(text, j).Some?
    ensures
      var ts := Tokens(text, i).value;
      && ts != [] && ts[1..] == Tokens(text, j).value && Legal(ts[0]) && Spelled(ts[0]) == text[i..j]
      && (ts[0].Number? <==> InNumber(text[i])) && (ts[0].Number? && j < |text| ==> !InNumber(text[j]))
  {
    hide IsNumber, Dots;
  }

  lemma WordBehind(text: string, i: nat, j: nat, later: seq<string>)
    requires i < |text| && !IsSpace(text[i]) && Tokens(text, i).Some?
    requires j == if IsSign(text[i]) then i + 1 else NumberEnd(text, i)
    ensures j <= |text| && Tokens(text, j).Some?
    ensures Recovered(text, j, later) ==> Recovered(text, i, [""] + later)
  {
    HeadWord(text, i, j);
    hide Tokens, NumberEnd, IsSign, InNumber, Legal, Spelled, Blank, Spell;
    var ts := Tokens(text, i).value;
    if Recovered(text, j, later) {
      TokenAhead(text[i..j], ts, later);
      assert text[i..] == text[i..j] + text[j..];
    }
  }

  lemma NothingBehind(text: string)
    ensures Tokens(text, |text|) == Some([]) && Recovered(text, |text|, [""])
  {
    NothingIsSpaced();
  }

  lemma {:induction false} TokenizedIsSpelled(text: string, i: nat) returns (gaps: seq<string>)
    requires i <= |text| && Tokens(text, i).Some?
    ensures gaps != [] && Recovered(text, i, gaps)
    decreases |text| - i
  {
    hide Recovered, IsNumber, Dots;
    if i == |text| {
      gaps := [""];
      NothingBehind(text);
    } else if IsSpace(text[i]) {
      var later := TokenizedIsSpelled(text, i + 1);
      gaps := later[0 := [text[i]] + later[0]];
      SpaceBehind(text, i, later);
    } else {
      var j := if IsSign(text[i]) then i + 1 else NumberEnd(text, i);
      WordBehind(text, i, j, []);
      var later := TokenizedIsSpelled(text, j);
      gaps := [""] + later;
      WordBehind(text, i, j, later);
    }
  }

  lemma NothingIsSpaced()
    ensures Spaced([], [""]) && Spell([], [""]) == ""
  {
  }

  lemma GapGrows(ts: seq<Token>, gaps: seq<string>, c: char)
    requires Spaced(ts, gaps) && IsSpace(c)
    ensures Spaced(ts, gaps[0 := [c] + gaps[0]]) && Spell(ts, gaps[0 := [c] + gaps[0]]) == [c] + Spell(ts, gaps)
  {
    hide IsNumber, Legal;
    var more := gaps[0 := [c] + gaps[0]];
    assert more[1..] == gaps[1..];
    if ts != [] {
      assert Spell(ts, more) == [c] + gaps[0] + Spelled(ts[0]) + Spell(ts[1..], gaps[1..]);
    }
  }

  lemma TokenAhead(word: string, ts: seq<Token>, later: seq<string>)
    requires ts != [] && Legal(ts[0]) && Spelled(ts[0]) == word && Spaced(ts[1..], later)
    requires |ts| > 1 && TwoNumbers(ts, 1) ==> later[0] != ""
    ensures Spaced(ts, [""] + later) && Spell(ts, [""] + later) == word + Spell(ts[1..], later)
  {
    hide IsNumber, Legal, Blank, TwoNumbers;
    SpacedAhead(ts, later);
    assert ([""] + later)[1..] == later;
  }

  lemma SpacedAhead(ts: seq<Token>, later: seq<string>)
    requires ts != [] && Legal(ts[0]) && Spaced(ts[1..], later)
    requires |ts| > 1 && TwoNumbers(ts, 1) ==> later[0] != ""
    ensures Spaced(ts, [""] + later)
  {
    hide IsNumber, Legal, Blank;
    var gaps, tail := [""] + later, ts[1..];
    NothingIsBlank();
    forall k | 0 < k < |ts| && TwoNumbers(ts, k) ensures gaps[k] != "" {
      if k > 1 { assert TwoNumbers(tail, k - 1) && gaps[k] == later[k - 1]; }
    }
    forall k | 0 <= k < |ts| ensures Legal(ts[k]) {
      if k > 0 { assert Legal(tail[k - 1]); }
    }
    forall k | 0 <= k < |gaps| ensures Blank(gaps[k]) {
      if k > 0 { assert Blank(later[k - 1]); }
    }
  }

  lemma NothingIsBlank()
    ensures Blank("")
  {
  }

  // ------------------------------------------------------------------ printed trees

  predicate AllLegal(ts: seq<Token>) {
    (forall k :: 0 <= k < |ts| ==> Legal(ts[k])) && (forall k :: 0 < k < |ts| && ts[k - 1].Number? ==> !ts[k].Number?)
  }

  /** Two legal pieces with a sign between them. */
  lemma SignJoins(p: seq<Token>, c: char, q: seq<Token>)
    requires AllLegal(p) && AllLegal(q) && IsSign(c)
    ensures AllLegal(p + [Sign(c)] + q)
  {
    var ts := p + [Sign(c)] + q;
    forall k | 0 <= k < |ts| ensures Legal(ts[k]) && (0 < k && ts[k - 1].Number? ==> !ts[k].Number?) {
      if k < |p| {
        assert ts[k] == p[k] && (0 < k ==> ts[k - 1] == p[k - 1]);
      } else if k > |p| {
        assert ts[k] == q[k - |p| - 1] && (k > |p| + 1 ==> ts[k - 1] == q[k - |p| - 2]);
      }
    }
  }

  lemma {:induction false} PrintedIsLegal(t: Tree, level: nat)
    requires Wf(t)
    ensures AllLegal(Print(t, level))
    decreases t, level
  {
    match t
    case Leaf(_) =>
    case Pos(a) => PrintedIsLegal(a, 2); SignJoins([], '+', Print(a, 2)); assert [] + [Sign('+')] == [Sign('+')];
    case Neg(a) => PrintedIsLegal(a, 2); SignJoins([], '-', Print(a, 2)); assert [] + [Sign('-')] == [Sign('-')];
    case Paren(a) => PrintedIsLegal(a, 0); InParensIsLegal(Print(a, 0));
    case Binary(op, a, b) =>
      if level <= Level(op) {
        PrintedIsLegal(a, Level(op));
        PrintedIsLegal(b, Level(op) + 1);
        SignJoins(Print(a, Level(op)), Symbol(op), Print(b, Level(op) + 1));
      } else {
        PrintedIsLegal(t, 0);
        InParensIsLegal(Print(t, 0));
      }
  }

  lemma InParensIsLegal(p: seq<Token>)
    requires AllLegal(p)
    ensures AllLegal([Sign('(')] + p + [Sign(')')])
  {
    SignJoins([], '(', p);
    SignJoins([Sign('(')] + p, ')', []) by { assert [] + [Sign('(')] + p == [Sign('(')] + p; }
    assert [Sign('(')] + p + [Sign(')')] + [] == [Sign('(')] + p + [Sign(')')];
  }

  /** A tree spelled with any white space is calculated to its exact value, or not
      at all if some divisor in it is zero. */
  lemma SpelledTreeCalculates(t: Tree, gaps: seq<string>)
    requires Wf(t) && |gaps| == |Print(t, 0)| + 1 && forall k :: 0 <= k < |gaps| ==> Blank(gaps[k])
    ensures Calculated(Spell(Print(t, 0), gaps)) == Value(t)
    ensures Calculated(Spell(Print(t, 0), gaps)).None? <==> ZeroDivisor(t)
  {
    var text := Spell(Print(t, 0), gaps);
    PrintedIsLegal(t, 0);
    assert text[0..] == text;
    SpelledIsTokenized(text, 0, Print(t, 0), gaps);
    PrintedTreeEvaluates(t);
    FailsIffZeroDivisor(t);
  }

  /** Nothing else is accepted: a text has a value exactly if it spells a tree with
      that value. */
  lemma CalculatesExactlyTrees(text: string, v: real)
    ensures Calculated(text) == Some(v) <==>
      exists t, gaps :: Wf(t) && Spaced(Print(t, 0), gaps) && text == Spell(Print(t, 0), gaps) && Value(t) == Some(v)
  {
    if Calculated(text) == Some(v) {
      var gaps := TokenizedIsSpelled(text, 0);
      var ts := Tokens(text, 0).value;
      assert text[0..] == text;
      forall k | 0 <= k < |ts| ensures ts[k] != End { assert Legal(ts[k]); }
      EvaluatesIffPrinted(ts, v);
      var t :| Wf(t) && Print(t, 0) == ts && Value(t) == Some(v);
      assert Spaced(Print(t, 0), gaps) && text == Spell(Print(t, 0), gaps);
    }
    forall t, gaps | Wf(t) && Spaced(Print(t, 0), gaps) && text == Spell(Print(t, 0), gaps)
      ensures Calculated(text) == Value(t)
    {
      SpelledTreeCalculates(t, gaps);
    }
  }
}
