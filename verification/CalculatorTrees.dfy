/**
 * What the calculator computes: the value of an arithmetic tree. A tree printed
 * with no more parentheses than it needs is read back as its value; and whatever
 * the calculator accepts is such a printing.
 */
module CalculatorTrees {
  import opened Options
  import opened Calculator

  datatype Op = Plus | Minus | Times | Over

  datatype Tree =
    | Leaf(text: string)
    | Pos(arg: Tree)
    | Neg(arg: Tree)
    | Paren(arg: Tree)
    | Binary(op: Op, left: Tree, right: Tree)

  function Symbol(op: Op): char { match op case Plus => '+' case Minus => '-' case Times => '*' case Over => '/' }

  /** 0 for sums, 1 for products; 2 is for everything that binds tighter. */
  function Level(op: Op): nat { if op == Plus || op == Minus then 0 else 1 }

  predicate Wf(t: Tree) {
    match t
    case Leaf(text) => IsNumber(text)
    case Pos(a) => Wf(a)
    case Neg(a) => Wf(a)
    case Paren(a) => Wf(a)
    case Binary(_, a, b) => Wf(a) && Wf(b)
  }

  function Combined(op: Op, v: real, w: real): Option<real> {
    match op
    case Plus => Some(v + w)
    case Minus => Some(v - w)
    case Times => Some(v * w)
    case Over => if w == 0.0 then None else Some(v / w)
  }

  /** The exact value; none if some divisor is zero. */
  function Value(t: Tree): Option<real>
    requires Wf(t)
  {
    match t
    case Leaf(text) => Some(NumberValue(text))
    case Pos(a) => Value(a)
    case Neg(a) => if Value(a).Some? then Some(-Value(a).value) else None
    case Paren(a) => Value(a)
    case Binary(op, a, b) =>
      if Value(a).None? || Value(b).None? then None
      else Combined(op, Value(a).value, Value(b).value)
  }

  /** Some divisor, anywhere in the tree, is exactly zero. */
  predicate ZeroDivisor(t: Tree)
    requires Wf(t)
  {
    match t
    case Leaf(_) => false
    case Pos(a) => ZeroDivisor(a)
    case Neg(a) => ZeroDivisor(a)
    case Paren(a) => ZeroDivisor(a)
    case Binary(op, a, b) => ZeroDivisor(a) || ZeroDivisor(b) || (op == Over && Value(b) == Some(0.0))
  }

  /** The tree as tokens for a place of the given level: parentheses stand only
      around an operation that binds less than the place requires. */
  function Print(t: Tree, level: nat): (ts: seq<Token>)
    ensures |ts| > 0
    decreases t, level
  {
    match t
    case Leaf(text) => [Number(text)]
    case Pos(a) => [Sign('+')] + Print(a, 2)
    case Neg(a) => [Sign('-')] + Print(a, 2)
    case Paren(a) => [Sign('(')] + Print(a, 0) + [Sign(')')]
    case Binary(op, a, b) =>
      if level <= Level(op) then Print(a, Level(op)) + [Sign(Symbol(op))] + Print(b, Level(op) + 1)
      else [Sign('(')] + Print(t, 0) + [Sign(')')]
  }

  // ------------------------------------------------------------------- reading back

  /** The tokens `p` stand at position `i`. */
  predicate Stands(ts: seq<Token>, i: nat, p: seq<Token>) { i + |p| <= |ts| && ts[i..i + |p|] == p }

  lemma StandsApart(ts: seq<Token>, i: nat, p: seq<Token>, q: seq<Token>)
    requires Stands(ts, i, p + q)
    ensures Stands(ts, i, p) && Stands(ts, i + |p|, q)
  {
    assert ts[i..i + |p|] == ts[i..i + |p + q|][..|p|];
    assert ts[i + |p|..i + |p| + |q|] == ts[i..i + |p + q|][|p|..];
  }

  function Read(v: Option<real>, next: nat): Parsed { if v.None? then Fail else Done(v.value, next) }

  predicate Ends(ts: seq<Token>, i: nat, level: nat) {
    (level <= 1 ==> Peek(ts, i) != Sign('*') && Peek(ts, i) != Sign('/')) &&
    (level == 0 ==> Peek(ts, i) != Sign('+') && Peek(ts, i) != Sign('-'))
  }

  lemma StandsFirst(ts: seq<Token>, i: nat, token: Token, rest: seq<Token>)
    requires Stands(ts, i, [token] + rest)
    ensures i < |ts| && ts[i] == token && Stands(ts, i + 1, rest)
  {
    StandsApart(ts, i, [token], rest);
    assert ts[i] == ts[i..i + 1][0];
  }

  /** `p`, one token, and then `q`. */
  lemma StandsAround(ts: seq<Token>, i: nat, p: seq<Token>, token: Token, q: seq<Token>)
    requires Stands(ts, i, p + [token] + q)
    ensures Stands(ts, i, p) && i + |p| < |ts| && ts[i + |p|] == token && Stands(ts, i + |p| + 1, q)
  {
    assert p + [token] + q == p + ([token] + q);
    StandsApart(ts, i, p, [token] + q);
    StandsFirst(ts, i + |p|, token, q);
  }

  /** How often the readers below hand the same tree on. */
  function Rank(t: Tree, level: nat): nat {
    if level == 2 then if t.Binary? then 5 else 0
    else if level == 1 then if t.Binary? && Level(t.op) == 0 then 6 else 2
    else 3
  }

  lemma {:induction false} SignReads(ts: seq<Token>, i: nat, t: Tree)
    requires Wf(t) && (t.Pos? || t.Neg?) && Stands(ts, i, Print(t, 2))
    ensures Factor(ts, i) == Read(Value(t), i + |Print(t, 2)|)
    decreases t, 0
  {
    hide IsNumber, NumberValue, Combined, Scaled, Summed, Expr, ExprRest, Term, TermRest;
    var p := Print(t.arg, 2);
    var sign := Sign(if t.Pos? then '+' else '-');
    assert Print(t, 2) == [sign] + p;
    StandsFirst(ts, i, sign, p);
    FactorReads(ts, i + 1, t.arg);
  }

  /** A factor is read as its value, whatever follows. */
  lemma {:induction false} FactorReads(ts: seq<Token>, i: nat, t: Tree)
    requires Wf(t) && Stands(ts, i, Print(t, 2))
    ensures Factor(ts, i) == Read(Value(t), i + |Print(t, 2)|)
    decreases t, Rank(t, 2) + 1
  {
    hide IsNumber, NumberValue, Combined, Scaled;
    if t.Leaf? {
      StandsFirst(ts, i, Number(t.text), []);
    } else if t.Paren? {
      assert Print(t, 2) == [Sign('(')] + Print(t.arg, 0) + [Sign(')')];
      ParenReads(ts, i, t.arg);
    } else if t.Binary? {
      assert Print(t, 2) == [Sign('(')] + Print(t, 0) + [Sign(')')];
      ParenReads(ts, i, t);
    } else {
      SignReads(ts, i, t);
    }
  }

  lemma {:induction false} ParenReads(ts: seq<Token>, i: nat, t: Tree)
    requires Wf(t) && Stands(ts, i, [Sign('(')] + Print(t, 0) + [Sign(')')])
    ensures Factor(ts, i) == Read(Value(t), i + |Print(t, 0)| + 2)
    decreases t, 5
  {
    hide IsNumber, NumberValue, Combined, Scaled, Summed, Term, TermRest, Print;
    var p := Print(t, 0);
    assert [Sign('(')] + p + [Sign(')')] == [Sign('(')] + (p + [Sign(')')]);
    StandsFirst(ts, i, Sign('('), p + [Sign(')')]);
    StandsAround(ts, i + 1, p, Sign(')'), []) by { assert p + [Sign(')')] + [] == p + [Sign(')')]; }
    SumReads(ts, i + 1, t);
  }

  /** A product is read as its value, with the reader left in front of what follows. */
  lemma {:induction false} ProductReads(ts: seq<Token>, i: nat, t: Tree)
    requires Wf(t) && Stands(ts, i, Print(t, 1))
    ensures Term(ts, i) == if Value(t).None? then Fail else TermRest(ts, Value(t).value, i + |Print(t, 1)|)
    decreases t, Rank(t, 1) + 1
  {
    hide IsNumber, NumberValue, Combined, Scaled;
    if t.Binary? && Level(t.op) == 1 {
      ProductStep(ts, i, t);
    } else {
      assert Print(t, 1) == Print(t, 2);
      FactorReads(ts, i, t);
    }
  }

  lemma {:induction false} ProductStep(ts: seq<Token>, i: nat, t: Tree)
    requires Wf(t) && t.Binary? && Level(t.op) == 1 && Stands(ts, i, Print(t, 1))
    ensures Term(ts, i) == if Value(t).None? then Fail else TermRest(ts, Value(t).value, i + |Print(t, 1)|)
    decreases t, 0
  {
    hide IsNumber, NumberValue, Combined, Scaled, Factor, Term, TermRest;
    var p, q := Print(t.left, 1), Print(t.right, 2);
    assert Print(t, 1) == p + [Sign(Symbol(t.op))] + q;
    var sign, j := Sign(Symbol(t.op)), i + |p|;
    StandsAround(ts, i, p, sign, q);
    ProductReads(ts, i, t.left);
    FactorReads(ts, j + 1, t.right);
    ProductGlue(ts, Term(ts, i), Value(t.left), j, Value(t.right), j + 1 + |q|, t.op);
  }

  lemma ProductGlue(ts: seq<Token>, term: Parsed, v: Option<real>, j: nat, w: Option<real>, next: nat, op: Op)
    requires j < next <= |ts| && Level(op) == 1 && ts[j] == Sign(Symbol(op)) && Factor(ts, j + 1) == Read(w, next)
    requires term == if v.None? then Fail else TermRest(ts, v.value, j)
    ensures term ==
      if v.None? || w.None? || Combined(op, v.value, w.value).None? then Fail
      else TermRest(ts, Combined(op, v.value, w.value).value, next)
  {
    hide IsNumber, NumberValue, Combined, Scaled;
    if v.Some? {
      RestReads(ts, v.value, j, Read(w, next));
      if w.Some? { ScaledIsCombined(op, v.value, w.value); }
    }
  }

  lemma RestReads(ts: seq<Token>, v: real, j: nat, p: Parsed)
    requires j < |ts| && (ts[j] == Sign('*') || ts[j] == Sign('/')) && Factor(ts, j + 1) == p
    ensures TermRest(ts, v, j) ==
      if p.Fail? || Scaled(ts[j], v, p.value).None? then Fail else TermRest(ts, Scaled(ts[j], v, p.value).value, p.next)
  {
  }

  lemma ScaledIsCombined(op: Op, v: real, w: real)
    requires Level(op) == 1
    ensures Scaled(Sign(Symbol(op)), v, w) == Combined(op, v, w)
  {
  }

  /** A sum is read as its value if no product sign follows it. */
  lemma {:induction false} SumReads(ts: seq<Token>, i: nat, t: Tree)
    requires Wf(t) && Stands(ts, i, Print(t, 0)) && Ends(ts, i + |Print(t, 0)|, 1)
    ensures Expr(ts, i) == if Value(t).None? then Fail else ExprRest(ts, Value(t).value, i + |Print(t, 0)|)
    decreases t, 4
  {
    hide IsNumber, NumberValue, Combined, Scaled;
    if t.Binary? && Level(t.op) == 0 {
      SumStep(ts, i, t);
    } else {
      assert Print(t, 0) == Print(t, 1);
      ProductReads(ts, i, t);
    }
  }

  lemma {:induction false} SumStep(ts: seq<Token>, i: nat, t: Tree)
    requires Wf(t) && t.Binary? && Level(t.op) == 0 && Stands(ts, i, Print(t, 0)) && Ends(ts, i + |Print(t, 0)|, 1)
    ensures Expr(ts, i) == if Value(t).None? then Fail else ExprRest(ts, Value(t).value, i + |Print(t, 0)|)
    decreases t, 0
  {
    hide IsNumber, NumberValue, Combined, Summed, Scaled, Term, TermRest, Expr, ExprRest;
    var p, q := Print(t.left, 0), Print(t.right, 1);
    assert Print(t, 0) == p + [Sign(Symbol(t.op))] + q;
    var sign, j := Sign(Symbol(t.op)), i + |p|;
    StandsAround(ts, i, p, sign, q);
    SumReads(ts, i, t.left);
    ProductReads(ts, j + 1, t.right);
    TermStops(ts, Value(t.right), j + 1 + |q|);
    SumGlue(ts, Expr(ts, i), Value(t.left), j, Value(t.right), j + 1 + |q|, t.op);
  }

  lemma TermStops(ts: seq<Token>, v: Option<real>, next: nat)
    requires next <= |ts| && Ends(ts, next, 1)
    ensures v.Some? ==> TermRest(ts, v.value, next) == Read(v, next)
  {
  }

  lemma SumGlue(ts: seq<Token>, expr: Parsed, v: Option<real>, j: nat, w: Option<real>, next: nat, op: Op)
    requires j < next <= |ts| && Level(op) == 0 && ts[j] == Sign(Symbol(op)) && Term(ts, j + 1) == Read(w, next)
    requires expr == if v.None? then Fail else ExprRest(ts, v.value, j)
    ensures expr ==
      if v.None? || w.None? || Combined(op, v.value, w.value).None? then Fail
      else ExprRest(ts, Combined(op, v.value, w.value).value, next)
  {
    hide Combined, Summed;
    if v.Some? && w.Some? {
      SumRestReads(ts, v.value, j, w.value, next);
      SummedIsCombined(op, v.value, w.value);
    }
  }

  lemma SumRestReads(ts: seq<Token>, v: real, j: nat, w: real, k: nat)
    requires j < |ts| && (ts[j] == Sign('+') || ts[j] == Sign('-')) && Term(ts, j + 1) == Done(w, k)
    ensures ExprRest(ts, v, j) == ExprRest(ts, Summed(ts[j], v, w), k)
  {
    hide Summed;
  }

  lemma SummedIsCombined(op: Op, v: real, w: real)
    requires Level(op) == 0
    ensures Combined(op, v, w) == Some(Summed(Sign(Symbol(op)), v, w))
  {
  }

  /** Printing any tree and reading it back gives the tree's exact value. */
  lemma PrintedTreeEvaluates(t: Tree)
    requires Wf(t)
    ensures Evaluated(Print(t, 0)) == Value(t)
  {
    hide IsNumber, NumberValue, Combined, Summed, Scaled;
    assert Print(t, 0)[0..|Print(t, 0)|] == Print(t, 0);
    SumReads(Print(t, 0), 0, t);
  }

  lemma {:induction false} FailsIffZeroDivisor(t: Tree)
    requires Wf(t)
    ensures Value(t).None? <==> ZeroDivisor(t)
  {
    match t
    case Leaf(_) =>
    case Pos(a) => FailsIffZeroDivisor(a);
    case Neg(a) => FailsIffZeroDivisor(a);
    case Paren(a) => FailsIffZeroDivisor(a);
    case Binary(op, a, b) =>
      FailsIffZeroDivisor(a);
      FailsIffZeroDivisor(b);
  }

  // ------------------------------------------------------- nothing else is accepted

  predicate IsSum(t: Tree) { t.Binary? && Level(t.op) == 0 }

  /** `t` has the value and is printed exactly as the tokens from `i` to `j`. */
  ghost predicate Shows(ts: seq<Token>, i: nat, j: nat, t: Tree, level: nat, v: real) {
    i <= j <= |ts| && Wf(t) && Print(t, level) == ts[i..j] && Value(t) == Some(v)
  }

  /** Two pieces shown with a sign between them show the operation on their values. */
  lemma ShowsBinary(ts: seq<Token>, i: nat, j: nat, k: nat, op: Op, left: Tree, right: Tree, v: real, w: real)
    requires j < |ts| && ts[j] == Sign(Symbol(op)) && Combined(op, v, w).Some?
    requires Shows(ts, i, j, left, Level(op), v) && Shows(ts, j + 1, k, right, Level(op) + 1, w)
    ensures Shows(ts, i, k, Binary(op, left, right), Level(op), Combined(op, v, w).value)
  {
    hide IsNumber, NumberValue, Combined;
    assert ts[i..k] == ts[i..j] + [ts[j]] + ts[j + 1..k];
  }

  lemma SignShown(ts: seq<Token>, i: nat, j: nat, a: Tree, v: real)
    requires i < |ts| && Shows(ts, i + 1, j, a, 2, v)
    ensures ts[i] == Sign('+') ==> Shows(ts, i, j, Pos(a), 2, v)
    ensures ts[i] == Sign('-') ==> Shows(ts, i, j, Neg(a), 2, -v)
  {
    hide IsNumber, NumberValue, Combined;
    assert ts[i..j] == [ts[i]] + ts[i + 1..j];
  }

  lemma ParenShown(ts: seq<Token>, i: nat, j: nat, a: Tree, v: real)
    requires i + 1 < j <= |ts| && ts[i] == Sign('(') && ts[j - 1] == Sign(')') && Shows(ts, i + 1, j - 1, a, 0, v)
    ensures Shows(ts, i, j, Paren(a), 2, v)
  {
    hide IsNumber, NumberValue, Combined;
    assert ts[i..j] == [ts[i]] + ts[i + 1..j - 1] + [ts[j - 1]];
  }

  lemma {:induction false} FactorShows(ts: seq<Token>, i: nat) returns (t: Tree)
    requires i <= |ts| && Factor(ts, i).Done?
    ensures !t.Binary? && Shows(ts, i, Factor(ts, i).next, t, 2, Factor(ts, i).value)
    decreases |ts| - i, 0
  {
    hide IsNumber, NumberValue, Combined, Scaled, Summed, Expr, ExprRest, Term, TermRest;
    var token, j := ts[i], Factor(ts, i).next;
    if token == Sign('+') || token == Sign('-') {
      var a := FactorShows(ts, i + 1);
      t := if token == Sign('+') then Pos(a) else Neg(a);
      SignShown(ts, i, j, a, Factor(ts, i + 1).value);
    } else if token == Sign('(') {
      var a := ExprShows(ts, i + 1);
      t := Paren(a);
      assert Peek(ts, j - 1) == Sign(')');
      ParenShown(ts, i, j, a, Factor(ts, i).value);
    } else {
      t := Leaf(token.text);
      assert ts[i..i + 1] == [token];
    }
  }

  lemma {:induction false} TermShows(ts: seq<Token>, i: nat) returns (t: Tree)
    requires i <= |ts| && Term(ts, i).Done?
    ensures !IsSum(t) && Shows(ts, i, Term(ts, i).next, t, 1, Term(ts, i).value)
    decreases |ts| - i, 1
  {
    hide IsNumber, NumberValue, Combined, Scaled;
    var a := FactorShows(ts, i);
    assert Print(a, 1) == Print(a, 2);
    t := TermRestShows(ts, i, Factor(ts, i).next, a, Factor(ts, i).value);
  }

  lemma {:induction false} TermRestShows(ts: seq<Token>, i: nat, j: nat, left: Tree, v: real) returns (t: Tree)
    requires i < j <= |ts| && !IsSum(left) && Shows(ts, i, j, left, 1, v) && TermRest(ts, v, j).Done?
    ensures !IsSum(t) && Shows(ts, i, TermRest(ts, v, j).next, t, 1, TermRest(ts, v, j).value)
    decreases |ts| - j
  {
    hide IsNumber, NumberValue, Combined, Scaled;
    if Peek(ts, j) != Sign('*') && Peek(ts, j) != Sign('/') {
      t := left;
    } else {
      var right := FactorShows(ts, j + 1);
      var w, k := Factor(ts, j + 1).value, Factor(ts, j + 1).next;
      RestReads(ts, v, j, Done(w, k));
      var op := if ts[j] == Sign('*') then Times else Over;
      ScaledIsCombined(op, v, w);
      ShowsBinary(ts, i, j, k, op, left, right, v, w);
      t := TermRestShows(ts, i, k, Binary(op, left, right), Scaled(ts[j], v, w).value);
    }
  }

  lemma {:induction false} ExprShows(ts: seq<Token>, i: nat) returns (t: Tree)
    requires i <= |ts| && Expr(ts, i).Done?
    ensures Shows(ts, i, Expr(ts, i).next, t, 0, Expr(ts, i).value)
    decreases |ts| - i, 2
  {
    hide IsNumber, NumberValue, Combined, Summed, Scaled;
    var a := TermShows(ts, i);
    assert Print(a, 0) == Print(a, 1);
    t := ExprRestShows(ts, i, Term(ts, i).next, a, Term(ts, i).value);
  }

  lemma {:induction false} ExprRestShows(ts: seq<Token>, i: nat, j: nat, left: Tree, v: real) returns (t: Tree)
    requires i < j <= |ts| && Shows(ts, i, j, left, 0, v) && ExprRest(ts, v, j).Done?
    ensures Shows(ts, i, ExprRest(ts, v, j).next, t, 0, ExprRest(ts, v, j).value)
    decreases |ts| - j
  {
    hide IsNumber, NumberValue, Combined, Summed, Scaled;
    if Peek(ts, j) != Sign('+') && Peek(ts, j) != Sign('-') {
      t := left;
    } else {
      var right := TermShows(ts, j + 1);
      var w, k := Term(ts, j + 1).value, Term(ts, j + 1).next;
      SumRestReads(ts, v, j, w, k);
      var op := if ts[j] == Sign('+') then Plus else Minus;
      SummedIsCombined(op, v, w);
      ShowsBinary(ts, i, j, k, op, left, right, v, w);
      t := ExprRestShows(ts, i, k, Binary(op, left, right), Summed(ts[j], v, w));
    }
  }

  /** A token list has a value exactly if it is the printing of a tree with that value. */
  lemma EvaluatesIffPrinted(ts: seq<Token>, v: real)
    requires forall k :: 0 <= k < |ts| ==> ts[k] != End
    ensures Evaluated(ts) == Some(v) <==> exists t :: Wf(t) && Print(t, 0) == ts && Value(t) == Some(v)
  {
    hide IsNumber, NumberValue, Combined, Summed, Scaled;
    if Evaluated(ts) == Some(v) {
      var t := ExprShows(ts, 0);
      assert Expr(ts, 0).next == |ts| && ts[0..|ts|] == ts;
      assert Wf(t) && Print(t, 0) == ts && Value(t) == Some(v);
    }
    forall t | Wf(t) && Print(t, 0) == ts ensures Evaluated(ts) == Value(t) {
      PrintedTreeEvaluates(t);
    }
  }
}
