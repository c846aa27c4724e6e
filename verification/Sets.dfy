/** Choosing from finite sets, and the least elements of a set of integers. */
module Sets {

  ghost function Pick<T>(s: set<T>): (x: T)
    requires s != {}
    ensures x in s
  {
    var x :| x in s;
    x
  }

  method Choose<T(==)>(s: set<T>) returns (x: T)
    requires s != {}
    ensures x in s
  {
    x :| x in s;
  }

  ghost predicate IsLeast(s: set<int>, m: int) { m in s && forall x :: x in s ==> m <= x }

  lemma {:induction false} LeastExists(s: set<int>) returns (m: int)
    requires s != {}
    ensures IsLeast(s, m)
    decreases |s|
  {
    var x := Pick(s);
    var rest := s - {x};
    if rest == {} {
      m := x;
    } else {
      var least := LeastExists(rest);
      m := if x < least then x else least;
    }
    assert forall y :: y in s ==> y == x || y in rest;
  }

  lemma LeastWitness(s: set<int>)
    requires s != {}
    ensures exists m :: IsLeast(s, m)
  {
    var m := LeastExists(s);
  }

  ghost function Least(s: set<int>): (m: int)
    requires s != {}
    ensures IsLeast(s, m)
  {
    LeastWitness(s);
    var m :| IsLeast(s, m);
    m
  }

  /** The least element, found by one pass over the set. */
  method FindLeast(s: set<int>) returns (m: int)
    requires s != {}
    ensures IsLeast(s, m)
  {
    m := Choose(s);
    var left := s - {m};
    while left != {}
      invariant left <= s && m in s
      invariant forall x :: x in s && x !in left ==> m <= x
      decreases |left|
    {
      var x := Choose(left);
      if x < m { m := x; }
      left := left - {x};
    }
  }

  /** The `n` smallest elements of a set: `ORDER BY id LIMIT n`. */
  ghost function Lowest(s: set<int>, n: nat): (r: set<int>)
    ensures r <= s
    decreases n
  {
    if n == 0 || s == {} then {}
    else {Least(s)} + Lowest(s - {Least(s)}, n - 1)
  }

  /** Exactly the elements with fewer than `n` smaller ones. */
  lemma {:induction false} LowestIff(s: set<int>, n: nat, x: int)
    ensures x in Lowest(s, n) <==> x in s && |set y | y in s && y < x| < n
    decreases n
  {
    if n > 0 && s != {} {
      var m := Least(s);
      var below := set y | y in s && y < x;
      var rest := s - {m};
      if x == m {
        assert below == {};
      } else if x in s {
        assert (set y | y in rest && y < x) == below - {m};
        LowestIff(rest, n - 1, x);
      }
    }
  }
}
