/**
 * The integer line rasterizer: square dots around centre points that step from
 * one end of the line to the other.
 */
module LineDrawing {
  import opened Numbers

  datatype Point = Point(x: int, y: int)

  function Abs(v: int): int { if v < 0 then -v else v }

  /** Division by two as the program does it, towards zero. */
  function Half(n: int): int { if n < 0 then -(-n / 2) else n / 2 }

  /** The square of pixels set around a centre. */
  predicate InDot(q: Point, centre: Point, width: int) {
    Half(-width) <= q.x - centre.x <= Half(width) && Half(-width) <= q.y - centre.y <= Half(width)
  }

  /** After `a` steps in x and `b` steps in y the point is off the ideal line by at
      most half a step of the longer axis: the slope ady/dx is compared without
      dividing. */
  predicate Near(dx: int, ady: int, a: int, b: int) {
    0 <= a <= dx && 0 <= b <= ady && 2 * Abs(dx * b - ady * a) <= Max(dx, ady)
  }

  /** Centre `k` of the line: `k` steps along the longer axis, all towards the end. */
  predicate CentreOk(from: Point, to: Point, k: nat, p: Point) {
    var dx, ady, a, b := Abs(to.x - from.x), Abs(to.y - from.y), Abs(p.x - from.x), Abs(p.y - from.y);
    && Near(dx, ady, a, b) && (if dx >= ady then a else b) == k
    && p.x == from.x + (if from.x < to.x then a else -a) && p.y == from.y + (if from.y < to.y then b else -b)
  }

  /** How far off the line: negative when too little was stepped in y. */
  function Deviation(dx: int, ady: int, a: int, b: int): int { dx * b - ady * a }

  lemma StepX(dx: int, ady: int, a: int, b: int)
    ensures Deviation(dx, ady, a + 1, b) == Deviation(dx, ady, a, b) - ady
  {
    assert ady * (a + 1) == ady * a + ady;
  }

  lemma StepY(dx: int, ady: int, a: int, b: int)
    ensures Deviation(dx, ady, a, b + 1) == Deviation(dx, ady, a, b) + dx
  {
    assert dx * (b + 1) == dx * b + dx;
  }

  lemma Below(p: int, b: int, c: int)
    requires p > 0 && b < c
    ensures p * b <= p * c - p
  {
    assert p * (c - b - 1) >= 0;
    assert p * (c - b - 1) == p * c - p * b - p;
  }

  lemma Monotone(q: int, a: int, p: int)
    requires 0 <= q && 0 <= a <= p
    ensures 0 <= q * a <= q * p
  {
    assert q * (p - a) >= 0 && q * (p - a) == q * p - q * a;
  }

  /** Near the line and not past the end of one axis: not past that of the other. */
  lemma NoOvershoot(p: int, q: int, a: int, b: int)
    requires 0 <= q <= p && 0 <= a <= p && 2 * Abs(p * b - q * a) <= p && p > 0
    ensures 0 <= b <= q && (a == p ==> b == q)
  {
    Monotone(q, a, p);
    assert p * q == q * p;
    if b > q {
      Below(p, q, b);
    } else if b < 0 {
      Below(p, b, 0);
    } else if a == p && b < q {
      Below(p, b, q);
    }
  }

  function ErrorTerm(dx: int, ady: int, a: int, b: int): int { dx - ady + Deviation(dx, ady, a, b) }

  /** One step from a point near the line that is not its end: the longer axis
      always moves, and the new point is near the line again. */
  lemma StepStaysNear(dx: int, ady: int, a: int, b: int)
    requires dx >= 0 && ady >= 0 && Near(dx, ady, a, b) && !(a == dx && b == ady)
    ensures
      var e2 := 2 * ErrorTerm(dx, ady, a, b);
      var a', b' := if e2 >= -ady then a + 1 else a, if e2 <= dx then b + 1 else b;
      Near(dx, ady, a', b') && (if dx >= ady then a' == a + 1 else b' == b + 1)
  {
    var e2 := 2 * ErrorTerm(dx, ady, a, b);
    var a', b' := if e2 >= -ady then a + 1 else a, if e2 <= dx then b + 1 else b;
    StepX(dx, ady, a, b);
    StepY(dx, ady, a', b);
    if dx >= ady {
      NoOvershoot(dx, ady, a, b);
      NoOvershoot(dx, ady, a', b');
    } else {
      NoOvershoot(ady, dx, b, a);
      NoOvershoot(ady, dx, b', a');
    }
  }

  predicate Neighbours(p: Point, q: Point) { Abs(q.x - p.x) <= 1 && Abs(q.y - p.y) <= 1 }

  /** The centres so far, none more than a pixel from the one before it. */
  predicate Traced(from: Point, to: Point, centres: seq<Point>) {
    && (forall k :: 0 <= k < |centres| ==> CentreOk(from, to, k, centres[k]))
    && (forall k :: 0 < k < |centres| ==> Neighbours(centres[k - 1], centres[k]))
  }

  lemma TracedFurther(from: Point, to: Point, centres: seq<Point>, p: Point)
    requires Traced(from, to, centres) && CentreOk(from, to, |centres|, p)
    requires centres != [] ==> Neighbours(centres[|centres| - 1], p)
    ensures Traced(from, to, centres + [p])
  {
    var more := centres + [p];
    forall k | 0 <= k < |more| ensures CentreOk(from, to, k, more[k]) {
      if k < |centres| { assert more[k] == centres[k]; }
    }
    forall k | 0 < k < |more| ensures Neighbours(more[k - 1], more[k]) {
      assert more[k - 1] == centres[k - 1];
      if k < |centres| { assert more[k] == centres[k]; }
    }
  }

  /** `a` steps in x and `b` in y from one end towards the other. */
  function Moved(from: Point, to: Point, a: int, b: int): Point {
    Point(from.x + (if from.x < to.x then a else -a), from.y + (if from.y < to.y then b else -b))
  }

  lemma MovedIsCentre(from: Point, to: Point, a: int, b: int)
    requires Near(Abs(to.x - from.x), Abs(to.y - from.y), a, b)
    ensures
      var dx, ady := Abs(to.x - from.x), Abs(to.y - from.y);
      CentreOk(from, to, if dx >= ady then a else b, Moved(from, to, a, b)) &&
      (Moved(from, to, a, b) == to <==> a == dx && b == ady)
  {
  }

  lemma StepMoves(from: Point, to: Point, a: int, b: int, da: int, db: int)
    requires 0 <= da <= 1 && 0 <= db <= 1
    ensures
      var p, q := Moved(from, to, a, b), Moved(from, to, a + da, b + db);
      Neighbours(p, q) && q.x == p.x + (if from.x < to.x then da else -da) && q.y == p.y + (if from.y < to.y then db else -db)
  {
  }

  predicate Covered(q: Point, centres: seq<Point>, width: int) { exists k :: 0 <= k < |centres| && InDot(q, centres[k], width) }

  /** Exactly the pixels of the dots around the centres. */
  ghost predicate Painted(pixels: set<Point>, centres: seq<Point>, width: int) {
    forall q :: q in pixels <==> Covered(q, centres, width)
  }

  lemma PaintedFurther(pixels: set<Point>, more: set<Point>, centres: seq<Point>, centre: Point, width: int)
    requires Painted(pixels, centres, width) && forall q :: q in more <==> q in pixels || InDot(q, centre, width)
    ensures Painted(more, centres + [centre], width)
  {
    var longer := centres + [centre];
    forall q ensures q in more <==> Covered(q, longer, width) {
      if Covered(q, centres, width) {
        var k :| 0 <= k < |centres| && InDot(q, centres[k], width);
        assert longer[k] == centres[k];
      }
      if InDot(q, centre, width) { assert longer[|centres|] == centre; }
    }
  }

  predicate Earlier(q: Point, centre: Point, ox: int, oy: int) {
    q.x - centre.x < ox || (q.x - centre.x == ox && q.y - centre.y < oy)
  }

  /** Sets the pixels of one dot. */
  method SetDot(pixels: set<Point>, centre: Point, width: int) returns (r: set<Point>)
    ensures forall q :: q in r <==> q in pixels || InDot(q, centre, width)
  {
    r := pixels;
    var ox := Half(-width);
    while ox <= Half(width)
      invariant forall q :: q in r <==> q in pixels || (InDot(q, centre, width) && q.x - centre.x < ox)
      decreases Half(width) - ox
    {
      var oy := Half(-width);
      while oy <= Half(width)
        invariant forall q :: q in r <==> q in pixels || (InDot(q, centre, width) && Earlier(q, centre, ox, oy))
        decreases Half(width) - oy
      {
        r := r + {Point(centre.x + ox, centre.y + oy)};
        oy := oy + 1;
      }
      ox := ox + 1;
    }
  }

  /** The point and the error term after `a` steps in x and `b` in y. */
  predicate OnTrack(from: Point, to: Point, dx: int, ady: int, p: Point, err: int, a: int, b: int) {
    Near(dx, ady, a, b) && p == Moved(from, to, a, b) && err == ErrorTerm(dx, ady, a, b)
  }

  lemma StartsOnTrack(from: Point, to: Point)
    ensures
      var dx, ady := Abs(to.x - from.x), Abs(to.y - from.y);
      OnTrack(from, to, dx, ady, from, dx - ady, 0, 0)
  {
  }

  lemma JoinsTrace(from: Point, to: Point, dx: int, ady: int, centres: seq<Point>, p: Point, err: int, a: int, b: int)
    requires dx == Abs(to.x - from.x) && ady == Abs(to.y - from.y) && OnTrack(from, to, dx, ady, p, err, a, b)
    requires Traced(from, to, centres) && |centres| == if dx >= ady then a else b
    requires centres != [] ==> Neighbours(centres[|centres| - 1], p)
    ensures Traced(from, to, centres + [p]) && |centres| <= Max(dx, ady)
    ensures p == to <==> a == dx && b == ady
    ensures p == to ==> |centres| == Max(dx, ady)
  {
    MovedIsCentre(from, to, a, b);
    TracedFurther(from, to, centres, p);
  }

  lemma ErrorMoves(dx: int, ady: int, a: int, b: int, right: bool, up: bool)
    ensures
      var a', b' := if right then a + 1 else a, if up then b + 1 else b;
      ErrorTerm(dx, ady, a', b') == ErrorTerm(dx, ady, a, b) - (if right then ady else 0) + (if up then dx else 0)
  {
    StepX(dx, ady, a, b);
    StepY(dx, ady, if right then a + 1 else a, b);
    hide Deviation;
  }

  /** A step that follows the error term stays on track. */
  lemma StaysOnTrack(from: Point, to: Point, dx: int, ady: int, p: Point, err: int, a: int, b: int)
    requires dx == Abs(to.x - from.x) && ady == Abs(to.y - from.y) && !(a == dx && b == ady)
    requires OnTrack(from, to, dx, ady, p, err, a, b)
    ensures
      var right, up := 2 * err >= -ady, 2 * err <= dx;
      var a', b' := if right then a + 1 else a, if up then b + 1 else b;
      var q := Moved(from, to, a', b');
      && OnTrack(from, to, dx, ady, q, err - (if right then ady else 0) + (if up then dx else 0), a', b')
      && q.x == p.x + (if !right then 0 else if from.x < to.x then 1 else -1)
      && q.y == p.y + (if !up then 0 else if from.y < to.y then 1 else -1)
      && (if dx >= ady then a' == a + 1 else b' == b + 1) && Neighbours(p, q)
  {
    assert dx >= 0 && ady >= 0;
    hide Near, Moved, Deviation, ErrorTerm, Neighbours, Abs;
    var right, up := 2 * err >= -ady, 2 * err <= dx;
    StepStaysNear(dx, ady, a, b);
    ErrorMoves(dx, ady, a, b, right, up);
    StepMoves(from, to, a, b, if right then 1 else 0, if up then 1 else 0);
  }

  /** The loop's step, with the numbers of steps taken so far. */
  method Step(ghost from: Point, ghost to: Point, x: int, y: int, err: int, dx: int, dy: int, sx: int, sy: int,
              ghost a: int, ghost b: int)
      returns (x': int, y': int, err': int, ghost a': int, ghost b': int)
    requires dx == Abs(to.x - from.x) && -dy == Abs(to.y - from.y) && !(a == dx && b == -dy)
    requires OnTrack(from, to, dx, -dy, Point(x, y), err, a, b)
    requires sx == (if from.x < to.x then 1 else -1) && sy == (if from.y < to.y then 1 else -1)
    ensures OnTrack(from, to, dx, -dy, Point(x', y'), err', a', b') && (if dx >= -dy then a' == a + 1 else b' == b + 1)
    ensures Neighbours(Point(x, y), Point(x', y'))
  {
    hide OnTrack, Neighbours, Moved, Abs;
    StaysOnTrack(from, to, dx, -dy, Point(x, y), err, a, b);
    x', y', err', a', b' := x, y, err, a, b;
    var e2 := 2 * err;
    if e2 >= dy { err', x', a' := err' + dy, x' + sx, a' + 1; }
    if e2 <= dx { err', y', b' := err' + dx, y' + sy, b' + 1; }
    assert Point(x', y') == Moved(from, to, a', b');
  }

  /** The centres of the line, in the order they are drawn, and the pixels set. */
  method DrawLine(from: Point, to: Point, width: int) returns (centres: seq<Point>, pixels: set<Point>)
    ensures |centres| == Max(Abs(to.x - from.x), Abs(to.y - from.y)) + 1
    ensures centres[0] == from && centres[|centres| - 1] == to && Traced(from, to, centres)
    ensures Painted(pixels, centres, width)
  {
    var dx, dy := Abs(to.x - from.x), -Abs(to.y - from.y);
    var sx, sy := -1, -1;
    if from.x < to.x { sx := 1; }
    if from.y < to.y { sy := 1; }
    var x, y, err := from.x, from.y, dx + dy;
    ghost var a, b, ady := 0, 0, -dy;
    centres, pixels := [], {};
    StartsOnTrack(from, to);
    hide Near, CentreOk, Moved, ErrorTerm, Deviation, InDot;
    while true
      invariant OnTrack(from, to, dx, ady, Point(x, y), err, a, b)
      invariant |centres| == (if dx >= ady then a else b) && Traced(from, to, centres)
      invariant if centres == [] then Point(x, y) == from else centres[0] == from
      invariant centres != [] ==> Neighbours(centres[|centres| - 1], Point(x, y))
      invariant Painted(pixels, centres, width)
      decreases Max(dx, ady) - |centres|
    {
      ghost var before := pixels;
      pixels := SetDot(pixels, Point(x, y), width);
      PaintedFurther(before, pixels, centres, Point(x, y), width);
      JoinsTrace(from, to, dx, ady, centres, Point(x, y), err, a, b);
      centres := centres + [Point(x, y)];
      if x == to.x && y == to.y { break; }
      ghost var p := Point(x, y);
      x, y, err, a, b := Step(from, to, x, y, err, dx, dy, sx, sy, a, b);
      assert centres[|centres| - 1] == p;
    }
  }
}
