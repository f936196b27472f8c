// The extra rotation a FixedRotation annotation receives at rendering time
// (shared/include/poppler/qt6/poppler-annotation.h, "FixedRotation flag
// specifics"). The rendering rotation and the page orientation are multiples of
// 90 degrees, so angles are counted in clockwise quarter turns and every
// rotation of a point is exact on normalized page coordinates, where y grows
// downwards.

module RotationCompensation {

  import opened QtValues

  /** A count of clockwise quarter turns taken into [0, 4). */
  function Normalize(turns: int): (n: int)
    ensures 0 <= n < 4
  {
    turns % 4
  }

  /** An angle that is `k` full turns plus `n` quarter turns normalizes to `n`. */
  lemma NormalizeUnique(turns: int, k: int, n: int)
    requires turns == 4 * k + n && 0 <= n < 4
    ensures Normalize(turns) == n
  {
    var q := turns / 4;
    assert turns == 4 * q + turns % 4;
    assert 4 * (k - q) == turns % 4 - n;
  }

  /** Normalizing a sum only depends on the normalized summands. */
  lemma NormalizeAdd(a: int, b: int)
    ensures Normalize(a + b) == Normalize(Normalize(a) + Normalize(b))
  {
    var s := Normalize(a) + Normalize(b);
    assert a == 4 * (a / 4) + Normalize(a);
    assert b == 4 * (b / 4) + Normalize(b);
    assert s == 4 * (s / 4) + Normalize(s);
    NormalizeUnique(a + b, a / 4 + b / 4 + s / 4, Normalize(s));
  }

  /** One clockwise quarter turn of an offset about the origin. With y growing
      downwards, "right" (1, 0) turns into "down" (0, 1). */
  function QuarterTurn(v: Point): (r: Point)
    ensures r.x * r.x + r.y * r.y == v.x * v.x + v.y * v.y
  {
    Point(-v.y, v.x)
  }

  /** `n` clockwise quarter turns of an offset. */
  function Turns(v: Point, n: nat): Point
    decreases n
  {
    if n == 0 then v else QuarterTurn(Turns(v, n - 1))
  }

  /** Turning `m` times and then `n` times is turning `m + n` times. */
  lemma {:induction false} TurnsAdd(v: Point, m: nat, n: nat)
    ensures Turns(Turns(v, m), n) == Turns(v, m + n)
    decreases n
  {
    if n > 0 {
      TurnsAdd(v, m, n - 1);
    }
  }

  /** Four quarter turns are a full turn, so only the count modulo four matters. */
  lemma {:induction false} TurnsModulo(v: Point, n: nat)
    ensures Turns(v, n) == Turns(v, Normalize(n))
    decreases n
  {
    if n >= 4 {
      TurnsModulo(v, n - 4);
      NormalizeUnique(n, n / 4, Normalize(n - 4)) by {
        assert n - 4 == 4 * ((n - 4) / 4) + Normalize(n - 4);
      }
      TurnsAdd(v, n - 4, 4);
      assert Turns(Turns(v, n - 4), 4) == Turns(v, n - 4);
    } else {
      NormalizeUnique(n, 0, n);
    }
  }

  /** Turning by `a` and then by `b`, each taken modulo four, is turning by
      `a + b` modulo four. */
  lemma TurnsNormalizedAdd(v: Point, a: int, b: int)
    ensures Turns(Turns(v, Normalize(a)), Normalize(b)) == Turns(v, Normalize(a + b))
  {
    TurnsAdd(v, Normalize(a), Normalize(b));
    TurnsModulo(v, Normalize(a) + Normalize(b));
    NormalizeAdd(a, b);
  }

  /** The origin stays put under any number of turns. */
  lemma {:induction false} TurnsFixOrigin(n: nat)
    ensures Turns(Point(0.0, 0.0), n) == Point(0.0, 0.0)
    decreases n
  {
    if n > 0 {
      TurnsFixOrigin(n - 1);
    }
  }

  /** The offset of `p` from `q`. */
  function Offset(p: Point, q: Point): Point {
    Point(p.x - q.x, p.y - q.y)
  }

  /** Turning is linear: turning a difference is the difference of the turns. */
  lemma {:induction false} TurnsLinear(u: Point, v: Point, n: nat)
    ensures Turns(Offset(u, v), n) == Offset(Turns(u, n), Turns(v, n))
    decreases n
  {
    if n > 0 {
      TurnsLinear(u, v, n - 1);
    }
  }

  /** `p` rotated clockwise by `turns` quarter turns about `pivot`. */
  function RotateAbout(pivot: Point, p: Point, turns: int): (r: Point)
    ensures p == pivot ==> r == pivot
    ensures Normalize(turns) == 0 ==> r == p
  {
    TurnsFixOrigin(Normalize(turns));
    var d := Turns(Offset(p, pivot), Normalize(turns));
    Point(pivot.x + d.x, pivot.y + d.y)
  }

  /** Turning the page about any centre turns the offset between two of its
      points by the same angle. */
  lemma PageTurnKeepsOffset(centre: Point, t: Point, p: Point, a: int)
    ensures Offset(RotateAbout(centre, p, a), RotateAbout(centre, t, a)) == Turns(Offset(p, t), Normalize(a))
  {
    TurnsLinear(Offset(p, centre), Offset(t, centre), Normalize(a));
    assert Offset(Offset(p, centre), Offset(t, centre)) == Offset(p, t);
  }

  /** Two rotations about one pivot are one rotation by the sum of the angles. */
  lemma RotateCompose(pivot: Point, p: Point, a: int, b: int)
    ensures RotateAbout(pivot, RotateAbout(pivot, p, a), b) == RotateAbout(pivot, p, a + b)
  {
    var v := Offset(p, pivot);
    var q := RotateAbout(pivot, p, a);
    var w := Turns(v, Normalize(a));
    assert Offset(q, pivot) == w;
    TurnsNormalizedAdd(v, a, b);
  }

  /** The rotation a FixedRotation annotation gets on top of the page's:
      minus the rendering rotation plus the page orientation. Composed with
      them it is a whole number of full turns. */
  function FixedRotationCompensation(rendering: int, orientation: int): (c: int)
    ensures 0 <= c < 4
    ensures Normalize(rendering + orientation + c) == 0
  {
    var c := Normalize(-(rendering + orientation));
    var k := (-(rendering + orientation)) / 4;
    assert -(rendering + orientation) == 4 * k + c;
    NormalizeUnique(rendering + orientation + c, -k, 0);
    c
  }

  /** The rotation Page::renderToImage applies instead: it undoes only the page
      orientation. */
  function RenderToImageCompensation(orientation: int): (c: int)
    ensures 0 <= c < 4
    ensures Normalize(orientation + c) == 0
  {
    FixedRotationCompensation(0, orientation)
  }

  /** A FixedRotation annotation on a page that the rendering rotation and the
      page orientation turn about some `centre`: its boundary's top-left corner
      moves with the page, and the compensation, pivoted at that moved corner,
      puts every point of the annotation back at its original offset from the
      corner. The annotation keeps its original orientation. */
  lemma FixedRotationUndoesContext(centre: Point, boundary: Rect, rendering: int, orientation: int, p: Point)
    ensures var a := rendering + orientation;
      var corner := RotateAbout(centre, boundary.TopLeft(), a);
      var q := RotateAbout(corner, RotateAbout(centre, p, a), FixedRotationCompensation(rendering, orientation));
      Offset(q, corner) == Offset(p, boundary.TopLeft())
  {
    var a := rendering + orientation;
    var c := FixedRotationCompensation(rendering, orientation);
    var v := Offset(p, boundary.TopLeft());
    PageTurnKeepsOffset(centre, boundary.TopLeft(), p, a);
    TurnsNormalizedAdd(v, a, c);
  }

  /** With renderToImage's compensation, only the rendering rotation remains:
      relative to its moved corner, the annotation is turned by the rendering
      rotation alone, as if placed at the default page orientation. */
  lemma RenderToImageKeepsRendering(centre: Point, boundary: Rect, rendering: int, orientation: int, p: Point)
    ensures var a := rendering + orientation;
      var corner := RotateAbout(centre, boundary.TopLeft(), a);
      var q := RotateAbout(corner, RotateAbout(centre, p, a), RenderToImageCompensation(orientation));
      Offset(q, corner) == Turns(Offset(p, boundary.TopLeft()), Normalize(rendering))
  {
    var a := rendering + orientation;
    var c := RenderToImageCompensation(orientation);
    var v := Offset(p, boundary.TopLeft());
    PageTurnKeepsOffset(centre, boundary.TopLeft(), p, a);
    TurnsNormalizedAdd(v, a, c);
    assert Normalize(a + c) == Normalize(rendering) by {
      NormalizeAdd(rendering, orientation + c);
      NormalizeUnique(Normalize(rendering), 0, Normalize(rendering));
    }
  }
}
