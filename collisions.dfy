/**
 * Circle-versus-box geometry: the overlap test and the push-out resolver of
 * src/physics/collisions.js.
 */
module Collisions {
  import opened Host

  /** An axis-aligned box: top-left corner, width and height. */
  datatype Aabb = Aabb(x: real, y: real, w: real, h: real)

  datatype Circle = Circle(x: real, y: real, radius: real)

  datatype Axis = X | Y

  /** A contact: its axis, the push-out normal (nx, ny) and the penetration depth. */
  datatype Contact = Contact(axis: Axis, nx: real, ny: real, overlap: real)

  /**
   * What `resolveCircleAabb` returns (null is `None`) together with the circle as
   * the call leaves it: the source moves its argument in place.
   */
  datatype Resolution = Resolution(contact: Option<Contact>, circle: Circle)

  /** `clamp(v, a, b)`: v limited to [a, b]; when a > b the lower bound wins. */
  function Clamp(v: real, a: real, b: real): (r: real)
    ensures a <= b ==> a <= r <= b
    ensures a <= v <= b ==> r == v
    ensures v < a ==> r == a
    ensures a <= b < v ==> r == b
    ensures b < a ==> r == a
  {
    Max(a, Min(b, v))
  }

  /** The point of the box nearest to (cx, cy), axis by axis. */
  function ClosestX(cx: real, box: Aabb): real
  {
    Clamp(cx, box.x, box.x + box.w)
  }

  function ClosestY(cy: real, box: Aabb): real
  {
    Clamp(cy, box.y, box.y + box.h)
  }

  /** Squared distance from (cx, cy) to the clamped closest point of the box. */
  function SqDistToBox(cx: real, cy: real, box: Aabb): real
  {
    var dx := cx - ClosestX(cx, box);
    var dy := cy - ClosestY(cy, box);
    dx * dx + dy * dy
  }

  /** `circleVsAabb`: the closest point of the box lies within the radius (touching counts). */
  function CircleVsAabb(cx: real, cy: real, r: real, box: Aabb): (res: bool)
    ensures box.x <= cx <= box.x + box.w && box.y <= cy <= box.y + box.h ==> res
  {
    SqDistToBox(cx, cy, box) <= r * r
  }

  ghost predicate InBox(px: real, py: real, box: Aabb)
  {
    box.x <= px <= box.x + box.w && box.y <= py <= box.y + box.h
  }

  lemma SquareMonotone(a: real, b: real)
    requires 0.0 <= a <= b
    ensures a * a <= b * b
  {
    assert a * a <= a * b by {
      assert a * (b - a) >= 0.0;
    }
    assert a * b <= b * b by {
      assert b * (b - a) >= 0.0;
    }
  }

  /** On one axis, the clamped coordinate is no farther from v than any point of the span. */
  lemma AxisNearest(v: real, lo: real, hi: real, p: real)
    requires lo <= p <= hi
    ensures (v - Clamp(v, lo, hi)) * (v - Clamp(v, lo, hi)) <= (v - p) * (v - p)
  {
    var c := Clamp(v, lo, hi);
    if v < lo {
      SquareMonotone(lo - v, p - v);
      assert (v - c) * (v - c) == (lo - v) * (lo - v);
      assert (v - p) * (v - p) == (p - v) * (p - v);
    } else if v > hi {
      SquareMonotone(v - hi, v - p);
    }
  }

  /** The clamped point is the point of the box nearest to the centre. */
  lemma ClosestIsNearest(cx: real, cy: real, box: Aabb, px: real, py: real)
    requires InBox(px, py, box)
    ensures SqDistToBox(cx, cy, box) <= (cx - px) * (cx - px) + (cy - py) * (cy - py)
  {
    AxisNearest(cx, box.x, box.x + box.w, px);
    AxisNearest(cy, box.y, box.y + box.h, py);
  }

  /**
   * `circleVsAabb` holds exactly when some point of the (non-degenerate) box lies
   * within the radius of the centre.
   */
  lemma CircleVsAabbMeansNearPoint(cx: real, cy: real, r: real, box: Aabb)
    requires box.w >= 0.0 && box.h >= 0.0
    ensures CircleVsAabb(cx, cy, r, box) <==>
              exists px, py :: InBox(px, py, box) && (cx - px) * (cx - px) + (cy - py) * (cy - py) <= r * r
  {
    if CircleVsAabb(cx, cy, r, box) {
      var px, py := ClosestX(cx, box), ClosestY(cy, box);
      assert InBox(px, py, box);
    }
    if exists px, py :: InBox(px, py, box) && (cx - px) * (cx - px) + (cy - py) * (cy - py) <= r * r {
      var px, py :| InBox(px, py, box) && (cx - px) * (cx - px) + (cy - py) * (cy - py) <= r * r;
      ClosestIsNearest(cx, cy, box, px, py);
    }
  }

  /** The four edges of a box, in the order the fallback prefers them. */
  datatype Side = Left | Right | Top | Bottom

  function Rank(s: Side): nat
  {
    match s
    case Left => 0
    case Right => 1
    case Top => 2
    case Bottom => 3
  }

  /** How far the centre lies from the line of one edge. */
  function Gap(c: Circle, box: Aabb, s: Side): real
  {
    match s
    case Left => Abs(c.x - box.x)
    case Right => Abs(box.x + box.w - c.x)
    case Top => Abs(c.y - box.y)
    case Bottom => Abs(box.y + box.h - c.y)
  }

  /**
   * The edge the fallback pushes towards: a nearest one, and of several nearest
   * ones the first in the order left, right, top, bottom.
   */
  function NearestSide(c: Circle, box: Aabb): (s: Side)
    ensures forall t :: Gap(c, box, s) <= Gap(c, box, t)
    ensures forall t :: Rank(t) < Rank(s) ==> Gap(c, box, t) > Gap(c, box, s)
  {
    var left, right, top, bottom := Gap(c, box, Left), Gap(c, box, Right), Gap(c, box, Top), Gap(c, box, Bottom);
    var least := Min(Min(Min(left, right), top), bottom);
    if least == left then Left
    else if least == right then Right
    else if least == top then Top
    else Bottom
  }

  /** The contact the fallback reports for an edge: its outward unit normal and the given depth. */
  function EdgeContact(s: Side, overlap: real): (k: Contact)
    ensures k.nx * k.nx + k.ny * k.ny == 1.0 && k.nx * k.ny == 0.0
    ensures k.axis == X <==> s in {Left, Right}
    ensures k.axis == X <==> Abs(k.nx) > Abs(k.ny)
    ensures k.overlap == overlap
  {
    match s
    case Left => Contact(X, -1.0, 0.0, overlap)
    case Right => Contact(X, 1.0, 0.0, overlap)
    case Top => Contact(Y, 0.0, -1.0, overlap)
    case Bottom => Contact(Y, 0.0, 1.0, overlap)
  }

  /** The offset from the closest point of the box to the centre. */
  function OffsetX(c: Circle, box: Aabb): real
  {
    c.x - ClosestX(c.x, box)
  }

  function OffsetY(c: Circle, box: Aabb): real
  {
    c.y - ClosestY(c.y, box)
  }

  /** The distance `resolveCircleAabb` computes with `Math.hypot`. */
  function Dist(c: Circle, box: Aabb, m: MathHost): real
  {
    m.hypot(OffsetX(c, box), OffsetY(c, box))
  }

  /**
   * The push-out branch of the resolver, for a non-zero distance: the depth is the
   * radius less the distance, the normal is the offset divided by the distance, and
   * the circle moves along the normal by the depth.
   */
  function PushOut(c: Circle, dx: real, dy: real, dist: real): (r: Resolution)
    requires dist != 0.0
    ensures r.circle.radius == c.radius
    ensures r.contact.None? <==> c.radius - dist <= 0.0
    ensures r.contact.None? ==> r.circle == c
    ensures r.contact.Some? ==>
              var k := r.contact.value;
              && k.overlap == c.radius - dist > 0.0
              && k.nx * dist == dx && k.ny * dist == dy
              && r.circle == Circle(c.x + k.nx * k.overlap, c.y + k.ny * k.overlap, c.radius)
              && (k.axis == X <==> Abs(k.nx) > Abs(k.ny))
  {
    var overlap := c.radius - dist;
    if overlap <= 0.0 then
      Resolution(None, c)
    else
      var nx := dx / dist;
      var ny := dy / dist;
      var axis := if Abs(nx) > Abs(ny) then X else Y;
      Resolution(Some(Contact(axis, nx, ny, overlap)), Circle(c.x + nx * overlap, c.y + ny * overlap, c.radius))
  }

  /**
   * `resolveCircleAabb(circle, aabb)`. A centre at distance 0 from the box gets the
   * nearest-edge fallback and is not moved; otherwise a positive depth pushes the
   * circle out along the normal by that depth, and no depth yields null.
   */
  function ResolveCircleAabb(c: Circle, box: Aabb, m: MathHost): (r: Resolution)
    ensures r.circle.radius == c.radius
    ensures r.contact.None? ==> r.circle == c
    ensures Dist(c, box, m) == 0.0 ==> r.circle == c && r.contact == Some(EdgeContact(NearestSide(c, box), c.radius))
    ensures Dist(c, box, m) != 0.0 ==> r == PushOut(c, OffsetX(c, box), OffsetY(c, box), Dist(c, box, m))
    ensures r.contact.Some? ==> (r.contact.value.axis == X <==> Abs(r.contact.value.nx) > Abs(r.contact.value.ny))
  {
    var dist := Dist(c, box, m);
    if dist == 0.0 then
      Resolution(Some(EdgeContact(NearestSide(c, box), c.radius)), c)
    else
      PushOut(c, OffsetX(c, box), OffsetY(c, box), dist)
  }

  lemma SquareStrictMonotone(a: real, b: real)
    requires 0.0 <= a < b
    ensures a * a < b * b
  {
    var lo, mid, hi := a * a, a * b, b * b;
    assert lo <= mid;
    assert mid < hi;
  }

  /** A non-negative number whose square is a*a is |a|. */
  lemma RootOfSquare(h: real, a: real)
    requires h >= 0.0 && h * h == a * a
    ensures h == Abs(a)
  {
    var b := Abs(a);
    assert b * b == a * a;
    if h > b {
      SquareStrictMonotone(b, h);
    } else if h < b {
      SquareStrictMonotone(h, b);
    }
  }

  /** (a d)^2 = a^2 d^2. */
  lemma ScaledSquare(a: real, d: real)
    ensures (a * d) * (a * d) == (a * a) * (d * d)
  {
  }

  lemma Distribute(a: real, b: real, k: real)
    ensures (a + b) * k == a * k + b * k
  {
  }

  /** n D = D with D non-zero forces n = 1. */
  lemma CancelFactor(n: real, dd: real, product: real)
    requires dd != 0.0 && product == n * dd && product == dd
    ensures n == 1.0
  {
  }

  /** The law of `hypot` at one point, for a value already known to be that result. */
  lemma HypotSquared(m: MathHost, x: real, y: real, h: real)
    requires HypotAt(m, x, y) && h == m.hypot(x, y)
    ensures h >= 0.0 && h * h == x * x + y * y
  {
  }

  /**
   * Whenever the distance is the length of the offset from a point (px, py) to the
   * centre, a push-out uses a unit normal and leaves the centre exactly one radius
   * from that point.
   */
  lemma PushOutUnitNormal(c: Circle, px: real, py: real, dx: real, dy: real, d: real)
    requires dx == c.x - px && dy == c.y - py
    requires d != 0.0 && d * d == dx * dx + dy * dy
    ensures var r := PushOut(c, dx, dy, d);
            r.contact.Some? ==>
              && r.contact.value.nx * r.contact.value.nx + r.contact.value.ny * r.contact.value.ny == 1.0
              && (r.circle.x - px) * (r.circle.x - px) + (r.circle.y - py) * (r.circle.y - py) == c.radius * c.radius
  {
    var r := PushOut(c, dx, dy, d);
    if r.contact.Some? {
      MovedOneRadius(c, r.contact.value, r.circle, px, py, dx, dy, d);
    }
  }

  /** The arithmetic of a push-out, stated on the contact and the moved circle it reports. */
  lemma MovedOneRadius(c: Circle, k: Contact, moved: Circle, px: real, py: real, dx: real, dy: real, d: real)
    requires dx == c.x - px && dy == c.y - py
    requires d != 0.0 && d * d == dx * dx + dy * dy
    requires k.overlap == c.radius - d && k.nx * d == dx && k.ny * d == dy
    requires moved == Circle(c.x + k.nx * k.overlap, c.y + k.ny * k.overlap, c.radius)
    ensures k.nx * k.nx + k.ny * k.ny == 1.0
    ensures (moved.x - px) * (moved.x - px) + (moved.y - py) * (moved.y - py) == c.radius * c.radius
  {
    var nx, ny, rad := k.nx, k.ny, c.radius;
    UnitFromScaled(nx, ny, d, dx, dy);
    MoveAlong(nx, d, rad, c.x, px, dx);
    MoveAlong(ny, d, rad, c.y, py, dy);
    ScaledLength(nx, ny, rad, moved.x - px, moved.y - py);
  }

  /** Moving by n (rad - d) from a point n d away from p ends n rad away from p. */
  lemma MoveAlong(n: real, d: real, rad: real, from: real, p: real, delta: real)
    requires delta == from - p && n * d == delta
    ensures (from + n * (rad - d)) - p == n * rad
  {
    assert n * (rad - d) == n * rad - n * d;
  }

  /** (dx, dy) = d (nx, ny) with |(dx, dy)| = |d| makes (nx, ny) a unit vector. */
  lemma UnitFromScaled(nx: real, ny: real, d: real, dx: real, dy: real)
    requires d != 0.0 && nx * d == dx && ny * d == dy && d * d == dx * dx + dy * dy
    ensures nx * nx + ny * ny == 1.0
  {
    var dd := d * d;
    ScaledSquare(nx, d);
    ScaledSquare(ny, d);
    var sx, sy := nx * nx, ny * ny;
    var ex, ey := dx * dx, dy * dy;
    var fx, fy := sx * dd, sy * dd;
    assert ex == fx && ey == fy;
    assert dd == ex + ey;
    Distribute(sx, sy, dd);
    var total := (sx + sy) * dd;
    assert total == fx + fy;
    assert total == dd;
    assert dd != 0.0 by {
      if d > 0.0 {
        SquareStrictMonotone(0.0, d);
      } else {
        SquareStrictMonotone(0.0, -d);
      }
    }
    CancelFactor(sx + sy, dd, total);
  }

  /** A unit vector scaled by rad has length rad. */
  lemma ScaledLength(nx: real, ny: real, rad: real, ox: real, oy: real)
    requires ox == nx * rad && oy == ny * rad && nx * nx + ny * ny == 1.0
    ensures ox * ox + oy * oy == rad * rad
  {
    ScaledSquare(nx, rad);
    ScaledSquare(ny, rad);
    var sx, sy, rr := nx * nx, ny * ny, rad * rad;
    Distribute(sx, sy, rr);
    var total := (sx + sy) * rr;
    assert total == rr;
  }

  /** A push-out happens only when the distance is below the radius. */
  lemma PushOutWithinRadius(c: Circle, dx: real, dy: real, d: real)
    requires 0.0 < d && PushOut(c, dx, dy, d).contact.Some?
    ensures d * d < c.radius * c.radius
  {
    SquareStrictMonotone(d, c.radius);
  }

  /** A non-null resolution implies the overlap test holds on the same inputs. */
  lemma ResolvedImpliesOverlap(c: Circle, box: Aabb, m: MathHost)
    requires HypotAt(m, OffsetX(c, box), OffsetY(c, box))
    requires ResolveCircleAabb(c, box, m).contact.Some?
    ensures CircleVsAabb(c.x, c.y, c.radius, box)
  {
    ResolvedWithinRadius(c, box, m);
    DistSquared(c, box, m);
    SquareWithin(Dist(c, box, m), c.radius);
  }

  /** With an exact `hypot`, the distance is non-negative and squares to the squared distance to the box. */
  lemma DistSquared(c: Circle, box: Aabb, m: MathHost)
    requires HypotAt(m, OffsetX(c, box), OffsetY(c, box))
    ensures Dist(c, box, m) >= 0.0 && SqDistToBox(c.x, c.y, box) == Dist(c, box, m) * Dist(c, box, m)
  {
    HypotSquared(m, OffsetX(c, box), OffsetY(c, box), Dist(c, box, m));
  }

  /** A resolution at a non-zero distance is reported only for a distance below the radius. */
  lemma ResolvedWithinRadius(c: Circle, box: Aabb, m: MathHost)
    requires ResolveCircleAabb(c, box, m).contact.Some?
    ensures Dist(c, box, m) == 0.0 || Dist(c, box, m) < c.radius
  {
  }

  /** A distance of zero, or one below the radius, squares to at most the radius squared. */
  lemma SquareWithin(d: real, r: real)
    requires 0.0 <= d && (d == 0.0 || d < r)
    ensures d * d <= r * r
  {
    if d == 0.0 {
      assert r * r >= 0.0 by {
        if r < 0.0 {
          assert r * r == (-r) * (-r);
        }
      }
    } else {
      SquareStrictMonotone(d, r);
    }
  }

  /** An overlap deeper than tangent contact always yields a resolution. */
  lemma StrictOverlapResolves(c: Circle, box: Aabb, m: MathHost)
    requires HypotAt(m, OffsetX(c, box), OffsetY(c, box))
    requires c.radius >= 0.0 && SqDistToBox(c.x, c.y, box) < c.radius * c.radius
    ensures ResolveCircleAabb(c, box, m).contact.Some?
  {
    var dx, dy := OffsetX(c, box), OffsetY(c, box);
    var d := Dist(c, box, m);
    HypotSquared(m, dx, dy, d);
    var dd, rr := d * d, c.radius * c.radius;
    assert SqDistToBox(c.x, c.y, box) == dd;
    if d != 0.0 && c.radius <= d {
      SquareMonotone(c.radius, d);
    }
  }

  /**
   * Tangent contact: the overlap test holds but the resolver returns null, which
   * is why the block pass of the world needs a fallback for a null resolution.
   */
  lemma TangentContactIsNotResolved(m: MathHost)
    requires HypotAt(m, 0.0, -5.0)
    ensures CircleVsAabb(5.0, -5.0, 5.0, Aabb(0.0, 0.0, 10.0, 10.0))
    ensures ResolveCircleAabb(Circle(5.0, -5.0, 5.0), Aabb(0.0, 0.0, 10.0, 10.0), m).contact.None?
  {
    RootOfSquare(m.hypot(0.0, -5.0), -5.0);
  }

  /**
   * Applies the resolver against every box in turn, `passes` times over, counting
   * the non-null results. This is the multi-pass scheme the collision tests
   * exercise; the world's block pass does not use it.
   */
  function ResolvePasses(c: Circle, boxes: seq<Aabb>, passes: nat, m: MathHost): (r: (Circle, nat))
    ensures passes == 0 ==> r == (c, 0)
    decreases passes
  {
    if passes == 0 then (c, 0)
    else
      var once := ResolveAll(c, boxes, m);
      var rest := ResolvePasses(once.0, boxes, passes - 1, m);
      (rest.0, once.1 + rest.1)
  }

  /** One pass of `ResolvePasses`: every box in order, against the circle as moved so far. */
  function ResolveAll(c: Circle, boxes: seq<Aabb>, m: MathHost): (r: (Circle, nat))
    ensures r.1 <= |boxes|
    decreases |boxes|
  {
    if boxes == [] then (c, 0)
    else
      var res := ResolveCircleAabb(c, boxes[0], m);
      var rest := ResolveAll(res.circle, boxes[1..], m);
      (rest.0, rest.1 + if res.contact.Some? then 1 else 0)
  }

  /** The first block of the collision tests' scenario pushes the ball from x = 182 to x = 188. */
  lemma ScenarioFirstContact(m: MathHost)
    requires HypotAt(m, 2.0, 0.0)
    ensures ResolveCircleAabb(Circle(182.0, 111.0, 8.0), Aabb(100.0, 100.0, 80.0, 22.0), m)
            == Resolution(Some(Contact(X, 1.0, 0.0, 6.0)), Circle(188.0, 111.0, 8.0))
  {
    var ball, b1 := Circle(182.0, 111.0, 8.0), Aabb(100.0, 100.0, 80.0, 22.0);
    assert OffsetX(ball, b1) == 2.0 && OffsetY(ball, b1) == 0.0;
    RootOfSquare(m.hypot(2.0, 0.0), 2.0);
    assert Dist(ball, b1, m) == 2.0;
  }

  /** The ball at x = 182 also overlaps the second block by itself (6 units deep). */
  lemma ScenarioSecondContact(m: MathHost)
    requires HypotAt(m, -6.0, 0.0)
    ensures ResolveCircleAabb(Circle(182.0, 111.0, 8.0), Aabb(188.0, 100.0, 80.0, 22.0), m).contact.Some?
  {
    var ball, b2 := Circle(182.0, 111.0, 8.0), Aabb(188.0, 100.0, 80.0, 22.0);
    assert OffsetX(ball, b2) == -6.0 && OffsetY(ball, b2) == 0.0;
    RootOfSquare(m.hypot(-6.0, 0.0), -6.0);
    assert Dist(ball, b2, m) == 6.0;
  }

  /**
   * At x = 188 the centre lies on the second block's left edge: the fallback
   * answers with the left normal and the full radius, without moving the ball.
   */
  lemma ScenarioEdgeFallback(m: MathHost)
    requires HypotAt(m, 0.0, 0.0)
    ensures ResolveCircleAabb(Circle(188.0, 111.0, 8.0), Aabb(188.0, 100.0, 80.0, 22.0), m)
            == Resolution(Some(Contact(X, -1.0, 0.0, 8.0)), Circle(188.0, 111.0, 8.0))
  {
    var moved, b2 := Circle(188.0, 111.0, 8.0), Aabb(188.0, 100.0, 80.0, 22.0);
    assert OffsetX(moved, b2) == 0.0 && OffsetY(moved, b2) == 0.0;
    RootOfSquare(m.hypot(0.0, 0.0), 0.0);
    assert Gap(moved, b2, Left) == 0.0;
    assert NearestSide(moved, b2) == Left;
  }

  /** At x = 188 the ball is exactly tangent to the first block, which resolves to null. */
  lemma ScenarioTangent(m: MathHost)
    requires HypotAt(m, 8.0, 0.0)
    ensures ResolveCircleAabb(Circle(188.0, 111.0, 8.0), Aabb(100.0, 100.0, 80.0, 22.0), m)
            == Resolution(None, Circle(188.0, 111.0, 8.0))
  {
    var moved, b1 := Circle(188.0, 111.0, 8.0), Aabb(100.0, 100.0, 80.0, 22.0);
    assert OffsetX(moved, b1) == 8.0 && OffsetY(moved, b1) == 0.0;
    RootOfSquare(m.hypot(8.0, 0.0), 8.0);
  }

  /**
   * The scenario of the collision tests: a ball of radius 8 at (182, 111) touches
   * both blocks, and three passes over the two give four resolutions (at least two).
   */
  lemma ThreePassesResolveBothBlocks(m: MathHost)
    requires HypotAt(m, 2.0, 0.0) && HypotAt(m, -6.0, 0.0) && HypotAt(m, 0.0, 0.0) && HypotAt(m, 8.0, 0.0)
    ensures var ball := Circle(182.0, 111.0, 8.0);
            var b1, b2 := Aabb(100.0, 100.0, 80.0, 22.0), Aabb(188.0, 100.0, 80.0, 22.0);
            && ResolveCircleAabb(ball, b1, m).contact.Some?
            && ResolveCircleAabb(ball, b2, m).contact.Some?
            && ResolvePasses(ball, [b1, b2], 3, m).1 == 4
  {
    var b1, b2 := Aabb(100.0, 100.0, 80.0, 22.0), Aabb(188.0, 100.0, 80.0, 22.0);
    var ball, moved := Circle(182.0, 111.0, 8.0), Circle(188.0, 111.0, 8.0);
    ScenarioFirstContact(m);
    ScenarioSecondContact(m);
    ScenarioEdgeFallback(m);
    ScenarioTangent(m);
    assert [b1, b2][1..] == [b2];
    assert ResolveAll(moved, [b2], m) == (moved, 1);
    assert ResolveAll(ball, [b1, b2], m) == (moved, 2);
    assert ResolveAll(moved, [b1, b2], m) == (moved, 1);
    assert ResolvePasses(moved, [b1, b2], 1, m) == (moved, 1);
    assert ResolvePasses(moved, [b1, b2], 2, m) == (moved, 2);
  }
}
