/** Point motion: what updatePoints does to one point in one frame, and how
    createPoints seeds a point from four random draws.

    One frame has two phases. Integrate is the Euler step, the velocity flip of a
    coordinate that left the canvas and the clamp back into [0, width] x [0, height].
    Pull is the mouse attraction, which runs after the clamp. Math.sqrt is the
    parameter `sqrt`; where a property needs it to be the exact square root it
    says so with IsSqrt. The direction of the pull, (cos, sin) of atan2(dy, dx),
    is (dx / d, dy / d) for d = |(dx, dy)| > 0 and (1, 0) when d = 0, because
    atan2(0, 0) = 0. */
module Kinematics {
  import opened Randomness

  type NonNeg = r: real | 0.0 <= r

  datatype Vec = Vec(x: real, y: real)

  /** A particle: position in canvas pixels and velocity in pixels per frame. */
  datatype Point = Point(x: real, y: real, vx: real, vy: real)

  /** sqrt returns the exact non-negative square root of every non-negative real. */
  ghost predicate IsSqrt(sqrt: real -> NonNeg) {
    forall s: real :: 0.0 <= s ==> sqrt(s) * sqrt(s) == s
  }

  /** sqrt returns the square root of the one value s. */
  predicate IsRootAt(sqrt: real -> NonNeg, s: real) {
    sqrt(s) * sqrt(s) == s
  }

  lemma RootAt(sqrt: real -> NonNeg, s: real)
    requires IsSqrt(sqrt) && 0.0 <= s
    ensures IsRootAt(sqrt, s)
  {
  }

  function Abs(a: real): real {
    if a < 0.0 then -a else a
  }

  /** Math.max(0, Math.min(hi, v)). */
  function Clamp(v: real, hi: real): (r: real)
    requires 0.0 <= hi
    ensures 0.0 <= r <= hi
    ensures 0.0 <= v <= hi ==> r == v
    ensures v < 0.0 ==> r == 0.0
    ensures hi < v ==> r == hi
  {
    var m := if hi < v then hi else v;
    if m < 0.0 then 0.0 else m
  }

  /** The test `v < 0 || v > hi` that triggers a velocity flip. */
  predicate Outside(v: real, hi: real) {
    v < 0.0 || v > hi
  }

  /** First phase of a frame for one point on a w x h canvas: move by the velocity,
      negate each velocity component whose coordinate left the canvas, clamp. */
  function Integrate(p: Point, w: real, h: real): (r: Point)
    requires 0.0 <= w && 0.0 <= h
    ensures InCanvas(r, w, h)
    ensures Abs(r.vx) == Abs(p.vx) && Abs(r.vy) == Abs(p.vy)
    ensures !Outside(p.x + p.vx, w) ==> r.x == p.x + p.vx && r.vx == p.vx
    ensures !Outside(p.y + p.vy, h) ==> r.y == p.y + p.vy && r.vy == p.vy
  {
    var x, y := p.x + p.vx, p.y + p.vy;
    var vx := if Outside(x, w) then -p.vx else p.vx;
    var vy := if Outside(y, h) then -p.vy else p.vy;
    Point(Clamp(x, w), Clamp(y, h), vx, vy)
  }

  /** A velocity component changes exactly when it is non-zero and the integrated
      coordinate is outside the canvas; with the magnitude kept, the change is a
      negation. */
  lemma VelocityFlip(p: Point, w: real, h: real)
    requires 0.0 <= w && 0.0 <= h
    ensures var r := Integrate(p, w, h);
      && (r.vx != p.vx <==> p.vx != 0.0 && Outside(p.x + p.vx, w))
      && (r.vy != p.vy <==> p.vy != 0.0 && Outside(p.y + p.vy, h))
      && (r.vx == p.vx || r.vx == -p.vx) && (r.vy == p.vy || r.vy == -p.vy)
  {
  }

  /** A point that starts on the canvas and crosses an edge leaves the phase with a
      velocity component that points back inside. */
  lemma FlipTurnsInward(p: Point, w: real, h: real)
    requires 0.0 <= w && 0.0 <= h
    requires 0.0 <= p.x <= w && 0.0 <= p.y <= h
    ensures var r := Integrate(p, w, h);
      && (p.x + p.vx < 0.0 ==> r.vx > 0.0) && (p.x + p.vx > w ==> r.vx < 0.0)
      && (p.y + p.vy < 0.0 ==> r.vy > 0.0) && (p.y + p.vy > h ==> r.vy < 0.0)
  {
  }

  /** The pull strength (radius - d) / radius: 1 at the cursor, falling to 0 at the radius. */
  function Force(d: real, radius: real): real
    requires 0.0 < radius
  {
    (radius - d) / radius
  }

  lemma ForceRange(d: real, radius: real)
    requires 0.0 <= d < radius
    ensures 0.0 < Force(d, radius) <= 1.0
    ensures d == 0.0 <==> Force(d, radius) == 1.0
  {
  }

  lemma ForceDecreasing(d1: real, d2: real, radius: real)
    requires 0.0 < radius && d1 < d2
    ensures Force(d1, radius) > Force(d2, radius)
  {
    assert (radius - d1) / radius - (radius - d2) / radius == (d2 - d1) / radius;
  }

  /** (cos, sin) of atan2(dy, dx) for a vector of length d. */
  function Direction(dx: real, dy: real, d: NonNeg): Vec {
    if d == 0.0 then Vec(1.0, 0.0) else Vec(dx / d, dy / d)
  }

  function Scale(v: Vec, k: real): Vec {
    Vec(v.x * k, v.y * k)
  }

  /** The squared length of a vector. */
  function Norm2(v: Vec): real {
    v.x * v.x + v.y * v.y
  }

  /** Where r lies relative to p. */
  function Offset(p: Point, r: Point): Vec {
    Vec(r.x - p.x, r.y - p.y)
  }

  /** Math.sqrt(dx * dx + dy * dy) between a point and a position. */
  function DistanceTo(p: Point, q: Vec, sqrt: real -> NonNeg): NonNeg {
    sqrt(Norm2(Vec(q.x - p.x, q.y - p.y)))
  }

  /** Second phase of a frame: inside the influence radius the point is displaced by
      force * 2 towards the mouse; the velocity is never touched. */
  function Pull(p: Point, mouse: Vec, influence: int, sqrt: real -> NonNeg): (r: Point)
    ensures r.vx == p.vx && r.vy == p.vy
    ensures DistanceTo(p, mouse, sqrt) >= influence as real ==> r == p
  {
    var d := DistanceTo(p, mouse, sqrt);
    if d < influence as real then
      var force := Force(d, influence as real);
      var e := Scale(Direction(mouse.x - p.x, mouse.y - p.y, d), force * 2.0);
      p.(x := p.x + e.x, y := p.y + e.y)
    else p
  }

  /** Inside the radius the pull has strength force in (0, 1] and moves the point by
      a distance of force * 2, so by at most 2 pixels. Only the square root of this
      one distance needs to be exact. */
  lemma PullLength(p: Point, mouse: Vec, influence: int, sqrt: real -> NonNeg)
    requires IsRootAt(sqrt, Norm2(Vec(mouse.x - p.x, mouse.y - p.y)))
    requires DistanceTo(p, mouse, sqrt) < influence as real
    ensures var f := Force(DistanceTo(p, mouse, sqrt), influence as real);
      && 0.0 < f <= 1.0
      && Norm2(Offset(p, Pull(p, mouse, influence, sqrt))) == 4.0 * f * f <= 4.0
  {
    PullFacts(p, mouse, influence, sqrt);
    DisplacementFacts(mouse.x - p.x, mouse.y - p.y, DistanceTo(p, mouse, sqrt),
                      Force(DistanceTo(p, mouse, sqrt), influence as real));
  }

  /** Inside the radius the point moves along the line to the mouse, towards it; a
      point exactly under the cursor (atan2(0, 0) = 0) moves 2 * force to the right. */
  lemma PullTowardsMouse(p: Point, mouse: Vec, influence: int, sqrt: real -> NonNeg)
    requires IsRootAt(sqrt, Norm2(Vec(mouse.x - p.x, mouse.y - p.y)))
    requires DistanceTo(p, mouse, sqrt) < influence as real
    ensures var d := DistanceTo(p, mouse, sqrt);
      var f := Force(d, influence as real);
      var e := Offset(p, Pull(p, mouse, influence, sqrt));
      && (d > 0.0 ==> e.x * d == 2.0 * f * (mouse.x - p.x) && e.y * d == 2.0 * f * (mouse.y - p.y))
      && (d == 0.0 ==> e == Vec(2.0 * f, 0.0))
  {
    PullFacts(p, mouse, influence, sqrt);
    DisplacementFacts(mouse.x - p.x, mouse.y - p.y, DistanceTo(p, mouse, sqrt),
                      Force(DistanceTo(p, mouse, sqrt), influence as real));
  }

  /** The facts PullLength and PullTowardsMouse read off. */
  lemma PullFacts(p: Point, mouse: Vec, influence: int, sqrt: real -> NonNeg)
    requires IsRootAt(sqrt, Norm2(Vec(mouse.x - p.x, mouse.y - p.y)))
    requires DistanceTo(p, mouse, sqrt) < influence as real
    ensures var d := DistanceTo(p, mouse, sqrt);
      var f := Force(d, influence as real);
      && 0.0 < f <= 1.0
      && d * d == Norm2(Vec(mouse.x - p.x, mouse.y - p.y))
      && Offset(p, Pull(p, mouse, influence, sqrt)) == Scale(Direction(mouse.x - p.x, mouse.y - p.y, d), f * 2.0)
  {
    ForceRange(DistanceTo(p, mouse, sqrt), influence as real);
    PullOffset(p, mouse, influence, sqrt);
    DistanceSquared(p, mouse, sqrt);
  }

  lemma DistanceSquared(p: Point, mouse: Vec, sqrt: real -> NonNeg)
    requires IsRootAt(sqrt, Norm2(Vec(mouse.x - p.x, mouse.y - p.y)))
    ensures DistanceTo(p, mouse, sqrt) * DistanceTo(p, mouse, sqrt) == Norm2(Vec(mouse.x - p.x, mouse.y - p.y))
  {
  }

  /** Inside the radius, the point moves by the scaled direction. */
  lemma PullOffset(p: Point, mouse: Vec, influence: int, sqrt: real -> NonNeg)
    requires DistanceTo(p, mouse, sqrt) < influence as real
    ensures var d := DistanceTo(p, mouse, sqrt);
      Offset(p, Pull(p, mouse, influence, sqrt))
        == Scale(Direction(mouse.x - p.x, mouse.y - p.y, d), Force(d, influence as real) * 2.0)
  {
  }

  /** The displacement 2 * f * Direction(dx, dy, d) of a pull of strength f. */
  lemma DisplacementFacts(dx: real, dy: real, d: NonNeg, f: real)
    requires 0.0 < f <= 1.0 && d * d == Norm2(Vec(dx, dy))
    ensures var e := Scale(Direction(dx, dy, d), f * 2.0);
      && Norm2(e) == 4.0 * f * f <= 4.0
      && (d > 0.0 ==> e.x * d == 2.0 * f * dx && e.y * d == 2.0 * f * dy)
      && (d == 0.0 ==> e == Vec(2.0 * f, 0.0))
  {
    ForceSquareBound(f);
    if d > 0.0 {
      UnitVector(dx, dy, d, dx / d, dy / d);
      ScaledUnit(dx / d, dy / d, f);
      AlongLine(dx, d, f);
      AlongLine(dy, d, f);
    }
  }

  // Real arithmetic behind DisplacementFacts, each fact in its own small context.

  lemma NonNegProduct(a: real, b: real)
    requires 0.0 <= a && 0.0 <= b
    ensures 0.0 <= a * b
  {
  }

  lemma ZeroFactor(a: real, b: real)
    requires 0.0 < b && a * b == 0.0
    ensures a == 0.0
  {
  }

  /** (dx / d, dy / d) is a unit vector when d is the length of (dx, dy). */
  lemma UnitVector(dx: real, dy: real, d: real, ux: real, uy: real)
    requires 0.0 < d && d * d == dx * dx + dy * dy
    requires ux * d == dx && uy * d == dy
    ensures ux * ux + uy * uy == 1.0
  {
    assert (ux * ux + uy * uy) * (d * d) - (dx * dx + dy * dy) == 0.0;
    assert (ux * ux + uy * uy - 1.0) * (d * d) == 0.0;
    ZeroFactor((ux * ux + uy * uy - 1.0) * d, d);
    ZeroFactor(ux * ux + uy * uy - 1.0, d);
  }

  /** A unit vector scaled by 2 * f has squared length 4 * f * f. */
  lemma ScaledUnit(ux: real, uy: real, f: real)
    requires ux * ux + uy * uy == 1.0
    ensures Norm2(Scale(Vec(ux, uy), f * 2.0)) == 4.0 * f * f
  {
    var k := f * 2.0;
    assert (ux * k) * (ux * k) + (uy * k) * (uy * k) - 4.0 * f * f == 4.0 * f * f * (ux * ux + uy * uy - 1.0);
  }

  lemma ForceSquareBound(f: real)
    requires 0.0 < f <= 1.0
    ensures 4.0 * f * f <= 4.0
  {
    NonNegProduct(f, 1.0 - f);
  }

  lemma AlongLine(a: real, d: real, f: real)
    requires 0.0 < d
    ensures (a / d * (f * 2.0)) * d == 2.0 * f * a
  {
    assert (a / d) * d == a;
  }

  lemma NormNonNegative(v: Vec)
    ensures Norm2(v) >= 0.0
  {
    SquareNonNegative(v.x);
    SquareNonNegative(v.y);
  }

  lemma SquareNonNegative(a: real)
    ensures a * a >= 0.0
  {
    if a < 0.0 {
      NonNegProduct(-a, -a);
    } else {
      NonNegProduct(a, a);
    }
  }

  /** A vector of length at most 2 has both components in [-2, 2]. */
  lemma NormBound(v: Vec)
    requires Norm2(v) <= 4.0
    ensures -2.0 <= v.x <= 2.0 && -2.0 <= v.y <= 2.0
  {
    SquareNonNegative(v.x);
    SquareNonNegative(v.y);
    SquareBound(v.x);
    SquareBound(v.y);
  }

  lemma SquareBound(a: real)
    requires a * a <= 4.0
    ensures -2.0 <= a <= 2.0
  {
  }

  /** The only non-negative square root of 0.25. */
  lemma RootOfQuarter(d: real)
    requires 0.0 <= d && d * d == 0.25
    ensures d == 0.5
  {
    assert (d - 0.5) * (d + 0.5) == 0.0;
    ZeroFactor(d - 0.5, d + 0.5);
  }

  /** One frame of updatePoints for one point. */
  function Step(p: Point, w: real, h: real, mouse: Vec, influence: int, sqrt: real -> NonNeg): Point
    requires 0.0 <= w && 0.0 <= h
  {
    Pull(Integrate(p, w, h), mouse, influence, sqrt)
  }

  /** updatePoints over the whole point set: every point takes one Step. */
  function Stepped(ps: seq<Point>, w: real, h: real, mouse: Vec, influence: int, sqrt: real -> NonNeg): seq<Point>
    requires 0.0 <= w && 0.0 <= h
  {
    seq(|ps|, i requires 0 <= i < |ps| => Step(ps[i], w, h, mouse, influence, sqrt))
  }

  predicate InCanvas(p: Point, w: real, h: real) {
    0.0 <= p.x <= w && 0.0 <= p.y <= h
  }

  /** Within 2 pixels of the canvas: where a point can be once the pull has run. */
  predicate NearCanvas(p: Point, w: real, h: real) {
    -2.0 <= p.x <= w + 2.0 && -2.0 <= p.y <= h + 2.0
  }

  /** The bounds hold at the clamp, not at the end of the step: the pull can carry a
      point up to 2 pixels past an edge. Whatever the point's previous position or
      velocity, after a step it is within 2 pixels of the canvas. */
  lemma StepNearCanvas(p: Point, w: real, h: real, mouse: Vec, influence: int, sqrt: real -> NonNeg)
    requires 0.0 <= w && 0.0 <= h && IsSqrt(sqrt)
    ensures NearCanvas(Step(p, w, h, mouse, influence, sqrt), w, h)
  {
    var q := Integrate(p, w, h);
    if DistanceTo(q, mouse, sqrt) < influence as real {
      var gap := Vec(mouse.x - q.x, mouse.y - q.y);
      NormNonNegative(gap);
      RootAt(sqrt, Norm2(gap));
      PullLength(q, mouse, influence, sqrt);
      NormBound(Offset(q, Pull(q, mouse, influence, sqrt)));
    }
  }

  lemma SteppedNearCanvas(ps: seq<Point>, w: real, h: real, mouse: Vec, influence: int, sqrt: real -> NonNeg)
    requires 0.0 <= w && 0.0 <= h && IsSqrt(sqrt)
    ensures var r := Stepped(ps, w, h, mouse, influence, sqrt);
      |r| == |ps| && forall i | 0 <= i < |r| :: NearCanvas(r[i], w, h)
  {
    var r := Stepped(ps, w, h, mouse, influence, sqrt);
    forall i | 0 <= i < |r| ensures NearCanvas(r[i], w, h) {
      StepNearCanvas(ps[i], w, h, mouse, influence, sqrt);
    }
  }

  /** A point half a pixel left of a cursor that sits one pixel inside the right
      edge of a 100 x 100 canvas ends the step at x = 100.49, off the canvas. */
  lemma PullCanLeaveCanvas(sqrt: real -> NonNeg)
    requires IsRootAt(sqrt, 0.25)
    ensures Step(Point(98.5, 50.0, 0.0, 0.0), 100.0, 100.0, Vec(99.0, 50.0), 100, sqrt).x > 100.0
  {
    var p := Point(98.5, 50.0, 0.0, 0.0);
    var m := Vec(99.0, 50.0);
    assert Integrate(p, 100.0, 100.0) == p;
    assert Norm2(Vec(m.x - p.x, m.y - p.y)) == 0.25;
    var d := DistanceTo(p, m, sqrt);
    RootOfQuarter(d);
    assert Direction(m.x - p.x, m.y - p.y, d) == Vec(1.0, 0.0);
  }

  /** The point createPoints builds from draws 4i .. 4i+3: position uniform over the
      canvas, each velocity component (draw - 0.5) * speed. */
  function SeedPoint(rand: nat -> real, i: nat, w: real, h: real, speed: real): Point {
    Point(rand(4 * i) * w, rand(4 * i + 1) * h,
          (rand(4 * i + 2) - 0.5) * speed, (rand(4 * i + 3) - 0.5) * speed)
  }

  /** The point set createPoints builds for a point count n (none when n <= 0). */
  function Seeded(rand: nat -> real, n: int, w: real, h: real, speed: real): seq<Point> {
    var count := if n > 0 then n else 0;
    seq(count, i requires 0 <= i < count => SeedPoint(rand, i, w, h, speed))
  }

  /** Pushing the point for draw group n extends the point set for n points. */
  lemma SeededPush(rand: nat -> real, n: nat, w: real, h: real, speed: real)
    ensures Seeded(rand, n + 1, w, h, speed) == Seeded(rand, n, w, h, speed) + [SeedPoint(rand, n, w, h, speed)]
  {
    var a, b := Seeded(rand, n + 1, w, h, speed), Seeded(rand, n, w, h, speed);
    assert |a| == |b| + 1;
    forall k | 0 <= k < |a| ensures a[k] == (b + [SeedPoint(rand, n, w, h, speed)])[k] {
    }
  }

  /** Where createPoints puts a point: on the canvas and strictly before its far
      edges, with each velocity component in [-speed/2, speed/2). */
  predicate Seedling(p: Point, w: real, h: real, speed: real) {
    && Spread(p.x, w) && Spread(p.y, h)
    && HalfSpeed(p.vx, speed) && HalfSpeed(p.vy, speed)
  }

  /** A velocity component in [-speed/2, speed/2), or 0 when speed = 0. */
  predicate HalfSpeed(v: real, speed: real) {
    -speed / 2.0 <= v <= speed / 2.0 && (0.0 < speed ==> v < speed / 2.0)
  }

  /** With draws in [0, 1): exactly max(n, 0) points, each a Seedling. */
  lemma SeededShape(rand: nat -> real, n: int, w: real, h: real, speed: real)
    requires IsUnitStream(rand) && 0.0 <= w && 0.0 <= h && 0.0 <= speed
    ensures var ps := Seeded(rand, n, w, h, speed);
      && |ps| == (if n > 0 then n else 0)
      && forall i | 0 <= i < |ps| :: Seedling(ps[i], w, h, speed)
  {
    var ps := Seeded(rand, n, w, h, speed);
    forall i | 0 <= i < |ps| ensures Seedling(ps[i], w, h, speed) {
      var a, b, c, e := rand(4 * i), rand(4 * i + 1), rand(4 * i + 2), rand(4 * i + 3);
      UnitDraw(rand, 4 * i);
      UnitDraw(rand, 4 * i + 1);
      UnitDraw(rand, 4 * i + 2);
      UnitDraw(rand, 4 * i + 3);
      assert ps[i] == Point(a * w, b * h, (c - 0.5) * speed, (e - 0.5) * speed);
      SeedPointShape(a, b, c, e, w, h, speed);
    }
  }

  /** The point seeded from draws a, b, c, e in [0, 1) is a Seedling. */
  lemma SeedPointShape(a: real, b: real, c: real, e: real, w: real, h: real, speed: real)
    requires 0.0 <= a < 1.0 && 0.0 <= b < 1.0 && 0.0 <= c < 1.0 && 0.0 <= e < 1.0
    requires 0.0 <= w && 0.0 <= h && 0.0 <= speed
    ensures Seedling(Point(a * w, b * h, (c - 0.5) * speed, (e - 0.5) * speed), w, h, speed)
  {
    UnitScale(a, w);
    UnitScale(b, h);
    Centred(c, speed);
    Centred(e, speed);
  }

  /** A coordinate in [0, w), or 0 when w = 0. */
  predicate Spread(x: real, w: real) {
    0.0 <= x <= w && (0.0 < w ==> x < w)
  }

  /** A draw in [0, 1) scales [0, w] into [0, w), or onto 0 when w = 0. */
  lemma UnitScale(a: real, w: real)
    requires 0.0 <= a < 1.0 && 0.0 <= w
    ensures Spread(a * w, w)
  {
    NonNegProduct(a, w);
    NonNegProduct(1.0 - a, w);
    if 0.0 < w {
      assert (1.0 - a) * w > 0.0;
    }
  }

  /** (draw - 0.5) * speed lies in [-speed/2, speed/2), or is 0 when speed = 0. */
  lemma Centred(c: real, speed: real)
    requires 0.0 <= c < 1.0 && 0.0 <= speed
    ensures HalfSpeed((c - 0.5) * speed, speed)
  {
    UnitScale(c, speed);
    assert (c - 0.5) * speed == c * speed - speed / 2.0;
  }
}
