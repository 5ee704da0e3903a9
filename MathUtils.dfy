/** utils/math.ts: the random helpers and the two layout generators. Every
    Math.random() call is a Draw parameter, and the library functions come in
    through a Trig value. */
module MathUtils {
  import opened Geometry

  /** randomRange: scales one draw into the interval between min and max. */
  function RandomRange(min: real, max: real, r: Draw): real {
    r * (max - min) + min
  }

  /** The result lies in [min, max) when min < max, in (max, min] when the bounds
      are swapped, and is min itself when they coincide. */
  lemma RandomRangeBounds(min: real, max: real, r: Draw)
    ensures min < max ==> min <= RandomRange(min, max, r) < max
    ensures max < min ==> max < RandomRange(min, max, r) <= min
    ensures min == max ==> RandomRange(min, max, r) == min
  {
    if max < min {
      assert RandomRange(min, max, r) == min - Shrink(r, min - max);
    } else {
      assert RandomRange(min, max, r) == Shrink(r, max - min) + min;
    }
  }

  // ---------------------------------------------------------------- galaxy

  /** The default radius of getRandomGalaxyPosition. */
  const DEFAULT_GALAXY_RADIUS: real := 15.0

  /** The three draws getRandomGalaxyPosition makes, in call order. */
  datatype GalaxyDraws = GalaxyDraws(u: Draw, v: Draw, w: Draw)

  /** The distance from the origin that a galaxy point is given. */
  function GalaxyRadius(radius: real, w: Draw, m: Trig): real {
    m.cbrt(w) * radius
  }

  /** getRandomGalaxyPosition: a point of the ball of the given radius, in
      spherical coordinates theta = 2πu, phi = acos(2v − 1), r = cbrt(w)·radius. */
  function GalaxyPosition(radius: real, d: GalaxyDraws, m: Trig): Vec3 {
    var theta := 2.0 * PI * d.u;
    var phi := m.acos(2.0 * d.v - 1.0);
    var r := GalaxyRadius(radius, d.w, m);
    var sinPhi := m.sin(phi);
    Vec3(r * sinPhi * m.cos(theta), r * sinPhi * m.sin(theta), r * m.cos(phi))
  }

  /** getRandomGalaxyPosition() called without an argument. */
  function DefaultGalaxyPosition(d: GalaxyDraws, m: Trig): Vec3 {
    GalaxyPosition(DEFAULT_GALAXY_RADIUS, d, m)
  }

  /** The sampled distance lies in [0, radius). */
  lemma GalaxyRadiusBounds(radius: real, w: Draw, m: Trig)
    requires Lawful(m) && radius > 0.0
    ensures 0.0 <= GalaxyRadius(radius, w, m) < radius
  {
    assert 0.0 <= m.cbrt(w) < 1.0;
    assert GalaxyRadius(radius, w, m) == Shrink(m.cbrt(w), radius);
  }

  /** The point lies at exactly the sampled distance from the origin. */
  lemma {:induction false} GalaxyDistance(radius: real, d: GalaxyDraws, m: Trig)
    requires Lawful(m)
    ensures var r := GalaxyRadius(radius, d.w, m); Norm2(GalaxyPosition(radius, d, m)) == r * r
  {
    var theta := 2.0 * PI * d.u;
    var phi := m.acos(2.0 * d.v - 1.0);
    var r := GalaxyRadius(radius, d.w, m);
    var s, ct, st, cp := m.sin(phi), m.cos(theta), m.sin(theta), m.cos(phi);
    assert st * st + ct * ct == 1.0;
    assert s * s + cp * cp == 1.0;
    var p := GalaxyPosition(radius, d, m);
    assert p == Vec3(r * s * ct, r * s * st, r * cp);
    calc {
      Norm2(p);
      (r * s * ct) * (r * s * ct) + (r * s * st) * (r * s * st) + (r * cp) * (r * cp);
      { assert (r * s * ct) * (r * s * ct) + (r * s * st) * (r * s * st) == (r * s) * (r * s) * (ct * ct + st * st); }
      (r * s) * (r * s) * (ct * ct + st * st) + (r * cp) * (r * cp);
      (r * s) * (r * s) + (r * cp) * (r * cp);
      { assert (r * s) * (r * s) + (r * cp) * (r * cp) == r * r * (s * s + cp * cp); }
      r * r * (s * s + cp * cp);
      r * r;
    }
  }

  /** The z coordinate of a galaxy point is r·(2v − 1): phi = acos(2v − 1) fixes
      cos(phi). (The scene's vertical axis is y; z is the polar axis of the sampling.) */
  lemma GalaxyZ(radius: real, d: GalaxyDraws, m: Trig)
    requires Lawful(m)
    ensures GalaxyPosition(radius, d, m).z == GalaxyRadius(radius, d.w, m) * (2.0 * d.v - 1.0)
  {
    var x := 2.0 * d.v - 1.0;
    assert -1.0 <= x <= 1.0;
    assert m.cos(m.acos(x)) == x;
  }

  /** Containment: every galaxy point lies strictly inside the ball of the given radius. */
  lemma GalaxyContainment(radius: real, d: GalaxyDraws, m: Trig)
    requires Lawful(m) && radius > 0.0
    ensures Norm2(GalaxyPosition(radius, d, m)) < radius * radius
  {
    var r := GalaxyRadius(radius, d.w, m);
    GalaxyDistance(radius, d, m);
    GalaxyRadiusBounds(radius, d.w, m);
    SquareMono(r, radius);
  }

  /** With the default radius every point lies inside the ball of radius 15. */
  lemma DefaultGalaxyContainment(d: GalaxyDraws, m: Trig)
    requires Lawful(m)
    ensures Norm2(DefaultGalaxyPosition(d, m)) < 225.0
  {
    GalaxyContainment(DEFAULT_GALAXY_RADIUS, d, m);
  }

  // ------------------------------------------------------------------ tree

  /** One entry of generateTreePositions' result. */
  datatype TreePlacement = TreePlacement(pos: Vec3, rot: Euler)

  /** Normalised height t = i / count of entry i. */
  function SpiralT(i: int, count: int): real
    requires 0 <= i < count
  {
    (i as real) / (count as real)
  }

  /** The spiral angle t·π·12: six full turns from bottom to apex. */
  function SpiralAngle(t: real): real {
    t * PI * 12.0
  }

  /** Entry i of the conical spiral with count entries. */
  function TreePlacementAt(i: int, count: int, radiusBottom: real, height: real, m: Trig): TreePlacement
    requires 0 <= i < count
  {
    var t := SpiralT(i, count);
    var angle := SpiralAngle(t);
    var currentRadius := radiusBottom * (1.0 - t);
    var y := t * height - height / 2.0;
    TreePlacement(Vec3(m.cos(angle) * currentRadius, y, m.sin(angle) * currentRadius), Euler(0.0, -angle, 0.0))
  }

  /** generateTreePositions: one placement per index, pushed in index order. */
  method GenerateTreePositions(count: int, radiusBottom: real, height: real, m: Trig)
    returns (positions: seq<TreePlacement>)
    ensures count <= 0 ==> positions == []
    ensures count > 0 ==> |positions| == count
    ensures forall i :: 0 <= i < |positions| ==> positions[i] == TreePlacementAt(i, count, radiusBottom, height, m)
  {
    positions := [];
    var i := 0;
    while i < count
      invariant 0 <= i <= (if count > 0 then count else 0)
      invariant |positions| == i
      invariant forall k :: 0 <= k < i ==> positions[k] == TreePlacementAt(k, count, radiusBottom, height, m)
    {
      var t := SpiralT(i, count);
      var angle := SpiralAngle(t);
      var currentRadius := radiusBottom * (1.0 - t);
      var y := t * height - height / 2.0;
      var x := m.cos(angle) * currentRadius;
      var z := m.sin(angle) * currentRadius;
      var pos := Vec3(x, y, z);
      var rot := Euler(0.0, -angle, 0.0);
      ghost var expected := TreePlacementAt(i, count, radiusBottom, height, m);
      assert expected.pos.y == y;
      assert expected.pos.x == m.cos(angle) * currentRadius;
      assert expected.pos.z == m.sin(angle) * currentRadius;
      assert expected.rot == rot;
      positions := positions + [TreePlacement(pos, rot)];
      i := i + 1;
    }
  }

  /** t lies in [0, 1) and starts at 0. */
  lemma SpiralTBounds(i: int, count: int)
    requires 0 <= i < count
    ensures 0.0 <= SpiralT(i, count) < 1.0
    ensures i == 0 ==> SpiralT(i, count) == 0.0
  {
    assert SpiralT(i, count) == Quot(i as real, count as real);
  }

  /** t grows strictly with the index. */
  lemma SpiralTIncreasing(i: int, j: int, count: int)
    requires 0 <= i < j < count
    ensures SpiralT(i, count) < SpiralT(j, count)
  {
    assert SpiralT(j, count) - SpiralT(i, count) == Quot((j - i) as real, count as real);
  }

  /** The radius at height y of the cone with base radius rb and the given
      height, standing on y = −height/2 with its apex at y = height/2. */
  ghost function ConeRadiusAt(rb: real, height: real, y: real): real
    requires height != 0.0
  {
    rb * ((height / 2.0 - y) / height)
  }

  /** Entry i lies at height t·height − height/2, in [−height/2, height/2), at
      distance rb·(1 − t) from the vertical axis, which is in (0, rb]. */
  lemma TreeRadiusAndHeight(i: int, count: int, rb: real, height: real, m: Trig)
    requires 0 <= i < count && rb > 0.0 && height > 0.0
    ensures var p := TreePlacementAt(i, count, rb, height, m).pos;
            var r := rb * (1.0 - SpiralT(i, count));
            && 0.0 < r <= rb
            && -height / 2.0 <= p.y < height / 2.0
  {
    var t := SpiralT(i, count);
    SpiralTBounds(i, count);
    assert rb * (1.0 - t) == rb - Shrink(t, rb);
    assert TreePlacementAt(i, count, rb, height, m).pos.y == Shrink(t, height) - height / 2.0;
  }

  /** p lies on the surface of that cone: its squared distance from the vertical
      axis is the squared cone radius at its height. */
  ghost predicate OnCone(p: Vec3, rb: real, height: real)
    requires height != 0.0
  {
    p.x * p.x + p.z * p.z == ConeRadiusAt(rb, height, p.y) * ConeRadiusAt(rb, height, p.y)
  }

  /** Cone containment: entry i lies on the surface of the cone with base radius
      rb and the given height, centred on the origin. */
  lemma {:induction false} TreeConeContainment(i: int, count: int, rb: real, height: real, m: Trig)
    requires Lawful(m) && 0 <= i < count && height != 0.0
    ensures OnCone(TreePlacementAt(i, count, rb, height, m).pos, rb, height)
  {
    var t := SpiralT(i, count);
    var angle := SpiralAngle(t);
    var r := rb * (1.0 - t);
    var c, s := m.cos(angle), m.sin(angle);
    assert s * s + c * c == 1.0;
    var p := TreePlacementAt(i, count, rb, height, m).pos;
    assert p == Vec3(c * r, t * height - height / 2.0, s * r);
    var q, u := (height / 2.0 - p.y) / height, 1.0 - t;
    assert q * height == u * height;
    CancelFactor(q, u, height);
    assert (c * r) * (c * r) + (s * r) * (s * r) == r * r * (c * c + s * s);
  }

  /** When the tree has positive height, entries climb strictly with the index. */
  lemma TreeHeightIncreasing(i: int, j: int, count: int, rb: real, height: real, m: Trig)
    requires 0 <= i < j < count && height > 0.0
    ensures TreePlacementAt(i, count, rb, height, m).pos.y < TreePlacementAt(j, count, rb, height, m).pos.y
  {
    var ti, tj := SpiralT(i, count), SpiralT(j, count);
    SpiralTIncreasing(i, j, count);
    assert tj * height - ti * height == PosProd(tj - ti, height);
  }

  /** Entry i turns only about the vertical axis, by the negated spiral angle, which
      lies in [0, 12π): the spiral makes six turns, and its first entry sits at
      angle 0. */
  lemma TreeRotationFollowsSpiral(i: int, count: int, rb: real, height: real, m: Trig)
    requires 0 <= i < count
    ensures var e := TreePlacementAt(i, count, rb, height, m);
            var angle := -e.rot.y;
            && e.rot.x == 0.0 && e.rot.z == 0.0
            && 0.0 <= angle < 6.0 * (2.0 * PI)
            && e.pos.x == m.cos(angle) * (rb * (1.0 - SpiralT(i, count)))
            && e.pos.z == m.sin(angle) * (rb * (1.0 - SpiralT(i, count)))
    ensures i == 0 ==> TreePlacementAt(i, count, rb, height, m).rot == NO_ROTATION
  {
    var t := SpiralT(i, count);
    SpiralTBounds(i, count);
    assert SpiralAngle(t) == Shrink(t, PI * 12.0);
  }
}
