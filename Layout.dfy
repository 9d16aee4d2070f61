/** The layouts of `src/Experience.tsx` that are computed once: the scattered
    ("chaos") and tree positions and the colour of every particle, and the
    outline of the star ornament.

    Every call into `Math.random`, `Math.pow`, `Math.sqrt`, `Math.sin`,
    `Math.cos` and `Math.acos` is replaced by its result, handed in as data
    within the range that call guarantees. */
module Layout {
  import opened MathUtils

  /** Number of particles. */
  const Count: nat := 2000
  /** Radius of the scattered sphere. */
  const ChaosRadius: real := 18.0
  /** Height of the tree cone. */
  const TreeHeight: real := 14.0
  /** Radius of the cone per unit of height left above a point. */
  const RadiusPerHeight: real := 0.32
  /** Colour draws above this give gold, the others red. */
  const GoldAbove: real := 0.4

  datatype Swatch = Gold | Red

  /** The values that go into one particle.
      - `sqrtU`: `Math.pow(Math.random(), 0.5)`, the radial draw of the sphere;
      - `cosTheta`, `sinTheta`: cosine and sine of the azimuth `Math.random() * 2π`;
      - `phiDraw`: the draw `u` of the polar angle `Math.acos(2u - 1)`, whose
        cosine is then `2u - 1` and whose sine is `sinPhi`, in [0, 1];
      - `heightDraw`: the draw that is scaled to the tree height;
      - `powU`: `Math.pow(Math.random(), 0.6)`, the radial draw of the cone;
      - `cosAngle`, `sinAngle`: cosine and sine of the cone azimuth;
      - `colourDraw`: the draw compared with 0.4. */
  datatype ParticleDraw = ParticleDraw(
    sqrtU: real, cosTheta: real, sinTheta: real, phiDraw: real, sinPhi: real,
    heightDraw: real, powU: real, cosAngle: real, sinAngle: real,
    colourDraw: real)
  {
    /** The ranges `Math.random` and the library functions guarantee. */
    predicate InRange()
    {
      && 0.0 <= sqrtU < 1.0
      && -1.0 <= cosTheta <= 1.0 && -1.0 <= sinTheta <= 1.0
      && 0.0 <= phiDraw < 1.0 && 0.0 <= sinPhi <= 1.0
      && 0.0 <= heightDraw < 1.0
      && 0.0 <= powU < 1.0
      && -1.0 <= cosAngle <= 1.0 && -1.0 <= sinAngle <= 1.0
      && 0.0 <= colourDraw < 1.0
    }
  }

  /** Distance of the scattered point from the origin, `18 * sqrt(u)`. */
  function SphereRadius(d: ParticleDraw): real
  {
    ChaosRadius * d.sqrtU
  }

  function ChaosPoint(d: ParticleDraw): Vec3
  {
    var r := SphereRadius(d);
    var cosPhi := 2.0 * d.phiDraw - 1.0;
    Vec3(r * d.sinPhi * d.cosTheta, r * d.sinPhi * d.sinTheta, r * cosPhi)
  }

  /** Height of the tree point above the bottom of the cone. */
  function TreeLevel(d: ParticleDraw): real
  {
    d.heightDraw * TreeHeight
  }

  /** `radiusAtH`: the cone radius at that height, scaled by the radial draw. */
  function RadiusAtHeight(d: ParticleDraw): real
  {
    (TreeHeight - TreeLevel(d)) * RadiusPerHeight * d.powU
  }

  function TreePoint(d: ParticleDraw): Vec3
  {
    var radius := RadiusAtHeight(d);
    Vec3(d.cosAngle * radius, TreeLevel(d) - TreeHeight / 2.0, d.sinAngle * radius)
  }

  function ColourOf(d: ParticleDraw): Swatch
  {
    if d.colourDraw > GoldAbove then Gold else Red
  }

  /** A factor in [-1, 1] keeps `x`, a non-negative `q` scaled by it, within [-q, q]. */
  lemma ScaledByUnit(a: real, q: real, x: real)
    requires -1.0 <= a <= 1.0 && q >= 0.0 && x == a * q
    ensures -q <= x <= q
  {
    if a >= 0.0 {
      assert a * q <= 1.0 * q;
    } else {
      assert (-a) * q <= 1.0 * q;
    }
  }

  /** r * a * b with a in [0, 1] and b in [-1, 1] stays within [-r, r]. */
  lemma DampedWithin(r: real, a: real, b: real, x: real)
    requires r >= 0.0 && 0.0 <= a <= 1.0 && -1.0 <= b <= 1.0 && x == r * a * b
    ensures -r <= x <= r
  {
    var ra := r * a;
    ProductWithin(r, a);
    ScaledByUnit(b, ra, x);
  }

  /** The scattered point lies in the cube around the ball of radius 18: its
      radius is in [0, 18) and no coordinate exceeds it. */
  lemma ChaosPointInBall(d: ParticleDraw)
    requires d.InRange()
    ensures 0.0 <= SphereRadius(d) < ChaosRadius
    ensures var p := ChaosPoint(d); var r := SphereRadius(d);
      -r <= p.x <= r && -r <= p.y <= r && -r <= p.z <= r
  {
    var r := SphereRadius(d);
    var p := ChaosPoint(d);
    DampedWithin(r, d.sinPhi, d.cosTheta, p.x);
    DampedWithin(r, d.sinPhi, d.sinTheta, p.y);
    DampedWithin(r, 1.0, 2.0 * d.phiDraw - 1.0, p.z);
  }

  /** The horizontal coordinates of a cone point stay within its radius, which
      stays within the full radius at that height. */
  lemma ConeWithin(full: real, u: real, c: real, s: real, radius: real, x: real, z: real)
    requires full >= 0.0 && 0.0 <= u < 1.0 && -1.0 <= c <= 1.0 && -1.0 <= s <= 1.0
    requires radius == full * u && x == c * radius && z == s * radius
    ensures 0.0 <= radius <= full
    ensures -radius <= x <= radius && -radius <= z <= radius
  {
    ProductWithin(full, u);
    ScaledByUnit(c, radius, x);
    ScaledByUnit(s, radius, z);
  }

  /** The tree point lies in the cone: its height is in [-7, 7), its radius at
      that height is between 0 and (14 - h) * 0.32, and neither horizontal
      coordinate exceeds that radius. */
  lemma TreePointInCone(d: ParticleDraw)
    requires d.InRange()
    ensures var p := TreePoint(d); var radius := RadiusAtHeight(d);
      && -7.0 <= p.y < 7.0
      && 0.0 <= radius <= (TreeHeight - TreeLevel(d)) * RadiusPerHeight
      && radius <= (TreeHeight - (p.y + 7.0)) * RadiusPerHeight
      && -radius <= p.x <= radius && -radius <= p.z <= radius
  {
    var full := (TreeHeight - TreeLevel(d)) * RadiusPerHeight;
    var p := TreePoint(d);
    ConeWithin(full, d.powU, d.cosAngle, d.sinAngle, RadiusAtHeight(d), p.x, p.z);
  }

  /** With an azimuth whose cosine and sine satisfy cos^2 + sin^2 = 1, the tree
      point's horizontal distance from the axis is exactly its radius, so it
      never exceeds (14 - (y + 7)) * 0.32 at height y. */
  lemma TreePointOnCircle(d: ParticleDraw)
    requires d.InRange()
    requires d.cosAngle * d.cosAngle + d.sinAngle * d.sinAngle == 1.0
    ensures var p := TreePoint(d); var bound := (TreeHeight - (p.y + 7.0)) * RadiusPerHeight;
      p.x * p.x + p.z * p.z == RadiusAtHeight(d) * RadiusAtHeight(d) <= bound * bound
  {
    var p := TreePoint(d);
    var full := (TreeHeight - TreeLevel(d)) * RadiusPerHeight;
    assert (TreeHeight - (p.y + 7.0)) * RadiusPerHeight == full;
    CircleWithinBound(d.cosAngle, d.sinAngle, full, d.powU, RadiusAtHeight(d), p.x, p.z);
  }

  /** A point at angle (c, s) on the circle of radius full * u, with u in [0, 1]. */
  lemma CircleWithinBound(c: real, s: real, full: real, u: real, radius: real, x: real, z: real)
    requires c * c + s * s == 1.0 && full >= 0.0 && 0.0 <= u <= 1.0
    requires radius == full * u && x == c * radius && z == s * radius
    ensures x * x + z * z == radius * radius <= full * full
  {
    ProductWithin(full, u);
    assert x * x + z * z == (c * c + s * s) * (radius * radius);
    assert radius * radius <= full * radius <= full * full;
  }

  /** The three coordinates of particle `i` in a flat buffer of triples. */
  function PointAt(buffer: seq<real>, i: nat): Vec3
    requires 3 * i + 2 < |buffer|
  {
    Vec3(buffer[3 * i], buffer[3 * i + 1], buffer[3 * i + 2])
  }

  /** Every scattered point stored in `chaos` lies within 18 of the origin on
      each axis, and every tree point has height in [-7, 7). */
  ghost predicate LayoutBounded(chaos: seq<real>, tree: seq<real>)
  {
    && |chaos| == 3 * Count && |tree| == 3 * Count
    && (forall i :: 0 <= i < Count ==>
          var p := PointAt(chaos, i);
          -ChaosRadius < p.x < ChaosRadius && -ChaosRadius < p.y < ChaosRadius && -ChaosRadius < p.z < ChaosRadius)
    && (forall i :: 0 <= i < Count ==> -7.0 <= PointAt(tree, i).y < 7.0)
  }

  /** The `useMemo` generator: one pass over the particles that writes the
      scattered position, the tree position and the colour of each. */
  method GenerateLayout(draws: seq<ParticleDraw>) returns (chaos: array<real>, tree: array<real>, colours: array<Swatch>)
    requires |draws| == Count
    ensures fresh(chaos) && fresh(tree) && fresh(colours)
    ensures chaos.Length == 3 * Count && tree.Length == 3 * Count && colours.Length == Count
    ensures forall i :: 0 <= i < Count ==>
      && PointAt(chaos[..], i) == ChaosPoint(draws[i])
      && PointAt(tree[..], i) == TreePoint(draws[i])
      && colours[i] == ColourOf(draws[i])
    ensures forall i :: 0 <= i < Count ==> (colours[i] == Gold <==> draws[i].colourDraw > GoldAbove)
    ensures (forall i :: 0 <= i < Count ==> draws[i].InRange()) ==> LayoutBounded(chaos[..], tree[..])
  {
    chaos := new real[3 * Count];
    tree := new real[3 * Count];
    colours := new Swatch[Count];
    for i := 0 to Count
      invariant forall j :: 0 <= j < i ==>
        && PointAt(chaos[..], j) == ChaosPoint(draws[j])
        && PointAt(tree[..], j) == TreePoint(draws[j])
        && colours[j] == ColourOf(draws[j])
    {
      var c := ChaosPoint(draws[i]);
      var t := TreePoint(draws[i]);
      chaos[3 * i], chaos[3 * i + 1], chaos[3 * i + 2] := c.x, c.y, c.z;
      tree[3 * i], tree[3 * i + 1], tree[3 * i + 2] := t.x, t.y, t.z;
      colours[i] := ColourOf(draws[i]);
    }
    if forall i :: 0 <= i < Count ==> draws[i].InRange() {
      BoundedByDraws(draws, chaos[..], tree[..]);
    }
  }

  /** Buffers filled from in-range draws hold a bounded layout. */
  lemma BoundedByDraws(draws: seq<ParticleDraw>, chaos: seq<real>, tree: seq<real>)
    requires |draws| == Count && |chaos| == 3 * Count && |tree| == 3 * Count
    requires forall i :: 0 <= i < Count ==>
      PointAt(chaos, i) == ChaosPoint(draws[i]) && PointAt(tree, i) == TreePoint(draws[i])
    requires forall i :: 0 <= i < Count ==> draws[i].InRange()
    ensures LayoutBounded(chaos, tree)
  {
    forall i | 0 <= i < Count
      ensures var p := PointAt(chaos, i);
        -ChaosRadius < p.x < ChaosRadius && -ChaosRadius < p.y < ChaosRadius && -ChaosRadius < p.z < ChaosRadius
      ensures -7.0 <= PointAt(tree, i).y < 7.0
    {
      ChaosPointInBall(draws[i]);
      TreePointInCone(draws[i]);
    }
  }

  /** Number of tips of the star ornament. */
  const StarTips: nat := 5
  const OuterRadius: real := 0.8
  const InnerRadius: real := 0.4

  datatype PathCommand = MoveTo(x: real, y: real) | LineTo(x: real, y: real) | ClosePath

  /** Vertex `i` of the outline alternates between the tips and the notches. */
  function StarRadius(i: nat): real
  {
    if i % 2 == 0 then OuterRadius else InnerRadius
  }

  /** Angle of vertex `i` as a multiple of π: i * π / 5. */
  function StarAngle(i: nat): real
  {
    i as real / StarTips as real
  }

  /** The outline loop: ten vertices, the first a `moveTo` and the others
      `lineTo`s, then the path is closed. `cosPi(a)` and `sinPi(a)` stand for the
      cosine and sine of a * π. */
  method StarOutline(cosPi: real -> real, sinPi: real -> real) returns (path: seq<PathCommand>)
    ensures |path| == 2 * StarTips + 1 && path[2 * StarTips] == ClosePath
    ensures forall i :: 0 <= i < 2 * StarTips ==>
      var x := cosPi(StarAngle(i)) * StarRadius(i);
      var y := sinPi(StarAngle(i)) * StarRadius(i);
      path[i] == if i == 0 then MoveTo(x, y) else LineTo(x, y)
  {
    path := [];
    for i := 0 to 2 * StarTips
      invariant |path| == i
      invariant forall j :: 0 <= j < i ==>
        var x := cosPi(StarAngle(j)) * StarRadius(j);
        var y := sinPi(StarAngle(j)) * StarRadius(j);
        path[j] == if j == 0 then MoveTo(x, y) else LineTo(x, y)
    {
      var radius := StarRadius(i);
      var angle := StarAngle(i);
      var x := cosPi(angle) * radius;
      var y := sinPi(angle) * radius;
      if i == 0 {
        path := path + [MoveTo(x, y)];
      } else {
        path := path + [LineTo(x, y)];
      }
    }
    path := path + [ClosePath];
  }

  /** With a true cosine and sine, vertex `i` lies on the circle of its radius:
      0.8 for the tips (even `i`) and 0.4 for the notches (odd `i`). */
  lemma StarVertexOnCircle(cosPi: real -> real, sinPi: real -> real, i: nat)
    requires cosPi(StarAngle(i)) * cosPi(StarAngle(i)) + sinPi(StarAngle(i)) * sinPi(StarAngle(i)) == 1.0
    ensures var r := StarRadius(i); var x := cosPi(StarAngle(i)) * r; var y := sinPi(StarAngle(i)) * r;
      x * x + y * y == r * r && r == (if i % 2 == 0 then 0.8 else 0.4)
  {
    var c, s, r := cosPi(StarAngle(i)), sinPi(StarAngle(i)), StarRadius(i);
    assert (c * r) * (c * r) + (s * r) * (s * r) == (c * c + s * s) * (r * r);
  }
}
