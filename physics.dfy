/**
 * Laws of motion (Airplane/physics.cpp): altitude above the Earth, the
 * inverse-square gravity model, and the in-place velocity and position updates.
 * The distance from the origin is a square root; it is passed in together with
 * the fact that makes it one (IsDistance).
 */
module Physics {
  import opened Kinematics

  const EarthRadius: real := 6378000.0
  const StandardGravity: real := 9.806

  /** `d` is the Euclidean distance of `p` from the origin (computeDistance). */
  predicate IsDistance(p: Vec, d: real) { 0.0 <= d && d * d == NormSq(p) }

  /** getAltitude: distance from the Earth's center minus the Earth's radius. */
  function Altitude(p: Vec, d: real): (h: real)
    requires IsDistance(p, d)
    ensures h + EarthRadius == d
    ensures h >= -EarthRadius
    ensures h == 0.0 <==> NormSq(p) == EarthRadius * EarthRadius
  {
    SquareMonotone(d, EarthRadius);
    SquareMonotone(EarthRadius, d);
    d - EarthRadius
  }

  /** Between non-negative reals, squaring keeps strict order. */
  lemma SquareMonotone(a: real, b: real)
    requires 0.0 <= a && 0.0 <= b
    ensures a < b <==> a * a < b * b
  {
    if a < b {
      MulStrict(a, a, b);
      MulStrict(b, a, b);
      calc {
        a * a;
      <= a * b;
      == b * a;
      <  b * b;
      }
    } else {
      MulWeak(b, b, a);
      MulWeak(a, b, a);
      calc {
        b * b;
      <= b * a;
      == a * b;
      <= a * a;
      }
    }
  }

  lemma MulStrict(k: real, x: real, y: real)
    requires 0.0 <= x < y && 0.0 <= k
    ensures k * x <= k * y && (0.0 < k ==> k * x < k * y)
  {
  }

  lemma MulWeak(k: real, x: real, y: real)
    requires x <= y && 0.0 <= k
    ensures k * x <= k * y
  {
  }

  /** The magnitude of gravity at height `h`: g0 · (R / (R + h))². */
  function GravityMagnitude(h: real): (g: real)
    requires EarthRadius + h > 0.0
    ensures 0.0 < g
    ensures g * ((EarthRadius + h) * (EarthRadius + h)) == StandardGravity * (EarthRadius * EarthRadius)
  {
    var tmp := EarthRadius / (EarthRadius + h);
    assert tmp * (EarthRadius + h) == EarthRadius;
    assert tmp > 0.0;
    StandardGravity * tmp * tmp
  }

  /** Gravity weakens strictly as the distance from the Earth's center grows. */
  lemma {:induction false} GravityFalloff(h1: real, h2: real)
    requires -EarthRadius < h1 < h2
    ensures GravityMagnitude(h2) < GravityMagnitude(h1)
  {
    var d1, d2 := EarthRadius + h1, EarthRadius + h2;
    var g1, g2 := GravityMagnitude(h1), GravityMagnitude(h2);
    var c := StandardGravity * (EarthRadius * EarthRadius);
    assert d1 * d1 < d2 * d2 by {
      assert d1 * d1 < d1 * d2;
      assert d1 * d2 < d2 * d2;
    }
    assert g1 * (d1 * d1) == c && g2 * (d2 * d2) == c;
    assert g2 * (d1 * d1) < g2 * (d2 * d2) by {
      assert g2 * (d2 * d2 - d1 * d1) > 0.0;
    }
  }

  /**
   * getGravity: an acceleration of magnitude GravityMagnitude(altitude) pointing
   * from `p` straight at the origin (a·p = -|a|·|p|).
   */
  function GravityAt(p: Vec, d: real): (a: Vec)
    requires IsDistance(p, d) && d > 0.0
    ensures NormSq(a) == GravityMagnitude(Altitude(p, d)) * GravityMagnitude(Altitude(p, d))
    ensures Dot(a, p) == -(GravityMagnitude(Altitude(p, d)) * d)
  {
    var g := GravityMagnitude(Altitude(p, d));
    TowardOrigin(p, d, g);
    Scale(-(g / d), p)
  }

  lemma TowardOrigin(p: Vec, d: real, g: real)
    requires IsDistance(p, d) && d > 0.0
    ensures NormSq(Scale(-(g / d), p)) == g * g
    ensures Dot(Scale(-(g / d), p), p) == -(g * d)
  {
    var k := g / d;
    assert k * d == g;
    calc {
      NormSq(Scale(-k, p));
      (k * k) * NormSq(p);
      (k * k) * (d * d);
      (k * d) * (k * d);
    }
    calc {
      Dot(Scale(-k, p), p);
      -(k * NormSq(p));
      -(k * (d * d));
      -((k * d) * d);
    }
  }

  /** updateVelocity: v += a·t, in place; returns the same object. */
  method UpdateVelocity(v: Velocity, a: Vec, t: real) returns (r: Velocity)
    modifies v
    ensures r == v
    ensures v.Value() == Kick(old(v.Value()), a, t)
  {
    v.AddDX(a.x * t);
    v.AddDY(a.y * t);
    r := v;
  }

  /** updatePosition: s += v·t + ½·a·t², in place; returns the same object. */
  method UpdatePosition(p: Position, v: Vec, a: Vec, t: real) returns (r: Position)
    modifies p
    ensures r == p
    ensures p.Value() == Drift(old(p.Value()), v, a, t)
  {
    p.x := p.x + ((v.x * t) + ((0.5 * a.x) * (t * t)));
    p.y := p.y + ((v.y * t) + ((0.5 * a.y) * (t * t)));
    r := p;
  }
}
