/**
 * Two-dimensional kinematics shared by every simulator: vectors as values,
 * the mutable Position, Velocity and Acceleration objects, and the
 * constant-acceleration update formulas s + v·t + ½·a·t² and v + a·t.
 * Doubles are modelled as reals, so every identity holds exactly.
 */
module Kinematics {

  /** A 2D vector: a position in meters, a velocity in m/s or an acceleration in m/s². */
  datatype Vec = Vec(x: real, y: real)

  const Zero := Vec(0.0, 0.0)

  function Plus(a: Vec, b: Vec): Vec { Vec(a.x + b.x, a.y + b.y) }

  function Scale(k: real, a: Vec): Vec { Vec(k * a.x, k * a.y) }

  function Dot(a: Vec, b: Vec): real { a.x * b.x + a.y * b.y }

  function NormSq(a: Vec): real { Dot(a, a) }

  /** The sine and cosine of one angle, as the unseen Angle and Velocity classes compute them. */
  datatype Unit = Unit(sin: real, cos: real)

  predicate IsUnit(u: Unit) { u.sin * u.sin + u.cos * u.cos == 1.0 }

  /** The vector of length `k` along `u`, (k·sin, k·cos), as Velocity(speed, angle) builds it. */
  function Along(k: real, u: Unit): Vec { Vec(k * u.sin, k * u.cos) }

  lemma AlongLength(k: real, u: Unit)
    requires IsUnit(u)
    ensures NormSq(Along(k, u)) == k * k
  {
    calc {
      NormSq(Along(k, u));
      (k * u.sin) * (k * u.sin) + (k * u.cos) * (k * u.cos);
      (k * k) * (u.sin * u.sin + u.cos * u.cos);
      k * k;
    }
  }

  /** C++'s (int) cast of a double: truncation toward zero. */
  function Trunc(x: real): (n: int)
    ensures 0.0 <= x ==> n as real <= x < n as real + 1.0
    ensures x < 0.0 ==> n as real - 1.0 < x <= n as real
  {
    if x >= 0.0 then x.Floor else -((-x).Floor)
  }

  /** Velocity after `t` seconds of constant acceleration `a`: v + a·t. */
  function Kick(v: Vec, a: Vec, t: real): Vec { Vec(v.x + a.x * t, v.y + a.y * t) }

  /** Position after `t` seconds of constant acceleration: s + v·t + ½·a·t². */
  function Drift(s: Vec, v: Vec, a: Vec, t: real): Vec
  {
    Vec(s.x + v.x * t + 0.5 * a.x * (t * t), s.y + v.y * t + 0.5 * a.y * (t * t))
  }

  /** With no elapsed time, or with neither velocity nor acceleration, nothing moves. */
  lemma StillWithoutTimeOrMotion(s: Vec, v: Vec, a: Vec, t: real)
    ensures Drift(s, v, a, 0.0) == s && Kick(v, a, 0.0) == v
    ensures Drift(s, Zero, Zero, t) == s
  {
  }

  /** Each axis is updated from its own components only. */
  lemma AxesIndependent(s: Vec, v: Vec, a: Vec, s': Vec, v': Vec, a': Vec, t: real)
    ensures s.x == s'.x && v.x == v'.x && a.x == a'.x ==> Drift(s, v, a, t).x == Drift(s', v', a', t).x
    ensures s.y == s'.y && v.y == v'.y && a.y == a'.y ==> Drift(s, v, a, t).y == Drift(s', v', a', t).y
  {
  }

  /**
   * Two consecutive constant-acceleration steps of t1 and t2 seconds, the second
   * starting from the velocity the first produced, equal one step of t1 + t2.
   */
  lemma {:induction false} StepsCompose(s: Vec, v: Vec, a: Vec, t1: real, t2: real)
    ensures Kick(Kick(v, a, t1), a, t2) == Kick(v, a, t1 + t2)
    ensures Drift(Drift(s, v, a, t1), Kick(v, a, t1), a, t2) == Drift(s, v, a, t1 + t2)
  {
    assert (t1 + t2) * (t1 + t2) == t1 * t1 + 2.0 * t1 * t2 + t2 * t2;
    var d := Drift(Drift(s, v, a, t1), Kick(v, a, t1), a, t2);
    assert d.x == s.x + v.x * (t1 + t2) + 0.5 * a.x * ((t1 + t2) * (t1 + t2)) by {
      assert (v.x + a.x * t1) * t2 == v.x * t2 + a.x * (t1 * t2);
    }
    assert d.y == s.y + v.y * (t1 + t2) + 0.5 * a.y * ((t1 + t2) * (t1 + t2)) by {
      assert (v.y + a.y * t1) * t2 == v.y * t2 + a.y * (t1 * t2);
    }
  }

  /** Position (Lunar/Code/Position.cpp): a point in meters, moved in place. */
  class Position {
    var x: real
    var y: real

    constructor (x: real, y: real)
      ensures this.x == x && this.y == y
    {
      this.x := x;
      this.y := y;
    }

    function Value(): Vec
      reads this
    {
      Vec(x, y)
    }

    /** Position::add: s = s0 + v·t + ½·a·t² on each axis. */
    method Add(a: Vec, v: Vec, t: real)
      modifies this
      ensures Value() == Drift(old(Value()), v, a, t)
    {
      x := x + (v.x * t) + (0.5 * a.x * (t * t));
      y := y + (v.y * t) + (0.5 * a.y * (t * t));
    }
  }

  /** Velocity: a mutable (dx, dy) pair in m/s. */
  class Velocity {
    var dx: real
    var dy: real

    constructor (dx: real, dy: real)
      ensures this.dx == dx && this.dy == dy
    {
      this.dx := dx;
      this.dy := dy;
    }

    function Value(): Vec
      reads this
    {
      Vec(dx, dy)
    }

    /** Velocity::add: v = v0 + a·t on each axis. */
    method Add(a: Vec, t: real)
      modifies this
      ensures Value() == Kick(old(Value()), a, t)
    {
      dx := dx + a.x * t;
      dy := dy + a.y * t;
    }

    method AddDX(d: real)
      modifies this
      ensures dx == old(dx) + d && dy == old(dy)
    {
      dx := dx + d;
    }

    method AddDY(d: real)
      modifies this
      ensures dy == old(dy) + d && dx == old(dx)
    {
      dy := dy + d;
    }
  }

  /** Acceleration (Airplane/acceleration.h): a mutable (ddx, ddy) pair in m/s². */
  class Acceleration {
    var ddx: real
    var ddy: real

    /** Acceleration(): both components zero. */
    constructor ()
      ensures ddx == 0.0 && ddy == 0.0
    {
      ddx, ddy := 0.0, 0.0;
    }

    /** Acceleration(ddx, ddy): stores both components. */
    constructor Of(ddx: real, ddy: real)
      ensures this.ddx == ddx && this.ddy == ddy
    {
      this.ddx, this.ddy := ddx, ddy;
    }

    function Value(): Vec
      reads this
    {
      Vec(ddx, ddy)
    }

    function GetDDX(): (r: real)
      reads this
      ensures r == Value().x
    {
      ddx
    }

    function GetDDY(): (r: real)
      reads this
      ensures r == Value().y
    {
      ddy
    }

    method SetDDX(v: real)
      modifies this
      ensures ddx == v && ddy == old(ddy)
    {
      ddx := v;
    }

    method SetDDY(v: real)
      modifies this
      ensures ddy == v && ddx == old(ddx)
    {
      ddy := v;
    }

    method AddDDX(v: real)
      modifies this
      ensures ddx == old(ddx) + v && ddy == old(ddy)
    {
      ddx := ddx + v;
    }

    method AddDDY(v: real)
      modifies this
      ensures ddy == old(ddy) + v && ddx == old(ddx)
    {
      ddy := ddy + v;
    }
  }
}
