/**
 * The artillery shell (Artillery/Code/Projectile.h, Projectile.cpp): a flight
 * path of (position, velocity, time) states to which each `advance` appends
 * one state, keeping only the last ten.
 */
module Artillery {
  import opened Kinematics
  import Physics

  /** An M795 shell: 46.7 kg, 0.077545 m in radius. */
  const DefaultMass: real := 46.7
  const DefaultRadius: real := 0.077545
  const Gravity: real := -9.8064
  /** The flight path keeps at most this many states. */
  const PathLimit: nat := 10

  /** PositionVelocityTime: one moment of the flight. */
  datatype Pvt = Pvt(pos: Vec, v: Vec, t: real)

  /**
   * The atmosphere, which is not part of this model: the speed of a velocity
   * (Velocity::getSpeed) and the deceleration drag causes at a speed and an
   * altitude (the drag, sound-speed and density tables combined with the
   * shell's default radius and mass).
   */
  datatype Air = Air(speed: Vec -> real, dragAccel: (real, real) -> real)

  /** The drag components as advance computes them; y is subtracted from gravity later. */
  function Drag(air: Air, v: Vec, altitude: real): Vec
  {
    var speed := air.speed(v);
    var acc := air.dragAccel(speed, altitude);
    if speed != 0.0 then Vec(-acc * (v.x / speed), acc * (v.y / speed)) else Zero
  }

  /** The acceleration over the next step: drag plus gravity. */
  function StepAcceleration(air: Air, s: Pvt): Vec
  {
    var d := Drag(air, s.v, s.pos.y);
    Vec(d.x, Gravity - d.y)
  }

  /** The state `dt` seconds after `s` under constant acceleration. */
  function Next(air: Air, s: Pvt, dt: real): (n: Pvt)
    ensures n.t == s.t + dt
  {
    var a := StepAcceleration(air, s);
    Pvt(Drift(s.pos, s.v, a, dt), Kick(s.v, a, dt), s.t + dt)
  }

  /** Next written out in the components advance computes one by one. */
  lemma NextSpelledOut(air: Air, s: Pvt, dt: real, dragX: real, dragY: real)
    requires Vec(dragX, Gravity - dragY) == StepAcceleration(air, s)
    ensures Next(air, s, dt) ==
      Pvt(Vec(s.pos.x + s.v.x * dt + 0.5 * dragX * (dt * dt), s.pos.y + s.v.y * dt + 0.5 * (Gravity - dragY) * (dt * dt)),
          Vec(s.v.x + dragX * dt, s.v.y + (Gravity - dragY) * dt), s.t + dt)
  {
  }

  /** A shell at rest feels no drag, only gravity. */
  lemma DragAtRest(air: Air, s: Pvt)
    requires air.speed(s.v) == 0.0
    ensures StepAcceleration(air, s) == Vec(0.0, Gravity)
  {
  }

  /**
   * When `speed` is the true length of the velocity, the drag acceleration
   * points straight against the motion: its dot product with v is -acc·speed.
   */
  lemma DragOpposesMotion(air: Air, s: Pvt)
    requires Physics.IsDistance(s.v, air.speed(s.v)) && air.speed(s.v) != 0.0
    ensures var speed := air.speed(s.v);
      var d := Drag(air, s.v, s.pos.y);
      Dot(Vec(d.x, -d.y), s.v) == -(air.dragAccel(speed, s.pos.y) * speed)
  {
    var speed := air.speed(s.v);
    var acc := air.dragAccel(speed, s.pos.y);
    var d := Drag(air, s.v, s.pos.y);
    calc {
      Dot(Vec(d.x, -d.y), s.v);
      (-acc * (s.v.x / speed)) * s.v.x + (-(acc * (s.v.y / speed))) * s.v.y;
      -(acc / speed) * NormSq(s.v);
      -(acc / speed) * (speed * speed);
      -(acc * speed);
    }
  }

  /** The path with states dropped from the front until at most ten remain. */
  function Trimmed(path: seq<Pvt>): seq<Pvt>
  {
    if |path| > PathLimit then path[|path| - PathLimit..] else path
  }

  /** The path after one advance (an empty path stays empty). */
  function Advanced(air: Air, path: seq<Pvt>, dt: real): seq<Pvt>
  {
    if path == [] then [] else Trimmed(path + [Next(air, path[|path| - 1], dt)])
  }

  /**
   * Advance appends exactly one state, dt later than the previous last one;
   * the length becomes min(old + 1, 10); states leave only from the front and
   * those that stay are unchanged.
   */
  lemma AdvanceLaws(air: Air, path: seq<Pvt>, dt: real)
    requires path != []
    ensures var r := Advanced(air, path, dt);
      && |r| == (if |path| + 1 < PathLimit then |path| + 1 else PathLimit)
      && r[|r| - 1] == Next(air, path[|path| - 1], dt)
      && r[|r| - 1].t == path[|path| - 1].t + dt
      && r[..|r| - 1] == path[|path| + 1 - |r|..]
  {
  }

  /** Consecutive states are `dt` apart. */
  ghost predicate Paced(path: seq<Pvt>, dt: real)
  {
    forall i :: 0 <= i < |path| - 1 ==> path[i + 1].t == path[i].t + dt
  }

  /** Advancing by dt keeps a path paced by dt. */
  lemma PacedKept(air: Air, path: seq<Pvt>, dt: real)
    requires Paced(path, dt)
    ensures Paced(Advanced(air, path, dt), dt)
  {
    if path != [] {
      var full := path + [Next(air, path[|path| - 1], dt)];
      assert Paced(full, dt);
    }
  }

  /** In a paced path the last state is (n - 1)·dt after the first. */
  lemma {:induction false} PacedSpan(path: seq<Pvt>, dt: real)
    requires Paced(path, dt) && path != []
    ensures path[|path| - 1].t - path[0].t == (|path| - 1) as real * dt
  {
    if |path| > 1 {
      var p := path[..|path| - 1];
      assert Paced(p, dt);
      PacedSpan(p, dt);
    }
  }

  /** Projectile: the shell's mass, radius and recent flight path. */
  class Projectile {
    var mass: real
    var radius: real
    var flightPath: seq<Pvt>

    /** Projectile(): default mass and radius, not flying. */
    constructor ()
      ensures mass == DefaultMass && radius == DefaultRadius && flightPath == []
      ensures !IsFlying()
    {
      mass, radius, flightPath := DefaultMass, DefaultRadius, [];
    }

    predicate IsFlying()
      reads this
    {
      flightPath != []
    }

    /** reset: empties the path and restores the default mass and radius. */
    method Reset()
      modifies this
      ensures flightPath == [] && mass == DefaultMass && radius == DefaultRadius
    {
      flightPath := [];
      mass := DefaultMass;
      radius := DefaultRadius;
    }

    method SetMass(m: real)
      modifies this
      ensures mass == m && radius == old(radius) && flightPath == old(flightPath)
    {
      mass := m;
    }

    method SetRadius(r: real)
      modifies this
      ensures radius == r && mass == old(mass) && flightPath == old(flightPath)
    {
      radius := r;
    }

    /** getAltitude: the height of the last state, 0 when not flying. */
    function Altitude(): (h: real)
      reads this
      ensures !IsFlying() ==> h == 0.0
      ensures IsFlying() ==> h == GetPosition().y
    {
      if IsFlying() then flightPath[|flightPath| - 1].pos.y else 0.0
    }

    /** getPosition: the last state's position, the origin when not flying. */
    function GetPosition(): (p: Vec)
      reads this
      ensures !IsFlying() ==> p == Zero
      ensures IsFlying() ==> p == flightPath[|flightPath| - 1].pos
    {
      if IsFlying() then flightPath[|flightPath| - 1].pos else Zero
    }

    /** getFlightTime: from the first kept state to the last; 0 with fewer than two. */
    function FlightTime(): (t: real)
      reads this
      ensures |flightPath| < 2 ==> t == 0.0
      ensures |flightPath| >= 2 ==> t == CurrentTime() - flightPath[0].t
    {
      if |flightPath| >= 2 then flightPath[|flightPath| - 1].t - flightPath[0].t else 0.0
    }

    /** getFlightDistance: horizontal distance between the first and last kept states. */
    function FlightDistance(): (d: real)
      reads this
      ensures 0.0 <= d
      ensures |flightPath| < 2 ==> d == 0.0
      ensures |flightPath| >= 2 ==> d == flightPath[0].pos.x - GetPosition().x || d == GetPosition().x - flightPath[0].pos.x
    {
      if |flightPath| >= 2 then
        var dx := flightPath[0].pos.x - flightPath[|flightPath| - 1].pos.x;
        if dx < 0.0 then -dx else dx
      else 0.0
    }

    /** getSpeed: the speed of the last state, 0 when not flying. */
    function Speed(air: Air): (s: real)
      reads this
      ensures !IsFlying() ==> s == 0.0
      ensures IsFlying() ==> s == air.speed(flightPath[|flightPath| - 1].v)
    {
      if IsFlying() then air.speed(flightPath[|flightPath| - 1].v) else 0.0
    }

    /** getCurrentTime: the time of the last state, 0 when not flying. */
    function CurrentTime(): (t: real)
      reads this
      ensures !IsFlying() ==> t == 0.0
      ensures IsFlying() ==> t == flightPath[|flightPath| - 1].t
    {
      if IsFlying() then flightPath[|flightPath| - 1].t else 0.0
    }

    /**
     * fire: resets the shell, then starts a path of one state at the howitzer,
     * at `time`, moving at the muzzle velocity along the elevation `aim`.
     */
    method Fire(posHowitzer: Vec, time: real, aim: Unit, muzzleVelocity: real)
      modifies this
      ensures flightPath == [Pvt(posHowitzer, Along(muzzleVelocity, aim), time)]
      ensures mass == DefaultMass && radius == DefaultRadius
    {
      Reset();
      var pvt := Pvt(posHowitzer, Along(muzzleVelocity, aim), time);
      flightPath := flightPath + [pvt];
    }

    /**
     * advance: nothing when not flying; otherwise append the state dt later
     * and pop states from the front while more than ten remain.
     */
    method Advance(air: Air, dt: real)
      modifies this
      ensures flightPath == Advanced(air, old(flightPath), dt)
      ensures mass == old(mass) && radius == old(radius)
    {
      if flightPath == [] {
        return;
      }
      var last := flightPath[|flightPath| - 1];
      var speed := air.speed(last.v);
      var accelerationDrag := air.dragAccel(speed, last.pos.y);
      var dragX := if speed != 0.0 then -accelerationDrag * (last.v.x / speed) else 0.0;
      var dragY := if speed != 0.0 then accelerationDrag * (last.v.y / speed) else 0.0;
      var newTime := last.t + dt;
      var newX := last.pos.x + last.v.x * dt + 0.5 * dragX * (dt * dt);
      var newY := last.pos.y + last.v.y * dt + 0.5 * (Gravity - dragY) * (dt * dt);
      var newState := Pvt(Vec(newX, newY), Vec(last.v.x + dragX * dt, last.v.y + (Gravity - dragY) * dt), newTime);
      NextSpelledOut(air, last, dt, dragX, dragY);
      flightPath := flightPath + [newState];
      TrimFront();
    }

    /** advance's last loop: pop states from the front while more than ten remain. */
    method TrimFront()
      modifies this
      ensures flightPath == Trimmed(old(flightPath))
      ensures mass == old(mass) && radius == old(radius)
    {
      var path := flightPath;
      ghost var full := path;
      while |path| > PathLimit
        invariant |full| <= PathLimit ==> path == full
        invariant |full| > PathLimit ==> PathLimit <= |path| <= |full| && path == full[|full| - |path|..]
      {
        path := path[1..];
      }
      flightPath := path;
    }
  }

  /**
   * Once ten states are kept, the reported flight time stops growing: with
   * steps of dt it is 9·dt, whatever the true time since firing.
   */
  lemma FlightTimeWindow(p: Projectile, dt: real)
    requires Paced(p.flightPath, dt) && |p.flightPath| == PathLimit
    ensures p.FlightTime() == 9.0 * dt
  {
    PacedSpan(p.flightPath, dt);
  }
}
