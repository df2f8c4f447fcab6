/**
 * The airplane (Airplane/airplane.h, airplane.cpp): a status machine, a fuel
 * tank that pitching and thrust drain, and the Position, Velocity and
 * Acceleration objects that `coast` updates in place.
 */
module Plane {
  import opened Kinematics
  import opened Interface
  import Physics
  import opened Landing

  const PlaneWidth: real := 27.61
  const MaxSpeed: real := 35.118
  const PlaneWeight: real := 41140.0
  const PlaneThrust: real := 107000.0
  const FuelMainThrust: real := 10.0
  const FuelRotate: real := 1.0
  const FuelMax: real := 5000.0
  const LiftCoefficient: real := 1.2
  const DragCoefficient: real := 0.3
  const DragArea: real := 26.4
  const AirDensity: real := 1.225

  /** Angle::setUp and Angle::setDown, in radians (M_PI as a double). */
  const Up: real := 0.0
  const Down: real := 3.141592653589793

  /** The three values reset draws at random. */
  datatype Draws = Draws(dx: real, dy: real, y: real)

  /** random(-40, -35), random(-1, 1) and random(0.35·height, 0.5·height). */
  predicate Fair(d: Draws, upperRight: Vec)
  {
    && -40.0 <= d.dx <= -35.0
    && -1.0 <= d.dy <= 1.0
    && upperRight.y * 0.35 <= d.y <= upperRight.y * 0.5
  }

  /** The pitch change one frame asks for: +0.05 clockwise, -0.05 counter-clockwise. */
  function Pitch(thrust: Thrust): real
  {
    (if thrust.clock then 0.05 else 0.0) + (if thrust.counter then -0.05 else 0.0)
  }

  /** Fuel one frame of thrust costs: 1 per rotation thruster, 10 for the main engine. */
  function Cost(thrust: Thrust): (c: real)
    ensures 0.0 <= c <= 2.0 * FuelRotate + FuelMainThrust
    ensures c == 0.0 <==> !thrust.clock && !thrust.counter && !thrust.main
  {
    (if thrust.clock then FuelRotate else 0.0) + (if thrust.counter then FuelRotate else 0.0)
      + (if thrust.main then FuelMainThrust else 0.0)
  }

  /** The main engine's push along the attitude `u`: (-sin, cos) times thrust over weight. */
  function Push(u: Unit): Vec
  {
    var power := PlaneThrust / PlaneWeight;
    Vec(-u.sin * power, u.cos * power)
  }

  /** With a true sine and cosine, the push has the full thrust-to-weight magnitude. */
  lemma PushStrength(u: Unit)
    requires IsUnit(u)
    ensures NormSq(Push(u)) == (PlaneThrust / PlaneWeight) * (PlaneThrust / PlaneWeight)
  {
    var power := PlaneThrust / PlaneWeight;
    AlongLength(power, Unit(-u.sin, u.cos));
    assert Push(u) == Along(power, Unit(-u.sin, u.cos));
  }

  /** The push at the attitude `angle`, whose sine and cosine `trig` gives. */
  function PushAt(trig: real -> Unit, angle: real): Vec
  {
    Push(trig(angle))
  }

  /** The acceleration one frame of input yields: gravity, plus the push when it may thrust. */
  function InputAcceleration(flying: bool, fuel: real, angle: real, thrust: Thrust, gravity: real, trig: real -> Unit): Vec
  {
    if !flying || fuel <= 0.0 || !thrust.main then Vec(0.0, gravity)
    else Plus(Vec(0.0, gravity), PushAt(trig, angle + Pitch(thrust)))
  }

  /** Lift magnitude over weight at a speed: ½·ρ·s²·A·CL / m. */
  function LiftAcceleration(speed: real): real
  {
    0.5 * AirDensity * speed * speed * DragArea * LiftCoefficient / PlaneWeight
  }

  /** Drag magnitude over weight at a speed: ½·ρ·s²·A·CD / m. */
  function DragAcceleration(speed: real): real
  {
    0.5 * AirDensity * speed * speed * DragArea * DragCoefficient / PlaneWeight
  }

  /**
   * The lift and drag vectors, with cos and sin of the velocity's direction
   * (atan2(dy, dx)) written as dx/speed and dy/speed: lift is the direction
   * turned a quarter turn, drag the direction reversed.
   */
  function LiftVector(v: Vec, speed: real): Vec
    requires speed != 0.0
  {
    Vec(LiftAcceleration(speed) * -(v.y / speed), LiftAcceleration(speed) * (v.x / speed))
  }

  function DragVector(v: Vec, speed: real): Vec
    requires speed != 0.0
  {
    Vec(-DragAcceleration(speed) * (v.x / speed), -DragAcceleration(speed) * (v.y / speed))
  }

  /** applyAerodynamics as a value: nothing unless flying with a non-zero speed. */
  function AeroAcceleration(flying: bool, v: Vec, speed: real): Vec
  {
    if !flying || speed == 0.0 then Zero else Plus(LiftVector(v, speed), DragVector(v, speed))
  }

  /** When `speed` is the velocity's true length, lift is perpendicular to the motion. */
  lemma LiftPerpendicular(v: Vec, speed: real)
    requires Physics.IsDistance(v, speed) && speed != 0.0
    ensures Dot(LiftVector(v, speed), v) == 0.0
  {
    var l := LiftAcceleration(speed);
    calc {
      Dot(LiftVector(v, speed), v);
      (l * -(v.y / speed)) * v.x + (l * (v.x / speed)) * v.y;
      (l / speed) * (v.x * v.y - v.x * v.y);
      0.0;
    }
  }

  /** When `speed` is the velocity's true length, lift has the full lift magnitude. */
  lemma LiftStrength(v: Vec, speed: real)
    requires Physics.IsDistance(v, speed) && speed != 0.0
    ensures NormSq(LiftVector(v, speed)) == LiftAcceleration(speed) * LiftAcceleration(speed)
  {
    var l := LiftAcceleration(speed);
    calc {
      NormSq(LiftVector(v, speed));
      (l * -(v.y / speed)) * (l * -(v.y / speed)) + (l * (v.x / speed)) * (l * (v.x / speed));
      (l / speed) * (l / speed) * NormSq(v);
      (l / speed) * (l / speed) * (speed * speed);
      l * l;
    }
  }

  /** When `speed` is the velocity's true length, drag points straight against the motion. */
  lemma DragOpposes(v: Vec, speed: real)
    requires Physics.IsDistance(v, speed) && speed != 0.0
    ensures Dot(DragVector(v, speed), v) == -(DragAcceleration(speed) * speed)
  {
    var d := DragAcceleration(speed);
    calc {
      Dot(DragVector(v, speed), v);
      (-d * (v.x / speed)) * v.x + (-d * (v.y / speed)) * v.y;
      -(d / speed) * NormSq(v);
      -(d / speed) * (speed * speed);
      -(d * speed);
    }
  }

  /** Airplane: status, position, velocity, attitude and fuel. */
  class Airplane {
    var status: Status
    const pos: Position
    const velocity: Velocity
    var angle: real
    var fuel: real

    /** Airplane(posUpperRight): PLAYING, then reset. */
    constructor (upperRight: Vec, d: Draws)
      requires Fair(d, upperRight)
      ensures status == Playing && fuel == FuelMax && angle == Up
      ensures pos.Value() == Vec(upperRight.x - 1.0, d.y) && velocity.Value() == Vec(d.dx, d.dy)
      ensures fresh(pos) && fresh(velocity)
    {
      status := Playing;
      pos := new Position(0.0, 0.0);
      velocity := new Velocity(0.0, 0.0);
      new;
      Reset(upperRight, d);
    }

    /**
     * reset: straight up, a random velocity heading left, at the right edge
     * at a random height, PLAYING with a full tank.
     */
    method Reset(upperRight: Vec, d: Draws)
      requires Fair(d, upperRight)
      modifies this, pos, velocity
      ensures status == Playing && fuel == FuelMax && angle == Up
      ensures pos.Value() == Vec(upperRight.x - 1.0, d.y) && velocity.Value() == Vec(d.dx, d.dy)
      ensures -40.0 <= velocity.dx <= -35.0 && -1.0 <= velocity.dy <= 1.0
      ensures upperRight.y * 0.35 <= pos.y <= upperRight.y * 0.5
    {
      angle := Up;
      velocity.dx := d.dx;
      velocity.dy := d.dy;
      pos.x := upperRight.x - 1.0;
      pos.y := d.y;
      status := Playing;
      fuel := FuelMax;
    }

    predicate IsDead()
      reads this
    {
      status == Dead
    }

    predicate IsLanded()
      reads this
    {
      status == Safe
    }

    /** isFlying: PLAYING, which is exactly when neither dead nor landed. */
    predicate IsFlying()
      reads this
      ensures IsFlying() <==> !IsDead() && !IsLanded()
    {
      status == Playing
    }

    /** getFuel: the fuel truncated to an int. */
    function GetFuel(): (n: int)
      reads this
      ensures 0.0 <= fuel ==> 0 <= n && n as real <= fuel < n as real + 1.0
    {
      Trunc(fuel)
    }

    /** getWidth: PLANE_WIDTH converted to int. */
    function GetWidth(): (w: int)
      ensures w == 27
    {
      Trunc(PlaneWidth)
    }

    /** land: straighten up and become SAFE. */
    method Land()
      modifies this
      ensures status == Safe && angle == Up && fuel == old(fuel)
    {
      angle := Up;
      status := Safe;
    }

    /** crash: turn upside down and become DEAD. */
    method Crash()
      modifies this
      ensures status == Dead && angle == Down && fuel == old(fuel)
    {
      angle := Down;
      status := Dead;
    }

    /**
     * input: gravity always; when flying with fuel, pitch by ±0.05 and push
     * along the new attitude, paying 1 per rotation and 10 for thrust, and
     * never leaving the tank below empty.
     */
    method Input(thrust: Thrust, gravity: real, trig: real -> Unit) returns (a: Acceleration)
      modifies this
      ensures fresh(a)
      ensures a.Value() == InputAcceleration(old(IsFlying()), old(fuel), old(angle), thrust, gravity, trig)
      ensures status == old(status)
      ensures !old(IsFlying()) || old(fuel) <= 0.0 ==> fuel == old(fuel) && angle == old(angle)
      ensures old(IsFlying()) && 0.0 < old(fuel) ==>
        angle == old(angle) + Pitch(thrust) && fuel == Drain(old(fuel), Cost(thrust))
    {
      a := new Acceleration();
      a.AddDDY(gravity);
      if !IsFlying() || fuel <= 0.0 {
        return;
      }
      // the attitude and the tank, updated in turn and stored at the end
      var turned, left := angle, fuel;
      if thrust.clock {
        turned := turned + 0.05;
        left := left - FuelRotate;
      }
      if thrust.counter {
        turned := turned + -0.05;
        left := left - FuelRotate;
      }
      assert turned == angle + Pitch(thrust);
      if thrust.main {
        var push := PushAt(trig, turned);
        a.AddDDX(push.x);
        a.AddDDY(push.y);
        left := left - FuelMainThrust;
      }
      assert left == fuel - Cost(thrust);
      if left < 0.0 {
        left := 0.0;
      }
      angle, fuel := turned, left;
    }

    /** coast: move with the old velocity, then update the velocity. */
    method Coast(acceleration: Acceleration, time: real)
      modifies pos, velocity
      ensures pos.Value() == Drift(old(pos.Value()), old(velocity.Value()), acceleration.Value(), time)
      ensures velocity.Value() == Kick(old(velocity.Value()), acceleration.Value(), time)
    {
      pos.Add(acceleration.Value(), velocity.Value(), time);
      velocity.Add(acceleration.Value(), time);
    }

    /**
     * applyAerodynamics: zero unless flying at a non-zero speed; otherwise
     * lift across and drag against the motion. `speed` is the velocity's length.
     */
    method ApplyAerodynamics(speed: real) returns (a: Acceleration)
      requires Physics.IsDistance(velocity.Value(), speed)
      ensures fresh(a)
      ensures a.Value() == AeroAcceleration(IsFlying(), velocity.Value(), speed)
    {
      a := new Acceleration();
      if !IsFlying() {
        return;
      }
      if speed == 0.0 {
        return;
      }
      var accLift := LiftAcceleration(speed);
      var accDrag := DragAcceleration(speed);
      var cosine, sine := velocity.dx / speed, velocity.dy / speed;
      a.AddDDX(accLift * -sine);
      a.AddDDY(accLift * cosine);
      a.AddDDX(-accDrag * cosine);
      a.AddDDY(-accDrag * sine);
    }
  }

  /**
   * Input never refills the tank and never leaves it below empty; it costs
   * fuel exactly when flying with fuel and some thruster is on.
   */
  lemma FuelNeverGrows(fuel: real, thrust: Thrust)
    requires 0.0 < fuel
    ensures 0.0 <= Drain(fuel, Cost(thrust)) <= fuel
    ensures Drain(fuel, Cost(thrust)) < fuel <==> thrust.clock || thrust.counter || thrust.main
  {
  }
}
