/**
 * The lunar lander (Lunar/Code/Lander.cpp) and its game (Lunar/Code/simulator.cpp).
 * The lander's constants, its status accessors and land/crash live in
 * lander.h, and the lunar ground in ground.h/ground.cpp; none of these is part
 * of this model. The constants are a parameter, land and crash are taken to
 * set the status as the airplane's do, and the ground's answers are inputs.
 */
module Lunar {
  import opened Kinematics
  import opened Interface
  import opened Landing

  const Gravity: real := -1.625
  const Time: real := 0.1

  /**
   * The constants lander.h defines: full tank, cost of the main engine and
   * of a rotation, thrust over weight, width and the safe landing speed.
   */
  datatype Specs = Specs(fuelMax: real, fuelMainThrust: real, fuelRotate: real, power: real,
                         width: int, maxSpeed: real)

  /** The three values reset draws at random. */
  datatype Draws = Draws(dx: real, dy: real, y: real)

  /** random(-10, -4), random(-2, 2) and random(0.75·height, 0.95·height). */
  predicate Fair(d: Draws, upperRight: Vec)
  {
    && -10.0 <= d.dx <= -4.0
    && -2.0 <= d.dy <= 2.0
    && upperRight.y * 0.75 <= d.y <= upperRight.y * 0.95
  }

  /** The turn one frame asks for: +0.1 clockwise, -0.1 counter-clockwise. */
  function Turn(thrust: Thrust): real
  {
    (if thrust.clock then 0.1 else 0.0) + (if thrust.counter then -0.1 else 0.0)
  }

  /** Fuel one frame of thrust costs. */
  function Cost(thrust: Thrust, s: Specs): real
  {
    (if thrust.main then s.fuelMainThrust else 0.0) + (if thrust.clock then s.fuelRotate else 0.0)
      + (if thrust.counter then s.fuelRotate else 0.0)
  }

  /**
   * The acceleration input yields: gravity, plus, with fuel left and the main
   * engine on, thrust along the attitude held BEFORE this frame's rotation.
   */
  function InputAcceleration(fuel: real, angle: real, thrust: Thrust, gravity: real, s: Specs, trig: real -> Unit): Vec
  {
    if fuel == 0.0 || !thrust.main then Vec(0.0, gravity)
    else Vec(-trig(angle).sin * s.power, gravity + trig(angle).cos * s.power)
  }

  /** The tank after one frame of input: an exactly empty tank is left alone. */
  function Burned(fuel: real, thrust: Thrust, s: Specs): (f: real)
    ensures 0.0 <= f
    ensures fuel == 0.0 ==> f == 0.0
    ensures fuel != 0.0 && 0.0 <= Cost(thrust, s) <= fuel ==> f == fuel - Cost(thrust, s)
  {
    if fuel == 0.0 then 0.0 else Drain(fuel, Cost(thrust, s))
  }

  /** The attitude after one frame of input: it turns unless the tank is exactly empty. */
  function Turned(fuel: real, angle: real, thrust: Thrust): (r: real)
    ensures fuel == 0.0 || (thrust.clock == thrust.counter) ==> r == angle
  {
    if fuel == 0.0 then angle else angle + Turn(thrust)
  }

  /** Lander: status, position, velocity, attitude and fuel. */
  class Lander {
    var status: Status
    const pos: Position
    const velocity: Velocity
    var angle: real
    var fuel: real
    const specs: Specs

    constructor (upperRight: Vec, d: Draws, s: Specs)
      requires Fair(d, upperRight)
      ensures specs == s && status == Playing && fuel == s.fuelMax && angle == 0.0
      ensures pos.Value() == Vec(upperRight.x - 1.0, d.y) && velocity.Value() == Vec(d.dx, d.dy)
      ensures fresh(pos) && fresh(velocity)
    {
      specs := s;
      pos := new Position(0.0, 0.0);
      velocity := new Velocity(0.0, 0.0);
      new;
      Reset(upperRight, d);
    }

    /** reset: straight up, drifting left at random, near the top right, PLAYING, full. */
    method Reset(upperRight: Vec, d: Draws)
      requires Fair(d, upperRight)
      modifies this, pos, velocity
      ensures status == Playing && fuel == specs.fuelMax && angle == 0.0
      ensures pos.Value() == Vec(upperRight.x - 1.0, d.y) && velocity.Value() == Vec(d.dx, d.dy)
      ensures -10.0 <= velocity.dx <= -4.0 && -2.0 <= velocity.dy <= 2.0
      ensures upperRight.y * 0.75 <= pos.y <= upperRight.y * 0.95
    {
      angle := 0.0;
      velocity.dx := d.dx;
      velocity.dy := d.dy;
      pos.x := upperRight.x - 1.0;
      pos.y := d.y;
      status := Playing;
      fuel := specs.fuelMax;
    }

    predicate IsFlying()
      reads this
    {
      status == Playing
    }

    method Land()
      modifies this
      ensures status == Safe && fuel == old(fuel) && angle == old(angle)
    {
      status := Safe;
    }

    method Crash()
      modifies this
      ensures status == Dead && fuel == old(fuel) && angle == old(angle)
    {
      status := Dead;
    }

    /**
     * input: gravity always; unless the tank is exactly empty, the main engine
     * pushes along the current attitude, then the attitude turns by ±0.1,
     * each paid for, with the tank clamped at empty. The status is not
     * consulted: a crashed or landed lander still turns and burns fuel.
     */
    method Input(thrust: Thrust, gravity: real, trig: real -> Unit) returns (a: Acceleration)
      modifies this
      ensures fresh(a)
      ensures a.Value() == InputAcceleration(old(fuel), old(angle), thrust, gravity, specs, trig)
      ensures status == old(status)
      ensures fuel == Burned(old(fuel), thrust, specs) && angle == Turned(old(fuel), old(angle), thrust)
      ensures old(fuel) == 0.0 ==> fuel == 0.0 && angle == old(angle)
      ensures old(fuel) != 0.0 ==> angle == old(angle) + Turn(thrust) && fuel == Drain(old(fuel), Cost(thrust, specs))
    {
      a := new Acceleration();
      a.AddDDY(gravity);
      if fuel == 0.0 {
        return;
      }
      ghost var fuel0, angle0 := fuel, angle;
      if thrust.main {
        var u := trig(angle);
        a.AddDDX(-u.sin * specs.power);
        a.AddDDY(u.cos * specs.power);
        fuel := fuel - specs.fuelMainThrust;
      }
      assert a.Value() == InputAcceleration(fuel0, angle0, thrust, gravity, specs, trig);
      if thrust.clock {
        angle := angle + 0.1;
        fuel := fuel - specs.fuelRotate;
      }
      if thrust.counter {
        angle := angle + -0.1;
        fuel := fuel - specs.fuelRotate;
      }
      assert angle == angle0 + Turn(thrust);
      assert fuel == fuel0 - Cost(thrust, specs);
      if fuel < 0.0 {
        fuel := 0.0;
      }
    }

    /** coast: move with the old velocity, then update the velocity. */
    method Coast(acceleration: Acceleration, time: real)
      modifies pos, velocity
      ensures pos.Value() == Drift(old(pos.Value()), old(velocity.Value()), acceleration.Value(), time)
      ensures velocity.Value() == Kick(old(velocity.Value()), acceleration.Value(), time)
    {
      pos.Add(acceleration.Value(), velocity.Value(), time);
      velocity.Add(acceleration.Value(), time);
    }
  }

  /**
   * With non-negative costs, input never refills a non-negative tank nor
   * leaves it below empty; an empty tank stays empty.
   */
  lemma FuelNeverGrows(fuel: real, thrust: Thrust, s: Specs)
    requires 0.0 <= fuel && 0.0 <= s.fuelMainThrust && 0.0 <= s.fuelRotate
    ensures 0.0 <= Drain(fuel, Cost(thrust, s)) <= fuel
    ensures fuel == 0.0 ==> Drain(fuel, Cost(thrust, s)) == 0.0
  {
  }

  /** Simulator: the lander, and how often the unseen ground and stars were regenerated. */
  class Simulator {
    const lander: Lander
    var resets: nat

    constructor (upperRight: Vec, d: Draws, s: Specs)
      requires Fair(d, upperRight)
      ensures lander.IsFlying() && lander.fuel == s.fuelMax && resets == 0
    {
      lander := new Lander(upperRight, d, s);
      resets := 0;
    }

    /** update: input every frame (even after landing or crashing); coast only while flying. */
    method Update(thrust: Thrust, trig: real -> Unit)
      modifies lander, lander.pos, lander.velocity
      ensures lander.status == old(lander.status)
      ensures lander.fuel == Burned(old(lander.fuel), thrust, lander.specs)
      ensures lander.angle == Turned(old(lander.fuel), old(lander.angle), thrust)
      ensures !old(lander.IsFlying()) ==>
        lander.pos.Value() == old(lander.pos.Value()) && lander.velocity.Value() == old(lander.velocity.Value())
      ensures old(lander.IsFlying()) ==>
        var a := InputAcceleration(old(lander.fuel), old(lander.angle), thrust, Gravity, lander.specs, trig);
        && lander.pos.Value() == Drift(old(lander.pos.Value()), old(lander.velocity.Value()), a, Time)
        && lander.velocity.Value() == Kick(old(lander.velocity.Value()), a, Time)
    {
      var acceleration := lander.Input(thrust, Gravity, trig);
      if lander.IsFlying() {
        lander.Coast(acceleration, Time);
      }
    }

    /**
     * gameplay: the crash/land rule on what the ground reports, then space
     * resets the lander, the ground and the stars from any state.
     */
    method Gameplay(keys: Keys, hit: bool, onPlatform: bool, speed: real, d: Draws)
      requires Fair(d, Vec(400.0, 400.0))
      modifies this, lander, lander.pos, lander.velocity
      ensures !keys.space ==>
        && lander.status == Verdict(hit, onPlatform, speed, lander.specs.maxSpeed, old(lander.status))
        && resets == old(resets) && lander.fuel == old(lander.fuel) && lander.angle == old(lander.angle)
        && lander.pos.Value() == old(lander.pos.Value()) && lander.velocity.Value() == old(lander.velocity.Value())
      ensures keys.space ==>
        && lander.IsFlying() && lander.fuel == lander.specs.fuelMax && lander.angle == 0.0
        && resets == old(resets) + 1
        && lander.pos.Value() == Vec(399.0, d.y) && lander.velocity.Value() == Vec(d.dx, d.dy)
    {
      if hit {
        lander.Crash();
      } else if onPlatform {
        if speed < lander.specs.maxSpeed {
          lander.Land();
        } else {
          lander.Crash();
        }
      }
      if keys.space {
        lander.Reset(Vec(400.0, 400.0), d);
        resets := resets + 1;
      }
    }

    /**
     * callBack: update, then gameplay, every frame. `hit` and `onPlatform` are
     * what the ground reports for the moved lander, `speed` its speed.
     */
    method Frame(keys: Keys, thrust: Thrust, trig: real -> Unit, hit: bool, onPlatform: bool, speed: real, d: Draws)
      requires Fair(d, Vec(400.0, 400.0))
      modifies this, lander, lander.pos, lander.velocity
      ensures lander.status ==
        (if keys.space then Playing else Verdict(hit, onPlatform, speed, lander.specs.maxSpeed, old(lander.status)))
      ensures resets == old(resets) + (if keys.space then 1 else 0)
      ensures keys.space ==>
        && lander.fuel == lander.specs.fuelMax && lander.angle == 0.0
        && lander.pos.Value() == Vec(399.0, d.y) && lander.velocity.Value() == Vec(d.dx, d.dy)
      ensures !keys.space ==>
        var flying, p0, v0 := old(lander.IsFlying()), old(lander.pos.Value()), old(lander.velocity.Value());
        var a := InputAcceleration(old(lander.fuel), old(lander.angle), thrust, Gravity, lander.specs, trig);
        && lander.fuel == Burned(old(lander.fuel), thrust, lander.specs)
        && lander.angle == Turned(old(lander.fuel), old(lander.angle), thrust)
        && lander.pos.Value() == (if flying then Drift(p0, v0, a, Time) else p0)
        && lander.velocity.Value() == (if flying then Kick(v0, a, Time) else v0)
    {
      Update(thrust, trig);
      Gameplay(keys, hit, onPlatform, speed, d);
    }
  }
}
