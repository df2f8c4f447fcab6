/**
 * The airplane game (Airplane/simulator.cpp): each frame runs the physics
 * update while the game is not paused, then the gameplay rules (crash or land,
 * the P pause toggle, R reset and Escape while paused).
 */
module AirplaneSimulation {
  import opened Kinematics
  import opened Interface
  import Physics
  import opened AirplaneGround
  import opened Plane
  import opened Landing

  const Gravity: real := -1.625
  const Time: real := 0.1

  /** GameState: the pause menu's two states. */
  datatype GameState = Running | Paused

  /** P flips the state. */
  function Toggled(g: GameState, p: bool): (r: GameState)
    ensures !p ==> r == g
    ensures p ==> r != g
  {
    if !p then g else if g == Running then Paused else Running
  }

  /** The state after gameplay's menu handling: R while paused resumes. */
  function Menu(g: GameState, keys: Keys): GameState
  {
    var toggled := Toggled(g, keys.p);
    if toggled == Paused && keys.r then Running else toggled
  }

  /** Pressing P twice restores the state; without P and R the menu leaves it alone. */
  lemma MenuLaws(g: GameState, keys: Keys)
    ensures Toggled(Toggled(g, true), true) == g
    ensures !keys.p && !keys.r ==> Menu(g, keys) == g
    ensures keys.r && Toggled(g, keys.p) == Paused ==> Menu(g, keys) == Running
    ensures Menu(g, keys) == Paused <==> Toggled(g, keys.p) == Paused && !keys.r
  {
  }

  /** The acceleration update applies to a flying plane: input plus aerodynamics. */
  function Applied(fuel: real, angle: real, v: Vec, thrust: Thrust, trig: real -> Unit, speed: real): Vec
  {
    Plus(InputAcceleration(true, fuel, angle, thrust, Gravity, trig), AeroAcceleration(true, v, speed))
  }

  /** The attitude after the crash/land rule: a crash turns the plane over, a landing levels it. */
  function JudgedAngle(hit: bool, onPlatform: bool, speed: real, angle: real): (r: real)
    ensures Verdict(hit, onPlatform, speed, MaxSpeed, Playing) == Dead ==> r == Down
    ensures Verdict(hit, onPlatform, speed, MaxSpeed, Playing) == Safe ==> r == Up
    ensures Verdict(hit, onPlatform, speed, MaxSpeed, Playing) == Playing ==> r == angle
  {
    if hit then Down else if onPlatform then (if speed < MaxSpeed then Up else Down) else angle
  }

  /** Simulator: the ground, the plane and the pause state. */
  class Simulator {
    const ground: Ground
    const plane: Airplane
    var gameState: GameState

    ghost predicate Valid()
      reads this, ground
    {
      ground.Valid()
    }

    /** Simulator(posUpperRight): ground and plane for the world, not paused. */
    constructor (upperRight: Vec, d: Draws)
      requires 1.0 <= upperRight.x && upperRight.x == Trunc(upperRight.x) as real && 0.0 < upperRight.y
      requires Fair(d, upperRight)
      ensures Valid() && ground.Flat() && gameState == Running
      ensures plane.IsFlying() && plane.fuel == FuelMax
    {
      ground := new Ground(upperRight.x, upperRight.y);
      plane := new Airplane(upperRight, d);
      gameState := Running;
    }

    /**
     * update: input acceleration (gravity and thrust) plus the aerodynamic
     * acceleration, applied by coast only while flying. `speed` is the
     * velocity's length.
     */
    method Update(thrust: Thrust, trig: real -> Unit, speed: real)
      requires Physics.IsDistance(plane.velocity.Value(), speed)
      modifies plane, plane.pos, plane.velocity
      ensures plane.status == old(plane.status)
      ensures old(plane.IsFlying()) && 0.0 < old(plane.fuel) ==>
        plane.angle == old(plane.angle) + Pitch(thrust) && plane.fuel == Drain(old(plane.fuel), Cost(thrust))
      ensures !(old(plane.IsFlying()) && 0.0 < old(plane.fuel)) ==>
        plane.angle == old(plane.angle) && plane.fuel == old(plane.fuel)
      ensures !old(plane.IsFlying()) ==> plane.pos.Value() == old(plane.pos.Value()) && plane.velocity.Value() == old(plane.velocity.Value())
      ensures old(plane.IsFlying()) ==>
        var a := Applied(old(plane.fuel), old(plane.angle), old(plane.velocity.Value()), thrust, trig, speed);
        && plane.pos.Value() == Drift(old(plane.pos.Value()), old(plane.velocity.Value()), a, Time)
        && plane.velocity.Value() == Kick(old(plane.velocity.Value()), a, Time)
    {
      ghost var flying, v0 := plane.IsFlying(), plane.velocity.Value();
      ghost var input := InputAcceleration(flying, plane.fuel, plane.angle, thrust, Gravity, trig);
      var a1 := plane.Input(thrust, Gravity, trig);
      assert a1.Value() == input && plane.velocity.Value() == v0;
      var a2 := plane.ApplyAerodynamics(speed);
      assert a2.Value() == AeroAcceleration(flying, v0, speed);
      a1.AddDDX(a2.GetDDX());
      a1.AddDDY(a2.GetDDY());
      assert a1.Value() == Plus(input, AeroAcceleration(flying, v0, speed));
      if plane.IsFlying() {
        plane.Coast(a1, Time);
      }
    }

    /**
     * gameplay's first half: touching the ground crashes the plane; on the
     * runway it lands when slower than MaxSpeed and crashes otherwise.
     */
    method Judge(speed: real, beyond: int -> real)
      requires Valid()
      modifies plane
      ensures plane.status == Verdict(ground.Hits(plane.pos.Value(), 27, beyond),
                                      ground.OnPlatform(plane.pos.Value(), 27), speed, MaxSpeed, old(plane.status))
      ensures plane.angle == JudgedAngle(ground.Hits(plane.pos.Value(), 27, beyond),
                                         ground.OnPlatform(plane.pos.Value(), 27), speed, old(plane.angle))
      ensures plane.fuel == old(plane.fuel)
    {
      var hit := ground.HitGround(plane.pos.Value(), plane.GetWidth(), beyond);
      if hit {
        plane.Crash();
      } else if ground.OnPlatform(plane.pos.Value(), plane.GetWidth()) {
        if speed < MaxSpeed {
          plane.Land();
        } else {
          plane.Crash();
        }
      }
    }

    /**
     * gameplay: the crash/land rule, then the menu; a reset while paused
     * restores the plane and the ground and resumes. Escape while paused ends
     * the program, which the model reports as `quit`.
     */
    method Gameplay(keys: Keys, speed: real, d: Draws, beyond: int -> real) returns (quit: bool)
      requires Valid() && Fair(d, Vec(1000.0, 1000.0))
      modifies this, plane, plane.pos, plane.velocity, ground, ground.ground
      ensures Valid()
      ensures gameState == Menu(old(gameState), keys)
      ensures quit <==> Toggled(old(gameState), keys.p) == Paused && keys.esc
      ensures !(Toggled(old(gameState), keys.p) == Paused && keys.r) ==>
        && plane.status == Verdict(old(ground.Hits(plane.pos.Value(), 27, beyond)),
                                   old(ground.OnPlatform(plane.pos.Value(), 27)), speed, MaxSpeed, old(plane.status))
        && plane.angle == JudgedAngle(old(ground.Hits(plane.pos.Value(), 27, beyond)),
                                      old(ground.OnPlatform(plane.pos.Value(), 27)), speed, old(plane.angle))
        && plane.fuel == old(plane.fuel) && ground.ground[..] == old(ground.ground[..]) && ground.iLZ == old(ground.iLZ)
        && plane.pos.Value() == old(plane.pos.Value()) && plane.velocity.Value() == old(plane.velocity.Value())
      ensures Toggled(old(gameState), keys.p) == Paused && keys.r ==>
        && plane.IsFlying() && plane.fuel == FuelMax && plane.angle == Up
        && plane.pos.Value() == Vec(999.0, d.y) && plane.velocity.Value() == Vec(d.dx, d.dy)
        && ground.Flat() && ground.iLZ == 0
    {
      ghost var verdict := Verdict(ground.Hits(plane.pos.Value(), 27, beyond),
                                   ground.OnPlatform(plane.pos.Value(), 27), speed, MaxSpeed, plane.status);
      ghost var angle := JudgedAngle(ground.Hits(plane.pos.Value(), 27, beyond),
                                     ground.OnPlatform(plane.pos.Value(), 27), speed, plane.angle);
      ghost var p0, v0, g0 := plane.pos.Value(), plane.velocity.Value(), ground.ground[..];
      Judge(speed, beyond);
      assert plane.status == verdict && plane.angle == angle;
      assert plane.pos.Value() == p0 && plane.velocity.Value() == v0 && ground.ground[..] == g0;
      if keys.p {
        gameState := if gameState == Running then Paused else Running;
      }
      quit := false;
      if gameState == Paused {
        if keys.r {
          plane.Reset(Vec(1000.0, 1000.0), d);
          ground.Reset();
          gameState := Running;
        }
        if keys.esc {
          quit := true;
        }
      }
    }

    /**
     * callBack: update unless paused, then gameplay. Without a reset, the
     * plane moves and burns fuel only when the game was running and it was
     * flying, and the crash/land rule judges the moved plane; R while paused
     * resets plane and ground.
     */
    method Frame(keys: Keys, thrust: Thrust, trig: real -> Unit, speedOf: Vec -> real, d: Draws, beyond: int -> real)
      returns (quit: bool)
      requires Valid() && Fair(d, Vec(1000.0, 1000.0))
      requires forall v :: Physics.IsDistance(v, speedOf(v))
      modifies this, plane, plane.pos, plane.velocity, ground, ground.ground
      ensures Valid()
      ensures gameState == Menu(old(gameState), keys)
      ensures quit <==> Toggled(old(gameState), keys.p) == Paused && keys.esc
      ensures !(Toggled(old(gameState), keys.p) == Paused && keys.r) ==>
        var moved := old(gameState) == Running && old(plane.IsFlying());
        var burned := moved && 0.0 < old(plane.fuel);
        var f0, a0 := old(plane.fuel), old(plane.angle);
        var p0, v0 := old(plane.pos.Value()), old(plane.velocity.Value());
        var acc := Applied(f0, a0, v0, thrust, trig, speedOf(v0));
        var p1 := if moved then Drift(p0, v0, acc, Time) else p0;
        var v1 := if moved then Kick(v0, acc, Time) else v0;
        var a1 := if burned then a0 + Pitch(thrust) else a0;
        var hit, pad := ground.Hits(p1, 27, beyond), ground.OnPlatform(p1, 27);
        && ground.ground[..] == old(ground.ground[..]) && ground.iLZ == old(ground.iLZ)
        && plane.status == Verdict(hit, pad, speedOf(v1), MaxSpeed, old(plane.status))
        && plane.angle == JudgedAngle(hit, pad, speedOf(v1), a1)
        && plane.fuel == (if burned then Drain(f0, Cost(thrust)) else f0)
        && plane.pos.Value() == p1 && plane.velocity.Value() == v1
      ensures Toggled(old(gameState), keys.p) == Paused && keys.r ==>
        && plane.IsFlying() && plane.fuel == FuelMax && plane.angle == Up
        && plane.pos.Value() == Vec(999.0, d.y) && plane.velocity.Value() == Vec(d.dx, d.dy)
        && ground.Flat() && ground.iLZ == 0
    {
      if gameState == Running {
        Update(thrust, trig, speedOf(plane.velocity.Value()));
      }
      quit := Gameplay(keys, speedOf(plane.velocity.Value()), d, beyond);
    }
  }
}
