/**
 * The player's ship (Orbital/Code/Ship.h, Ship.cpp): a Whole satellite that the
 * keyboard rotates, thrusts and fires from. The ship is a value; `input`
 * returns the steered ship together with the list it may have appended to.
 */
module ShipModel {
  import opened Kinematics
  import opened Interface
  import opened Satellites

  /** Ship(): a Whole with chance-defunct 4000, at pixel (-450, 450), falling at 2000 m/s. */
  function NewShip(m: Maker): (s: Satellite)
    ensures s.kind == Ship && IsFresh(s) && !s.thrust && s.chanceDefunct == 4000
    ensures s.pos == Vec(-450.0 * m.zoom, 450.0 * m.zoom) && s.vel == Vec(0.0, -2000.0)
    ensures s.angle == 0.0 && s.spin == 0.0 && s.radius == 6.0 * m.zoom
  {
    NewWhole(Ship, 4000).(pos := Scale(m.zoom, Vec(-450.0, 450.0)), vel := Vec(0.0, -2000.0),
                          radius := 6.0 * m.zoom, thrust := false)
  }

  /** The turn one frame of input asks for: +0.1 for right, -0.1 for left. */
  function Rotation(keys: Keys): real
  {
    (if keys.right then 0.1 else 0.0) + (if keys.left then -0.1 else 0.0)
  }

  /**
   * The ship after `input`: turned by Rotation, and, while down is held, sped up
   * by 30 m/s along its new heading; `thrust` records whether down is held.
   */
  function Steered(s: Satellite, keys: Keys, m: Maker): Satellite
  {
    var angle := s.angle + Rotation(keys);
    s.(angle := angle,
       vel := if keys.down then Plus(s.vel, Along(30.0, m.aim(angle))) else s.vel,
       thrust := keys.down)
  }

  /**
   * Projectile(ship, bullet), with bullet = 9000 m/s along the heading plus the
   * ship's velocity: it starts at the ship's position (not 19 pixels in front),
   * and its constructor adds the ship's velocity a second time.
   */
  function Bullet(ship: Satellite, m: Maker): Satellite
  {
    var bullet := Plus(Along(9000.0, m.aim(ship.angle)), ship.vel);
    Default(Projectile, 0, 1.0 * m.zoom, 0.0).(pos := ship.pos, vel := Plus(bullet, ship.vel))
  }

  /** What one frame of input appends: a single projectile when space is pressed. */
  function Fire(ship: Satellite, keys: Keys, m: Maker): seq<Satellite>
  {
    if keys.space then [Bullet(ship, m)] else []
  }

  /**
   * Steering changes only angle, velocity and thrust; left and right together
   * cancel; the velocity changes, by a vector of length 30, exactly when down is held.
   */
  lemma SteerLaws(s: Satellite, keys: Keys, m: Maker)
    requires IsUnit(m.aim(s.angle + Rotation(keys)))
    ensures var r := Steered(s, keys, m);
      && r == s.(angle := r.angle, vel := r.vel, thrust := r.thrust)
      && r.thrust == keys.down
      && r.angle == s.angle + (if keys.right == keys.left then 0.0 else if keys.right then 0.1 else -0.1)
      && (!keys.down ==> r.vel == s.vel)
      && (keys.down ==> NormSq(Vec(r.vel.x - s.vel.x, r.vel.y - s.vel.y)) == 900.0)
  {
    var r := Steered(s, keys, m);
    if keys.down {
      assert Vec(r.vel.x - s.vel.x, r.vel.y - s.vel.y) == Along(30.0, m.aim(r.angle));
      AlongLength(30.0, m.aim(r.angle));
    }
  }

  /**
   * The fired projectile sits on the ship, is alive and invisible for its first
   * frames, and moves at 9000 m/s along the heading plus twice the ship's velocity.
   */
  lemma BulletLaws(ship: Satellite, m: Maker)
    ensures var b := Bullet(ship, m);
      && b.kind == Projectile && IsFresh(b) && IsInvisible(b)
      && b.pos == ship.pos && b.angle == 0.0 && b.spin == 0.0 && b.radius == m.zoom
      && b.vel == Plus(Along(9000.0, m.aim(ship.angle)), Scale(2.0, ship.vel))
  {
  }

  /** Fire appends one projectile exactly when space is pressed. */
  lemma FireCount(ship: Satellite, keys: Keys, m: Maker)
    ensures |Fire(ship, keys, m)| == (if keys.space then 1 else 0)
    ensures forall b :: b in Fire(ship, keys, m) ==> b == Bullet(ship, m)
  {
  }

  /**
   * Ship::input: steers the ship, then, if space is pressed, appends a projectile
   * built from the steered ship; nothing in the list is removed or changed.
   */
  method Input(ship: Satellite, keys: Keys, m: Maker, list: seq<Satellite>)
    returns (steered: Satellite, r: seq<Satellite>)
    ensures steered == Steered(ship, keys, m)
    ensures r == list + Fire(steered, keys, m)
  {
    steered := ship.(angle := ship.angle + Rotation(keys));
    if keys.down {
      steered := steered.(vel := Plus(steered.vel, Along(30.0, m.aim(steered.angle))), thrust := true);
    } else {
      steered := steered.(thrust := false);
    }
    r := list;
    if keys.space {
      var vBullet := Plus(Along(9000.0, m.aim(steered.angle)), steered.vel);
      r := r + [Default(Projectile, 0, 1.0 * m.zoom, 0.0).(pos := steered.pos, vel := Plus(vBullet, steered.vel))];
    }
  }
}
