/**
 * Satellites of the orbital simulator (Orbital/Code/Satellite.h, Satellite.cpp).
 *
 * Every satellite in the registry is a distinct heap object that only its own
 * methods change, so each is modelled as a value; the in-place setters
 * (`kill`, `move`) become functions from the old value to the new one.
 * The class hierarchy (Whole, Part, Fragment, Projectile and the concrete
 * satellites) is folded into the `kind` tag.
 */
module Satellites {
  import opened Kinematics

  /** The concrete class of a satellite. */
  datatype Kind =
    | Ship
    | Gps | GpsLeft | GpsRight | GpsCenter
    | Hubble | HubbleLeft | HubbleRight | HubbleComputer | HubbleCenter
    | Starlink | StarlinkBody | StarlinkArray
    | Sputnik
    | Dragon | DragonLeft | DragonRight | DragonCenter
    | Fragment
    | Projectile

  /** The classes derived from Whole: built by a default constructor, they can go defunct. */
  predicate IsWhole(k: Kind) {
    k == Ship || k == Gps || k == Hubble || k == Starlink || k == Sputnik || k == Dragon
  }

  /** Fragments and projectiles die of old age. */
  predicate IsShortLived(k: Kind) { k == Fragment || k == Projectile }

  /**
   * The fields of Satellite, plus those of Whole (`defunct`, `chanceDefunct`) and of
   * Ship (`thrust`); a kind that lacks a field keeps it at its initial value.
   * `angle` is in radians, `spin` is the angular velocity added each move.
   * `useRandom` is the debug-build switch that makes kicks deterministic.
   */
  datatype Satellite = Satellite(
    kind: Kind,
    pos: Vec,
    vel: Vec,
    angle: real,
    spin: real,
    radius: real,
    age: int,
    dead: bool,
    useRandom: bool,
    defunct: bool,
    chanceDefunct: int,
    thrust: bool)

  /** The random numbers one child constructor draws: the kick speed and a fragment's age. */
  datatype Draw = Draw(speed: real, age: int)

  /** random(1000.0, 3000.0) and random(0, 50). */
  predicate FairDraw(d: Draw) { 1000.0 <= d.speed <= 3000.0 && 0 <= d.age <= 50 }

  /**
   * What child construction needs from outside the model: the meters per pixel
   * (`zoom`), sine and cosine of an angle in degrees (`heading`) and in radians
   * (`aim`), and the random numbers drawn for the i-th child of a parent.
   */
  datatype Maker = Maker(
    zoom: real,
    heading: real -> Unit,
    aim: real -> Unit,
    draw: (Satellite, nat) -> Draw)

  ghost predicate Sound(m: Maker) {
    && 0.0 < m.zoom
    && (forall deg :: IsUnit(m.heading(deg)))
    && (forall rad :: IsUnit(m.aim(rad)))
    && (forall x, i :: FairDraw(m.draw(x, i)))
  }

  /**
   * The satellites whose classes are not part of this model (GPS, Hubble, Sputnik,
   * Starlink and their parts): how they are launched, their radius in pixels when
   * built as a part, and the children their `destroy` creates.
   */
  datatype Unseen = Unseen(
    launch: (Kind, int) -> Satellite,
    partRadius: Kind -> real,
    cascade: Kind -> seq<Spawn>)

  /** A launched satellite is a fresh Whole of the requested kind. */
  ghost predicate Launches(u: Unseen) {
    forall k, i :: u.launch(k, i).kind == k && IsFresh(u.launch(k, i))
  }

  /** One child of a `destroy` cascade: its class and the direction of its kick in degrees. */
  datatype Spawn = Spawn(kind: Kind, degrees: real)

  /** A satellite just constructed: alive, age 0, not defunct. */
  predicate IsFresh(s: Satellite) { !s.dead && s.age == 0 && !s.defunct }

  /** isInvisible: a satellite younger than 10 frames can neither collide nor be killed. */
  predicate IsInvisible(s: Satellite) { s.age < 10 }

  /** kill: marks a visible satellite dead; an invisible one is left as it is. */
  function Kill(s: Satellite): (r: Satellite)
    ensures r.dead <==> s.dead || !IsInvisible(s)
    ensures r == s.(dead := r.dead)
  {
    if !IsInvisible(s) then s.(dead := true) else s
  }

  /** kill never clears `dead`, never touches an invisible satellite, and is idempotent. */
  lemma KillLaws(s: Satellite)
    ensures s.dead ==> Kill(s).dead
    ensures IsInvisible(s) ==> Kill(s) == s
    ensures !IsInvisible(s) ==> Kill(s).dead
    ensures Kill(Kill(s)) == Kill(s)
  {
  }

  /** Satellite(age, radius, angularVelocity): at rest at the origin, alive. */
  function Default(kind: Kind, age: int, radius: real, spin: real): (s: Satellite)
    ensures !s.dead && s.age == age && s.radius == radius && s.spin == spin
    ensures s.pos == Zero && s.vel == Zero && s.angle == 0.0 && s.useRandom
  {
    Satellite(kind, Zero, Zero, 0.0, spin, radius, age, false, true, false, 0, false)
  }

  /** Whole(chanceDefunct): a default satellite that is not defunct. */
  function NewWhole(kind: Kind, chanceDefunct: int): (s: Satellite)
    ensures IsFresh(s) && s.kind == kind && s.chanceDefunct == chanceDefunct
    ensures s.radius == 0.0 && s.spin == 0.0
  {
    Default(kind, 0, 0.0, 0.0).(chanceDefunct := chanceDefunct)
  }

  /**
   * The speed of a child's kick: the drawn random speed, or exactly 3000 when the
   * parent has switched randomness off.
   */
  function KickSpeed(parent: Satellite, d: Draw): (speed: real)
    ensures FairDraw(d) ==> 1000.0 <= speed <= 3000.0
    ensures !parent.useRandom ==> speed == 3000.0
    ensures parent.useRandom ==> speed == d.speed
  {
    if parent.useRandom then d.speed else 3000.0
  }

  /**
   * Satellite(parent, angle): the child starts where the parent is, moving as the
   * parent moves, then is kicked along `degrees` by KickSpeed and moved 4 pixels
   * that way. It keeps the parent's angle and spin; it is alive, age 0, radius 0.
   */
  function Kicked(parent: Satellite, kind: Kind, degrees: real, m: Maker, d: Draw): (c: Satellite)
    ensures c.kind == kind && !c.dead && c.age == 0 && c.radius == 0.0 && !c.defunct
    ensures c.angle == parent.angle && c.spin == parent.spin && c.useRandom == parent.useRandom
    ensures c.vel == Plus(parent.vel, Along(KickSpeed(parent, d), m.heading(degrees)))
    ensures c.pos == Plus(parent.pos, Scale(m.zoom, Along(4.0, m.heading(degrees))))
  {
    var u := m.heading(degrees);
    Satellite(kind, Plus(parent.pos, Scale(m.zoom, Along(4.0, u))),
              Plus(parent.vel, Along(KickSpeed(parent, d), u)),
              parent.angle, parent.spin, 0.0, 0, false, parent.useRandom, false, 0, false)
  }

  /** The kick changes the child's velocity by a vector of length KickSpeed. */
  lemma KickMagnitude(parent: Satellite, kind: Kind, degrees: real, m: Maker, d: Draw)
    requires IsUnit(m.heading(degrees))
    ensures var c := Kicked(parent, kind, degrees, m, d);
      var dv := Vec(c.vel.x - parent.vel.x, c.vel.y - parent.vel.y);
      NormSq(dv) == KickSpeed(parent, d) * KickSpeed(parent, d)
  {
    var c := Kicked(parent, kind, degrees, m, d);
    var k := Along(KickSpeed(parent, d), m.heading(degrees));
    assert Vec(c.vel.x - parent.vel.x, c.vel.y - parent.vel.y) == k;
    AlongLength(KickSpeed(parent, d), m.heading(degrees));
  }

  /** Fragment(parent, angle): a kicked child with a random age and a radius of 2 pixels. */
  function FragmentOf(parent: Satellite, degrees: real, m: Maker, d: Draw): (c: Satellite)
    ensures c.kind == Fragment && !c.dead && c.age == d.age && c.radius == 2.0 * m.zoom
    ensures c.vel == Kicked(parent, Fragment, degrees, m, d).vel
    ensures c.pos == Kicked(parent, Fragment, degrees, m, d).pos
  {
    Kicked(parent, Fragment, degrees, m, d).(age := d.age, radius := 2.0 * m.zoom)
  }

  /** Part(parent, angle) followed by the part's own constructor setting its radius in pixels. */
  function PartOf(parent: Satellite, kind: Kind, degrees: real, pixels: real, m: Maker, d: Draw): (c: Satellite)
    ensures c.kind == kind && IsFresh(c) && c.radius == pixels * m.zoom
    ensures c == Kicked(parent, kind, degrees, m, d).(radius := c.radius)
  {
    Kicked(parent, kind, degrees, m, d).(radius := pixels * m.zoom)
  }

  /**
   * Satellite(parent, offset, kick): velocity = parent velocity + kick and
   * position = parent position + offset; alive, age 0, radius 0.
   */
  function Launched(parent: Satellite, kind: Kind, offset: Vec, kick: Vec): (c: Satellite)
    ensures c.kind == kind && IsFresh(c) && c.radius == 0.0
    ensures c.vel == Plus(parent.vel, kick) && c.pos == Plus(parent.pos, offset)
    ensures c.angle == parent.angle && c.spin == parent.spin && c.useRandom == parent.useRandom
  {
    Satellite(kind, Plus(parent.pos, offset), Plus(parent.vel, kick),
              parent.angle, parent.spin, 0.0, 0, false, parent.useRandom, false, 0, false)
  }

  /** Radius in pixels of each part kind: 6 for the Crew Dragon's parts. */
  function PartPixels(k: Kind, u: Unseen): real
  {
    if k == DragonLeft || k == DragonRight || k == DragonCenter then 6.0 else u.partRadius(k)
  }

  /** The i-th child of a cascade: a Fragment, or a Part of the planned kind. */
  function Build(parent: Satellite, sp: Spawn, i: nat, m: Maker, u: Unseen): (c: Satellite)
    ensures c.kind == sp.kind && !c.dead && !c.defunct
    ensures c.vel == Kicked(parent, sp.kind, sp.degrees, m, m.draw(parent, i)).vel
    ensures c.pos == Kicked(parent, sp.kind, sp.degrees, m, m.draw(parent, i)).pos
  {
    if sp.kind == Fragment then FragmentOf(parent, sp.degrees, m, m.draw(parent, i))
    else PartOf(parent, sp.kind, sp.degrees, PartPixels(sp.kind, u), m, m.draw(parent, i))
  }

  /** The children a cascade appends, in order. */
  function Children(parent: Satellite, plan: seq<Spawn>, m: Maker, u: Unseen): (cs: seq<Satellite>)
    ensures |cs| == |plan|
    ensures forall i :: 0 <= i < |plan| ==> cs[i].kind == plan[i].kind && !cs[i].dead
  {
    seq(|plan|, i requires 0 <= i < |plan| => Build(parent, plan[i], i, m, u))
  }

  /** Five fragments at 0, 90, 180, 270 and 360 degrees: the inclusive `degrees <= 360` loop. */
  function Ring(): (plan: seq<Spawn>)
    ensures |plan| == 5
    ensures forall i :: 0 <= i < 5 ==> plan[i] == Spawn(Fragment, 90.0 * i as real)
  {
    [Spawn(Fragment, 0.0), Spawn(Fragment, 90.0), Spawn(Fragment, 180.0),
     Spawn(Fragment, 270.0), Spawn(Fragment, 360.0)]
  }

  /**
   * The destroy loop of Ship and DragonCenter: one Fragment per 90 degrees from 0
   * up to and including 360, appended at the end of the list.
   */
  method Scatter(parent: Satellite, list: seq<Satellite>, m: Maker, u: Unseen) returns (r: seq<Satellite>)
    ensures r == list + Children(parent, Ring(), m, u)
  {
    r := list;
    var degrees := 0.0;
    ghost var k: nat := 0;
    while degrees <= 360.0
      invariant k <= 5 && degrees == 90.0 * k as real
      invariant r == list + Children(parent, Ring()[..k], m, u)
      decreases 5 - k
    {
      r := r + [FragmentOf(parent, degrees, m, m.draw(parent, |r| - |list|))];
      assert Ring()[..k + 1] == Ring()[..k] + [Spawn(Fragment, degrees)];
      degrees := degrees + 90.0;
      k := k + 1;
    }
    assert Ring()[..k] == Ring();
  }

  /**
   * Satellite::move: gravity `g` is taken once at the old position; half a kick,
   * a drift with the half-kicked velocity, the other half kick; then the angle
   * turns by the spin and the age grows by one.
   */
  function Drifted(s: Satellite, t: real, g: Vec): (r: Satellite)
    ensures r.age == s.age + 1 && r.angle == s.angle + s.spin
    ensures r == s.(pos := r.pos, vel := r.vel, angle := r.angle, age := r.age)
  {
    var half := Kick(s.vel, g, t / 2.0);
    s.(pos := Drift(s.pos, half, g, t), vel := Kick(half, g, t / 2.0),
       angle := s.angle + s.spin, age := s.age + 1)
  }

  /**
   * Over one move the velocity changes by exactly g·t, and the position by
   * v·t + g·t²: the half-kicked velocity already carries g·t/2, and the drift
   * adds another ½·g·t² on top.
   */
  lemma {:induction false} DriftedNet(s: Satellite, t: real, g: Vec)
    ensures Drifted(s, t, g).vel == Kick(s.vel, g, t)
    ensures Drifted(s, t, g).pos == Vec(s.pos.x + s.vel.x * t + g.x * (t * t),
                                        s.pos.y + s.vel.y * t + g.y * (t * t))
  {
    var half := Kick(s.vel, g, t / 2.0);
    assert half.x * t == s.vel.x * t + 0.5 * g.x * (t * t);
    assert half.y * t == s.vel.y * t + 0.5 * g.y * (t * t);
  }

  /**
   * The `move(double)` a satellite answers to through the registry: Fragment and
   * Projectile die once older than 100 frames; a Whole (the Ship included, whose
   * own move takes other arguments) goes defunct and starts tumbling when `roll`,
   * its random(0, chanceDefunct), is 0; a Part only drifts.
   */
  function Move(s: Satellite, t: real, g: Vec, roll: int): (r: Satellite)
    ensures r.age == s.age + 1 && r.angle == s.angle + s.spin
    ensures r.pos == Drifted(s, t, g).pos && r.vel == Drifted(s, t, g).vel
    ensures r.dead <==> s.dead || (IsShortLived(s.kind) && s.age + 1 > 100)
    ensures r.defunct <==> s.defunct || (IsWhole(s.kind) && roll == 0)
    ensures r.spin == if IsWhole(s.kind) && roll == 0 then -0.08 else s.spin
    ensures r.kind == s.kind && r.radius == s.radius && r.thrust == s.thrust
  {
    var d := Drifted(s, t, g);
    if IsShortLived(s.kind) then
      (if d.age > 100 then d.(dead := true) else d)
    else if IsWhole(s.kind) then
      (if roll == 0 then d.(defunct := true, spin := -0.08) else d)
    else d
  }

  /**
   * getDefunct: Whole answers its `defunct` field and Part, Fragment and Projectile
   * answer true, but only when called on their own class. Their versions are
   * `const` and so do not override the base's virtual, which a call through a
   * `Satellite*` reaches and which answers false.
   */
  function GetDefunct(s: Satellite, throughBase: bool): (r: bool)
    ensures throughBase ==> !r
    ensures !throughBase && IsWhole(s.kind) ==> r == s.defunct
    ensures !throughBase && !IsWhole(s.kind) ==> r
  {
    if throughBase then false
    else if IsWhole(s.kind) then s.defunct
    else true
  }
}
