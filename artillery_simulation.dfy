/**
 * The artillery game loop (Artillery/Code/Simulation.cpp, Simulation.h):
 * `update` turns the keyboard into orders for the howitzer, and `gameplay`
 * fires, advances and resets the shell and regenerates the scene on a hit.
 *
 * The Howitzer and the artillery Ground are not part of this model; what the
 * game reads from them (elevation, position, target, ground height) is a
 * function of the orders they have received so far.
 */
module ArtillerySimulation {
  import opened Kinematics
  import opened Interface
  import opened Artillery

  /** A call on the unseen howitzer or ground. */
  datatype Order =
    | Rotate(amount: real)   // howitzer.rotate
    | Raise(amount: real)    // howitzer.raise
    | Regenerate         // howitzer.generatePosition followed by ground.reset

  /**
   * What the game reads from its unseen collaborators, given the orders so far:
   * the elevation in radians and its sine/cosine, the howitzer's position and
   * muzzle velocity, the target, the ground height under a point (all in
   * meters), the meters per pixel, and the atmosphere.
   */
  datatype World = World(
    elevation: seq<Order> -> real,
    trig: real -> Unit,
    howitzer: seq<Order> -> Vec,
    muzzle: real,
    target: seq<Order> -> Vec,
    groundAt: (seq<Order>, Vec) -> real,
    zoom: real,   // meters per pixel, positive
    air: Air)

  /** The orders one frame of `update` gives, after the history `h`. */
  function Controls(h: seq<Order>, keys: Keys, w: World): seq<Order>
  {
    var turned := (if keys.right then [Rotate(0.1)] else []) + (if keys.left then [Rotate(-0.1)] else []);
    var raised := turned + (if keys.up && w.elevation(h + turned) != 0.0 then [Raise(0.01)] else []);
    raised + (if keys.down then [Raise(-0.01)] else [])
  }

  /**
   * update never regenerates; it rotates by +0.1 for right and -0.1 for left,
   * lowers by 0.01 for down, and raises by 0.01 for up exactly when the
   * elevation reached after the rotations is not exactly 0.
   */
  lemma ControlsLaws(h: seq<Order>, keys: Keys, w: World)
    ensures var c := Controls(h, keys, w);
      var turned := (if keys.right then [Rotate(0.1)] else []) + (if keys.left then [Rotate(-0.1)] else []);
      && Regenerate !in c
      && (Rotate(0.1) in c <==> keys.right)
      && (Rotate(-0.1) in c <==> keys.left)
      && (Raise(-0.01) in c <==> keys.down)
      && (Raise(0.01) in c <==> keys.up && w.elevation(h + turned) != 0.0)
      && |c| <= 4
  {
    var turned := (if keys.right then [Rotate(0.1)] else []) + (if keys.left then [Rotate(-0.1)] else []);
    var lifted := if keys.up && w.elevation(h + turned) != 0.0 then [Raise(0.01)] else [];
    var lowered := if keys.down then [Raise(-0.01)] else [];
    assert Controls(h, keys, w) == turned + lifted + lowered;
    assert forall o :: o in turned ==> o.Rotate?;
    assert forall o :: o in lifted ==> o == Raise(0.01);
    assert forall o :: o in lowered ==> o == Raise(-0.01);
  }

  /** The shell is within 10 pixels of the target on both axes (pixels scaled back to meters). */
  predicate Hit(p: Vec, target: Vec, zoom: real)
  {
    && target.x - 10.0 * zoom <= p.x <= target.x + 10.0 * zoom
    && target.y - 10.0 * zoom <= p.y <= target.y + 10.0 * zoom
  }

  /** With a positive meters-per-pixel, Hit is the test written in pixels. */
  lemma HitInPixels(p: Vec, target: Vec, zoom: real)
    requires 0.0 < zoom
    ensures Hit(p, target, zoom) <==>
      && p.x / zoom >= target.x / zoom - 10.0 && p.x / zoom <= target.x / zoom + 10.0
      && p.y / zoom >= target.y / zoom - 10.0 && p.y / zoom <= target.y / zoom + 10.0
  {
    PixelBounds(p.x, target.x, zoom);
    PixelBounds(p.y, target.y, zoom);
  }

  /** One axis of HitInPixels: a bound of 10 pixels is a bound of 10·zoom meters. */
  lemma PixelBounds(a: real, b: real, zoom: real)
    requires 0.0 < zoom
    ensures a / zoom >= b / zoom - 10.0 <==> a >= b - 10.0 * zoom
    ensures a / zoom <= b / zoom + 10.0 <==> a <= b + 10.0 * zoom
  {
    var pa, pb := a / zoom, b / zoom;
    assert pa * zoom == a && pb * zoom == b;
    assert (pb - 10.0) * zoom == b - 10.0 * zoom;
    assert (pb + 10.0) * zoom == b + 10.0 * zoom;
    ScaleOrder(pa, pb - 10.0, zoom);
    ScaleOrder(pb + 10.0, pa, zoom);
  }

  /** Multiplying by a positive factor keeps the order. */
  lemma ScaleOrder(x: real, y: real, zoom: real)
    requires 0.0 < zoom
    ensures x >= y <==> x * zoom >= y * zoom
  {
    if x >= y {
      assert (x - y) * zoom >= 0.0;
    } else {
      assert (y - x) * zoom > 0.0;
    }
  }

  /** The state `fire` starts: at the howitzer, at 0.5 s, at the muzzle velocity along the elevation. */
  function Launch(orders: seq<Order>, w: World): Pvt
  {
    Pvt(w.howitzer(orders), Along(w.muzzle, w.trig(w.elevation(orders))), 0.5)
  }

  /** The position getPosition reports for a path. */
  function Where(path: seq<Pvt>): Vec
  {
    if path == [] then Zero else path[|path| - 1].pos
  }

  /** The flight path and the orders after one frame of `gameplay`. */
  datatype Scene = Scene(path: seq<Pvt>, orders: seq<Order>)

  function Played(s: Scene, keys: Keys, w: World): Scene
  {
    var fired := if keys.space && s.path == [] then Advanced(w.air, [Launch(s.orders, w)], 1.0) else s.path;
    if fired == [] then Scene(fired, s.orders)
    else
      var hit := Hit(Where(fired), w.target(s.orders), w.zoom);
      var orders := if hit then s.orders + [Regenerate] else s.orders;
      var path := if hit then [] else fired;
      var above := w.groundAt(orders, Where(path)) < Where(path).y;
      Scene(if above then Advanced(w.air, path, 1.0) else [], orders)
  }

  /** Without space, a shell that is not flying stays so and nothing changes. */
  lemma IdleFrame(s: Scene, keys: Keys, w: World)
    requires s.path == [] && !keys.space
    ensures Played(s, keys, w) == s
  {
  }

  /** While a shell flies, space is ignored: no second shot. */
  lemma NoFireWhileFlying(s: Scene, keys: Keys, w: World)
    requires s.path != []
    ensures Played(s, keys, w) == Played(s, keys.(space := false), w)
  {
  }

  /**
   * The frame that fires advances twice: once right after `fire` and again in
   * the flying branch. Unless that frame hits or lands, the path holds three
   * states, at 0.5, 1.5 and 2.5 seconds, starting from the launch state.
   */
  lemma FireFrame(s: Scene, keys: Keys, w: World)
    requires s.path == [] && keys.space
    ensures var r := Played(s, keys, w);
      && (r.path == [] || (|r.path| == 3 && r.path[0] == Launch(s.orders, w)
                           && r.path[0].t == 0.5 && r.path[1].t == 1.5 && r.path[2].t == 2.5))
      && (r.orders == s.orders || r.orders == s.orders + [Regenerate])
  {
  }

  /**
   * A flying shell on the target regenerates the scene and ends the flight;
   * one that misses advances by 1.0 when above the ground and is reset otherwise.
   */
  lemma FlightOutcome(s: Scene, keys: Keys, w: World)
    requires s.path != []
    ensures var r := Played(s, keys, w);
      var hit := Hit(Where(s.path), w.target(s.orders), w.zoom);
      var above := w.groundAt(s.orders, Where(s.path)) < Where(s.path).y;
      && (hit ==> r == Scene([], s.orders + [Regenerate]))
      && (!hit && above ==> r == Scene(Advanced(w.air, s.path, 1.0), s.orders))
      && (!hit && !above ==> r == Scene([], s.orders))
  {
    if Hit(Where(s.path), w.target(s.orders), w.zoom) {
      assert Advanced(w.air, [], 1.0) == [];
    }
  }

  /** Simulator: the shell and the orders given so far to the howitzer and ground. */
  class Simulator {
    const projectile: Projectile
    var orders: seq<Order>
    const world: World

    /** Simulator(posUpperRight): places the howitzer and resets the ground once. */
    constructor (w: World)
      requires 0.0 < w.zoom
      ensures world == w && 0.0 < world.zoom && orders == [Regenerate]
      ensures fresh(projectile) && !projectile.IsFlying()
      ensures projectile.mass == DefaultMass && projectile.radius == DefaultRadius
    {
      world := w;
      orders := [Regenerate];
      projectile := new Projectile();
    }

    /** update: the howitzer controls. */
    method Update(keys: Keys)
      modifies this
      ensures orders == old(orders) + Controls(old(orders), keys, world)
    {
      var given := orders;
      if keys.right {
        orders := orders + [Rotate(0.1)];
      }
      if keys.left {
        orders := orders + [Rotate(-0.1)];
      }
      assert orders == given + ((if keys.right then [Rotate(0.1)] else []) + (if keys.left then [Rotate(-0.1)] else []));
      if keys.up {
        if world.elevation(orders) != 0.0 {
          orders := orders + [Raise(0.01)];
        }
      }
      if keys.down {
        orders := orders + [Raise(-0.01)];
      }
      assert orders == given + Controls(given, keys, world);
    }

    /** gameplay: fire, then the hit test, then advance or reset. */
    method Gameplay(keys: Keys)
      modifies this, projectile
      ensures Scene(projectile.flightPath, orders) == Played(Scene(old(projectile.flightPath), old(orders)), keys, world)
      ensures old(projectile.mass) == DefaultMass && old(projectile.radius) == DefaultRadius ==>
        projectile.mass == DefaultMass && projectile.radius == DefaultRadius
    {
      if keys.space && !projectile.IsFlying() {
        projectile.Fire(world.howitzer(orders), 0.5, world.trig(world.elevation(orders)), world.muzzle);
        projectile.Advance(world.air, 1.0);
      }
      if projectile.IsFlying() {
        if Hit(projectile.GetPosition(), world.target(orders), world.zoom) {
          orders := orders + [Regenerate];
          projectile.Reset();
        }
        if world.groundAt(orders, projectile.GetPosition()) < projectile.GetPosition().y {
          projectile.Advance(world.air, 1.0);
        } else {
          projectile.Reset();
        }
      }
    }
  }
}
