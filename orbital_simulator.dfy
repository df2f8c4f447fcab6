/**
 * The orbital registry (Orbital/Code/Simulator.cpp): a list of satellites that
 * each frame takes input, then moves every satellite, kills colliding pairs and
 * replaces each dead satellite by the children of its `destroy` cascade.
 *
 * Each pass is specified by a function on the sequence of satellites; the
 * methods of `Simulator` walk the list as the C++ iterators do and are proved
 * to compute those functions.
 */
module Orbital {
  import opened Kinematics
  import opened Interface
  import opened Physics
  import opened Satellites
  import opened ShipModel
  import opened CrewDragon

  /**
   * Everything a frame needs from outside the model: child construction, the
   * unseen satellite classes, gravity at a position (getGravity), and the
   * random(0, chanceDefunct) each Whole rolls when it moves.
   */
  datatype Env = Env(m: Maker, u: Unseen, gravity: Vec -> Vec, roll: Satellite -> int)

  /**
   * `gravity` is getGravity: away from the Earth's center it is the
   * inverse-square pull Physics.GravityAt. At the center itself the code
   * divides by zero, and nothing is assumed there.
   */
  ghost predicate InverseSquare(e: Env)
  {
    forall p: Vec, d: real :: IsDistance(p, d) && 0.0 < d ==> e.gravity(p) == GravityAt(p, d)
  }

  const FrameRate: real := 30.0
  /** Simulated seconds per real second: one day (86400 s) per minute. */
  const TimeDilation: real := 24.0 * 60.0
  /** Seconds each satellite advances per frame: 1440 / 30 = 48. */
  const TimeStep: real := TimeDilation / FrameRate

  // ---------------------------------------------------------------- fleet

  /** The initial registry: the Ship, GPS 0..5, Sputnik, Hubble, Dragon and Starlink. */
  function Fleet(e: Env): seq<Satellite>
  {
    [NewShip(e.m)] + seq(6, i => e.u.launch(Gps, i)) +
    [e.u.launch(Sputnik, 0), e.u.launch(Hubble, 0), NewDragon(e.m), e.u.launch(Starlink, 0)]
  }

  /** Eleven satellites in constructor order, all alive, young and invisible. */
  lemma FleetLayout(e: Env)
    requires Launches(e.u)
    ensures var f := Fleet(e);
      && |f| == 11
      && f[0].kind == Ship
      && (forall i :: 1 <= i <= 6 ==> f[i] == e.u.launch(Gps, i - 1) && f[i].kind == Gps)
      && f[7].kind == Sputnik && f[8].kind == Hubble && f[9].kind == Dragon && f[10].kind == Starlink
      && (forall i :: 0 <= i < 11 ==> IsFresh(f[i]) && IsInvisible(f[i]))
  {
    var f := Fleet(e);
    assert f[0] == NewShip(e.m) && f[9] == NewDragon(e.m);
    assert f[7] == e.u.launch(Sputnik, 0) && f[8] == e.u.launch(Hubble, 0) && f[10] == e.u.launch(Starlink, 0);
    assert forall i :: 1 <= i <= 6 ==> f[i] == e.u.launch(Gps, i - 1);
  }

  // ---------------------------------------------------------------- input pass

  /** Every ship in the list steered by this frame's keys; other satellites ignore input. */
  function SteerAll(s: seq<Satellite>, keys: Keys, m: Maker): (r: seq<Satellite>)
    ensures |r| == |s|
  {
    seq(|s|, i requires 0 <= i < |s| => if s[i].kind == Ship then Steered(s[i], keys, m) else s[i])
  }

  /** What one satellite's `input` appends: the shot of a ship, nothing otherwise. */
  function ShotOf(x: Satellite, keys: Keys, m: Maker): seq<Satellite>
  {
    if x.kind == Ship then Fire(Steered(x, keys, m), keys, m) else []
  }

  /** The projectiles the input pass appends, in the order of the ships that fire them. */
  function Shots(s: seq<Satellite>, keys: Keys, m: Maker): (r: seq<Satellite>)
    ensures |r| <= |s|
    ensures forall x :: x in r ==> x.kind == Projectile && IsFresh(x) && IsInvisible(x)
  {
    if s == [] then []
    else
      var last := s[|s| - 1];
      assert |ShotOf(last, keys, m)| <= 1 by { FireCount(Steered(last, keys, m), keys, m); }
      Shots(s[..|s| - 1], keys, m) + ShotOf(last, keys, m)
  }

  /** Simulator::input: the list after every satellite has taken input, in list order. */
  function InputPass(s: seq<Satellite>, keys: Keys, m: Maker): seq<Satellite>
  {
    SteerAll(s, keys, m) + Shots(s, keys, m)
  }

  /** How many ships the list holds. */
  function Ships(s: seq<Satellite>): nat
  {
    if s == [] then 0 else Ships(s[..|s| - 1]) + (if s[|s| - 1].kind == Ship then 1 else 0)
  }

  /**
   * The input pass keeps every existing satellite in its place, changes only
   * ships, and appends one projectile per ship when space is pressed, none otherwise.
   */
  lemma {:induction false} InputAppendsOnly(s: seq<Satellite>, keys: Keys, m: Maker)
    ensures var r := InputPass(s, keys, m);
      && |r| == |s| + (if keys.space then Ships(s) else 0)
      && (forall i :: 0 <= i < |s| && s[i].kind != Ship ==> r[i] == s[i])
      && (forall i :: 0 <= i < |s| && s[i].kind == Ship ==> r[i] == Steered(s[i], keys, m))
      && (forall i :: |s| <= i < |r| ==> r[i].kind == Projectile)
  {
    ShotsCount(s, keys, m);
  }

  lemma {:induction false} ShotsCount(s: seq<Satellite>, keys: Keys, m: Maker)
    ensures |Shots(s, keys, m)| == if keys.space then Ships(s) else 0
  {
    if s != [] {
      ShotsCount(s[..|s| - 1], keys, m);
    }
  }

  /** The list while the input walk is at index i of the original s. */
  function Walked(s: seq<Satellite>, i: nat, keys: Keys, m: Maker): seq<Satellite>
    requires i <= |s|
  {
    SteerAll(s[..i], keys, m) + s[i..] + Shots(s[..i], keys, m)
  }

  /** The input walk at index i < |s| finds the i-th original satellite there. */
  lemma InputStep(s: seq<Satellite>, i: nat, keys: Keys, m: Maker)
    requires i < |s|
    ensures var cur := Walked(s, i, keys, m);
      i < |cur| <= |s| + i && cur[i] == s[i]
  {
    WalkedAt(s, i, keys, m);
  }

  /** A ship is steered in place and its shot appended, as in the specification. */
  lemma SteerStep(s: seq<Satellite>, i: nat, keys: Keys, m: Maker)
    requires i < |s| && s[i].kind == Ship
    ensures var cur, x := Walked(s, i, keys, m), Steered(s[i], keys, m);
      (cur + Fire(x, keys, m))[i := x] == Walked(s, i + 1, keys, m)
  {
    WalkedAt(s, i, keys, m);
    WalkGrows(s, i, keys, m);
    var x := Steered(s[i], keys, m);
    ReplaceAt(SteerAll(s[..i], keys, m), s[i], x, s[i + 1..], Shots(s[..i], keys, m), Fire(x, keys, m));
  }

  /** Replacing the element after `front` in a list with a tail appended. */
  lemma ReplaceAt(front: seq<Satellite>, x: Satellite, y: Satellite, rest: seq<Satellite>, back: seq<Satellite>, tail: seq<Satellite>)
    ensures (front + [x] + rest + back + tail)[|front| := y] == front + [y] + rest + (back + tail)
  {
    var grown := front + [x] + rest + back + tail;
    assert grown[|front| := y] == front + [y] + (rest + back + tail);
  }

  /** Any other satellite ignores input. */
  lemma IgnoreStep(s: seq<Satellite>, i: nat, keys: Keys, m: Maker)
    requires i < |s| && s[i].kind != Ship
    ensures Walked(s, i, keys, m) == Walked(s, i + 1, keys, m)
  {
    WalkedAt(s, i, keys, m);
    WalkGrows(s, i, keys, m);
  }

  /** The walk's list at i, with the i-th original satellite picked out. */
  lemma WalkedAt(s: seq<Satellite>, i: nat, keys: Keys, m: Maker)
    requires i < |s|
    ensures Walked(s, i, keys, m) == SteerAll(s[..i], keys, m) + [s[i]] + s[i + 1..] + Shots(s[..i], keys, m)
  {
    assert s[i..] == [s[i]] + s[i + 1..];
  }

  /** Taking one more original satellite steers it and appends its shot. */
  lemma WalkGrows(s: seq<Satellite>, i: nat, keys: Keys, m: Maker)
    requires i < |s|
    ensures s[i].kind == Ship ==>
      && SteerAll(s[..i + 1], keys, m) == SteerAll(s[..i], keys, m) + [Steered(s[i], keys, m)]
      && Shots(s[..i + 1], keys, m) == Shots(s[..i], keys, m) + Fire(Steered(s[i], keys, m), keys, m)
    ensures s[i].kind != Ship ==>
      && SteerAll(s[..i + 1], keys, m) == SteerAll(s[..i], keys, m) + [s[i]]
      && Shots(s[..i + 1], keys, m) == Shots(s[..i], keys, m)
  {
    var p := s[..i + 1];
    assert p[..i] == s[..i];
    assert SteerAll(p, keys, m) == SteerAll(s[..i], keys, m) + [SteerAll(p, keys, m)[i]];
    if s[i].kind != Ship {
      assert Shots(p, keys, m) == Shots(s[..i], keys, m) + [];
    }
  }

  /** What the walk finds after the original satellites: projectiles only, which ignore input. */
  lemma WalkDone(s: seq<Satellite>, keys: Keys, m: Maker)
    ensures Walked(s, |s|, keys, m) == InputPass(s, keys, m)
    ensures |InputPass(s, keys, m)| <= 2 * |s|
    ensures forall j :: |s| <= j < |InputPass(s, keys, m)| ==> InputPass(s, keys, m)[j].kind != Ship
  {
    assert s[..|s|] == s;
    forall j | |s| <= j < |InputPass(s, keys, m)| ensures InputPass(s, keys, m)[j].kind != Ship {
      assert InputPass(s, keys, m)[j] in Shots(s, keys, m);
    }
  }

  /**
   * Where the input walk stands at index i of the current list: among the
   * original satellites, or among the projectiles appended after them.
   */
  ghost predicate InputAt(s: seq<Satellite>, keys: Keys, m: Maker, cur: seq<Satellite>, i: nat)
  {
    && i <= |cur| <= 2 * |s|
    && (i <= |s| ==> cur == Walked(s, i, keys, m))
    && (|s| <= i ==> cur == InputPass(s, keys, m))
  }

  /** The walk starts at the head of the original list. */
  lemma InputStart(s: seq<Satellite>, keys: Keys, m: Maker)
    ensures InputAt(s, keys, m, s, 0)
  {
    assert s[..0] == [] && s[0..] == s;
    if s == [] {
      WalkDone(s, keys, m);
    }
  }

  /** A ship is steered in place and its shot appended; anything else is left alone. */
  lemma InputAdvance(s: seq<Satellite>, keys: Keys, m: Maker, cur: seq<Satellite>, i: nat)
    requires InputAt(s, keys, m, cur, i) && i < |cur|
    ensures cur[i].kind == Ship ==>
      InputAt(s, keys, m, (cur + Fire(Steered(cur[i], keys, m), keys, m))[i := Steered(cur[i], keys, m)], i + 1)
    ensures cur[i].kind != Ship ==> InputAt(s, keys, m, cur, i + 1)
  {
    if i < |s| {
      InputStep(s, i, keys, m);
      if s[i].kind == Ship {
        SteerStep(s, i, keys, m);
      } else {
        IgnoreStep(s, i, keys, m);
      }
      if i + 1 == |s| {
        WalkDone(s, keys, m);
      }
    } else {
      WalkDone(s, keys, m);
    }
  }

  /** A walk past the end of the list has done the whole input pass. */
  lemma InputEnd(s: seq<Satellite>, keys: Keys, m: Maker, cur: seq<Satellite>, i: nat)
    requires InputAt(s, keys, m, cur, i) && |cur| <= i
    ensures cur == InputPass(s, keys, m)
  {
  }

  // ---------------------------------------------------------------- move pass

  /** Simulator::move, first loop: every satellite moved by the same 48 seconds. */
  function MoveAll(s: seq<Satellite>, e: Env): (r: seq<Satellite>)
    ensures |r| == |s|
  {
    seq(|s|, i requires 0 <= i < |s| => Move(s[i], TimeStep, e.gravity(s[i].pos), e.roll(s[i])))
  }

  /**
   * After the move pass every satellite is one frame older, keeps its place,
   * kind and radius, and no satellite comes back from the dead or stops being defunct.
   */
  lemma MoveLaws(s: seq<Satellite>, e: Env)
    ensures var r := MoveAll(s, e);
      forall i :: 0 <= i < |s| ==>
        && r[i].age == s[i].age + 1 && r[i].kind == s[i].kind && r[i].radius == s[i].radius
        && (s[i].dead ==> r[i].dead) && (s[i].defunct ==> r[i].defunct)
        && r[i].vel == Kick(s[i].vel, e.gravity(s[i].pos), 48.0)
  {
    forall i | 0 <= i < |s|
      ensures MoveAll(s, e)[i].vel == Kick(s[i].vel, e.gravity(s[i].pos), 48.0)
    {
      MovedVelocity(s[i], e);
    }
  }

  /** One satellite's velocity after a frame: 48 seconds of its own gravity. */
  lemma MovedVelocity(x: Satellite, e: Env)
    ensures Move(x, TimeStep, e.gravity(x.pos), e.roll(x)).vel == Kick(x.vel, e.gravity(x.pos), 48.0)
  {
    assert TimeStep == 48.0;
    DriftedNet(x, TimeStep, e.gravity(x.pos));
  }

  /**
   * Under the inverse-square law, the move pass changes a satellite's
   * velocity by 48 seconds of its own gravity: a change of magnitude 48·g(h)
   * that points straight at the Earth's center.
   */
  lemma MovePullsInward(s: seq<Satellite>, e: Env, i: int, d: real)
    requires InverseSquare(e) && 0 <= i < |s| && IsDistance(s[i].pos, d) && 0.0 < d
    ensures var g := GravityMagnitude(Altitude(s[i].pos, d));
      var r := MoveAll(s, e)[i];
      var dv := Vec(r.vel.x - s[i].vel.x, r.vel.y - s[i].vel.y);
      && NormSq(dv) == (48.0 * g) * (48.0 * g)
      && Dot(dv, s[i].pos) == -(48.0 * g * d)
  {
    var g := GravityMagnitude(Altitude(s[i].pos, d));
    var a := GravityAt(s[i].pos, d);
    MoveLaws(s, e);
    var r := MoveAll(s, e)[i];
    var dv := Vec(r.vel.x - s[i].vel.x, r.vel.y - s[i].vel.y);
    assert e.gravity(s[i].pos) == a;
    assert dv == Scale(48.0, a);
    calc {
      NormSq(dv);
      (48.0 * 48.0) * NormSq(a);
      (48.0 * 48.0) * (g * g);
      (48.0 * g) * (48.0 * g);
    }
    calc {
      Dot(dv, s[i].pos);
      48.0 * Dot(a, s[i].pos);
      48.0 * -(g * d);
    }
  }

  // ---------------------------------------------------------------- collision pass

  /** The vector from b's position to a's. */
  function Gap(a: Satellite, b: Satellite): Vec { Vec(a.pos.x - b.pos.x, a.pos.y - b.pos.y) }

  /** The two satellites are closer than the sum of their radii (compared squared). */
  predicate Overlap(a: Satellite, b: Satellite)
  {
    0.0 < a.radius + b.radius && NormSq(Gap(a, b)) < (a.radius + b.radius) * (a.radius + b.radius)
  }

  /**
   * Overlap is the source's test `distance < r1 + r2` for the true distance:
   * satellites exactly r1 + r2 apart do not collide.
   */
  lemma OverlapMeansCloser(a: Satellite, b: Satellite, d: real)
    requires IsDistance(Gap(a, b), d)
    ensures Overlap(a, b) <==> d < a.radius + b.radius
  {
    var rr := a.radius + b.radius;
    if 0.0 < rr {
      SquareMonotone(d, rr);
    }
  }

  lemma OverlapSymmetric(a: Satellite, b: Satellite)
    ensures Overlap(a, b) == Overlap(b, a)
  {
    assert NormSq(Gap(a, b)) == NormSq(Gap(b, a)) by {
      assert (a.pos.x - b.pos.x) * (a.pos.x - b.pos.x) == (b.pos.x - a.pos.x) * (b.pos.x - a.pos.x);
      assert (a.pos.y - b.pos.y) * (a.pos.y - b.pos.y) == (b.pos.y - a.pos.y) * (b.pos.y - a.pos.y);
    }
  }

  /** A satellite that takes part in collision tests: not dead and not invisible. */
  predicate Eligible(x: Satellite) { !x.dead && !IsInvisible(x) }

  /** One pair test of the inner loop: kill both when both are eligible and they overlap. */
  function TestPair(s: seq<Satellite>, i: nat, j: nat): (r: seq<Satellite>)
    requires i < j < |s|
    ensures |r| == |s|
  {
    if Clash(s[i], s[j]) then s[i := Kill(s[i])][j := Kill(s[j])]
    else s
  }

  /** The inner loop from `j` on: satellite i against each later satellite in turn. */
  function Sweep(s: seq<Satellite>, i: nat, j: nat): (r: seq<Satellite>)
    requires i < j <= |s|
    ensures |r| == |s|
    decreases |s| - j
  {
    if j == |s| then s else Sweep(TestPair(s, i, j), i, j + 1)
  }

  /** The outer loop from `i` on. */
  function Rows(s: seq<Satellite>, i: nat): (r: seq<Satellite>)
    requires i <= |s|
    ensures |r| == |s|
    decreases |s| - i
  {
    if i == |s| then s else Rows(Sweep(s, i, i + 1), i + 1)
  }

  /** Simulator::move, second loop: each unordered pair tested once, in list order. */
  function CollidePass(s: seq<Satellite>): seq<Satellite>
  {
    Rows(s, 0)
  }

  /** `y` is `x`, except that `y` may have been killed, which needs `x` visible. */
  predicate KilledOnly(x: Satellite, y: Satellite)
  {
    && y == x.(dead := y.dead)
    && (x.dead ==> y.dead)
    && (IsInvisible(x) ==> y == x)
  }

  /** `r` differs from `s` only by `dead` flags newly set on visible satellites. */
  ghost predicate OnlyKills(s: seq<Satellite>, r: seq<Satellite>)
  {
    |r| == |s| && forall k :: 0 <= k < |s| ==> KilledOnly(s[k], r[k])
  }

  /** Satellite l was an eligible partner overlapping satellite k, and died too. */
  ghost predicate Partner(s: seq<Satellite>, r: seq<Satellite>, k: int, l: int)
    requires |r| == |s|
  {
    0 <= k < |s| && 0 <= l < |s| && l != k && Eligible(s[k]) && Eligible(s[l]) && Overlap(s[k], s[l]) && r[l].dead
  }

  /** Every satellite newly dead in `r` overlapped an eligible partner that also died. */
  ghost predicate Justified(s: seq<Satellite>, r: seq<Satellite>)
    requires |r| == |s|
  {
    forall k :: 0 <= k < |s| ==> JustifiedAt(s, r, k)
  }

  /** Satellite k, if newly dead in `r`, has a partner. */
  ghost predicate JustifiedAt(s: seq<Satellite>, r: seq<Satellite>, k: int)
    requires |r| == |s| && 0 <= k < |s|
  {
    r[k].dead && !s[k].dead ==> exists l :: Partner(s, r, k, l)
  }

  /** Pairs (k, l), k < l, before pair (i, j) in loop order: none are both eligible and overlapping. */
  ghost predicate PairsDone(s: seq<Satellite>, i: int, j: int)
  {
    forall k, l :: 0 <= k < l < |s| && (k < i || (k == i && l < j)) ==> !Clash(s[k], s[l])
  }

  /** Two eligible satellites that overlap. */
  predicate Clash(a: Satellite, b: Satellite) { Eligible(a) && Eligible(b) && Overlap(a, b) }

  /** No two eligible satellites overlap. */
  ghost predicate Settled(s: seq<Satellite>)
  {
    forall k, l :: 0 <= k < l < |s| ==> !Clash(s[k], s[l])
  }

  lemma OnlyKillsChain(s: seq<Satellite>, t: seq<Satellite>, r: seq<Satellite>)
    requires OnlyKills(s, t) && OnlyKills(t, r)
    ensures OnlyKills(s, r)
  {
    forall k | 0 <= k < |s| ensures KilledOnly(s[k], r[k]) {
      assert KilledOnly(s[k], t[k]) && KilledOnly(t[k], r[k]);
    }
  }

  /** A satellite still alive after some kills looks as it did before, so eligibility and overlap carry back. */
  lemma ClashBack(a: Satellite, a': Satellite, b: Satellite, b': Satellite)
    requires KilledOnly(a, a') && KilledOnly(b, b')
    ensures Clash(a', b') ==> Clash(a, b)
    ensures Overlap(a', b') == Overlap(a, b)
  {
    assert a'.pos == a.pos && a'.radius == a.radius && b'.pos == b.pos && b'.radius == b.radius;
  }

  lemma JustifiedChain(s: seq<Satellite>, t: seq<Satellite>, r: seq<Satellite>)
    requires OnlyKills(s, t) && OnlyKills(t, r) && Justified(s, t) && Justified(t, r)
    ensures Justified(s, r)
  {
    forall k | 0 <= k < |s|
      ensures JustifiedAt(s, r, k)
    {
      assert KilledOnly(s[k], t[k]) && KilledOnly(t[k], r[k]);
      assert JustifiedAt(s, t, k) && JustifiedAt(t, r, k);
      if !r[k].dead || s[k].dead {
      } else if t[k].dead {
        var l :| Partner(s, t, k, l);
        assert KilledOnly(t[l], r[l]);
        assert Partner(s, r, k, l);
      } else {
        var l :| Partner(t, r, k, l);
        assert KilledOnly(s[l], t[l]);
        ClashBack(s[k], t[k], s[l], t[l]);
        assert Partner(s, r, k, l);
      }
    }
  }

  lemma PairsDoneKept(s: seq<Satellite>, t: seq<Satellite>, i: int, j: int)
    requires OnlyKills(s, t) && PairsDone(s, i, j)
    ensures PairsDone(t, i, j)
  {
    forall k, l | 0 <= k < l < |t| && (k < i || (k == i && l < j))
      ensures !Clash(t[k], t[l])
    {
      ClashBack(s[k], t[k], s[l], t[l]);
    }
  }

  /** One pair test only kills, kills with reason, and settles the pair it tests. */
  lemma TestPairStep(s: seq<Satellite>, i: nat, j: nat)
    requires i < j < |s| && PairsDone(s, i, j)
    ensures var t := TestPair(s, i, j);
      OnlyKills(s, t) && Justified(s, t) && PairsDone(t, i, j + 1)
  {
    var t := TestPair(s, i, j);
    OverlapSymmetric(s[i], s[j]);
    assert OnlyKills(s, t);
    forall k | 0 <= k < |s|
      ensures JustifiedAt(s, t, k)
    {
      if !t[k].dead || s[k].dead {
      } else if k == i {
        assert Partner(s, t, i, j);
      } else {
        assert Partner(s, t, j, i);
      }
    }
    PairsDoneKept(s, t, i, j);
    forall k, l | 0 <= k < l < |t| && (k < i || (k == i && l < j + 1))
      ensures !Clash(t[k], t[l])
    {
      if k == i && l == j {
        ClashBack(s[i], t[i], s[j], t[j]);
      }
    }
  }

  /** Finishing row i is the same as having done every pair before row i + 1. */
  lemma RowDone(s: seq<Satellite>, i: nat)
    requires PairsDone(s, i, |s|)
    ensures PairsDone(s, i + 1, i + 2)
  {
    forall k, l | 0 <= k < l < |s| && (k < i + 1 || (k == i + 1 && l < i + 2))
      ensures !Clash(s[k], s[l])
    {
    }
  }

  lemma {:induction false} SweepLaws(s: seq<Satellite>, i: nat, j: nat)
    requires i < j <= |s| && PairsDone(s, i, j)
    ensures var r := Sweep(s, i, j);
      OnlyKills(s, r) && Justified(s, r) && PairsDone(r, i, |s|)
    decreases |s| - j
  {
    if j < |s| {
      var t := TestPair(s, i, j);
      TestPairStep(s, i, j);
      SweepLaws(t, i, j + 1);
      OnlyKillsChain(s, t, Sweep(t, i, j + 1));
      JustifiedChain(s, t, Sweep(t, i, j + 1));
    }
  }

  lemma {:induction false} RowsLaws(s: seq<Satellite>, i: nat)
    requires i <= |s| && PairsDone(s, i, i + 1)
    ensures var r := Rows(s, i);
      OnlyKills(s, r) && Justified(s, r) && Settled(r)
    decreases |s| - i
  {
    if i < |s| {
      var t := Sweep(s, i, i + 1);
      SweepLaws(s, i, i + 1);
      RowDone(t, i);
      RowsLaws(t, i + 1);
      OnlyKillsChain(s, t, Rows(t, i + 1));
      JustifiedChain(s, t, Rows(t, i + 1));
    } else {
      assert OnlyKills(s, s);
      forall k, l | 0 <= k < l < |s| ensures !Clash(s[k], s[l]) {
      }
    }
  }

  /**
   * The collision pass only sets `dead` flags, never on an invisible satellite;
   * each satellite it kills overlapped an eligible partner that died with it;
   * and afterwards no two eligible satellites overlap.
   */
  lemma CollideLaws(s: seq<Satellite>)
    ensures var r := CollidePass(s);
      OnlyKills(s, r) && Justified(s, r) && Settled(r)
  {
    RowsLaws(s, 0);
  }

  /** A frame-ready satellite for the example below: a visible fragment of radius 1. */
  function Probe(x: real): Satellite
  {
    Satellite(Fragment, Vec(x, 0.0), Zero, 0.0, 0.0, 1.0, 10, false, true, false, 0, false)
  }

  /**
   * Outcomes depend on list order: with a, b, c in a row 1.5 apart, the pair
   * tested first dies and the third survives, so listing them the other way
   * round changes which of a and c survives.
   */
  lemma OrderMatters()
    ensures CollidePass([Probe(0.0), Probe(1.5), Probe(3.0)]) == [Kill(Probe(0.0)), Kill(Probe(1.5)), Probe(3.0)]
    ensures CollidePass([Probe(3.0), Probe(1.5), Probe(0.0)]) == [Kill(Probe(3.0)), Kill(Probe(1.5)), Probe(0.0)]
  {
    var a, b, c := Probe(0.0), Probe(1.5), Probe(3.0);
    assert Overlap(a, b) && Overlap(b, c) && !Overlap(a, c);
    assert Overlap(c, b) && Overlap(b, a) && !Overlap(c, a);
    var s := [a, b, c];
    var s1 := TestPair(s, 0, 1);
    assert s1 == [Kill(a), Kill(b), c];
    assert Sweep(s, 0, 1) == [Kill(a), Kill(b), c] by {
      assert Sweep(s1, 0, 2) == TestPair(s1, 0, 2);
    }
    var s' := [Kill(a), Kill(b), c];
    assert Rows(s, 0) == Rows(s', 1);
    assert TestPair(s', 1, 2) == s';
    assert Sweep(s', 1, 2) == Sweep(s', 1, 3) == s';
    assert Rows(s', 1) == Rows(s', 2) == Rows(s', 3) == s';
    assert Rows(s, 0) == [Kill(a), Kill(b), c];
    var z := [c, b, a];
    var z1 := TestPair(z, 0, 1);
    assert z1 == [Kill(c), Kill(b), a];
    assert Sweep(z, 0, 1) == [Kill(c), Kill(b), a] by {
      assert Sweep(z1, 0, 2) == TestPair(z1, 0, 2);
    }
    var z' := [Kill(c), Kill(b), a];
    assert Rows(z, 0) == Rows(z', 1);
    assert TestPair(z', 1, 2) == z';
    assert Sweep(z', 1, 2) == Sweep(z', 1, 3) == z';
    assert Rows(z', 1) == Rows(z', 2) == Rows(z', 3) == z';
    assert Rows(z, 0) == [Kill(c), Kill(b), a];
  }

  // ---------------------------------------------------------------- destruction pass

  /** The cascade each class's `destroy` appends. */
  function Plan(x: Satellite, u: Unseen): seq<Spawn>
  {
    match x.kind
    case Ship => Ring()
    case DragonCenter => Ring()
    case Dragon => DragonPlan()
    case DragonLeft => LeftPlan()
    case DragonRight => RightPlan()
    case Fragment => []
    case Projectile => []
    case _ => u.cascade(x.kind)
  }

  /** Cascade sizes: 5 for Ship, Dragon and DragonCenter, 2 for DragonLeft and DragonRight, 0 for debris. */
  lemma PlanSizes(x: Satellite, u: Unseen)
    ensures x.kind == Ship || x.kind == Dragon || x.kind == DragonCenter ==> |Plan(x, u)| == 5
    ensures x.kind == DragonLeft || x.kind == DragonRight ==> |Plan(x, u)| == 2
    ensures IsShortLived(x.kind) ==> Plan(x, u) == []
    ensures x.kind == Ship || x.kind == DragonCenter || x.kind == DragonLeft || x.kind == DragonRight ==>
      forall i :: 0 <= i < |Plan(x, u)| ==> Plan(x, u)[i].kind == Fragment
  {
  }

  /** The children `destroy` appends for satellite x. */
  function Kids(x: Satellite, e: Env): (cs: seq<Satellite>)
    ensures |cs| == |Plan(x, e.u)|
    ensures forall c :: c in cs ==> !c.dead
  {
    Children(x, Plan(x, e.u), e.m, e.u)
  }

  /** The satellites that are not dead, in list order. */
  function Survivors(s: seq<Satellite>): (r: seq<Satellite>)
    ensures forall x :: x in r ==> !x.dead
  {
    if s == [] then []
    else Survivors(s[..|s| - 1]) + (if s[|s| - 1].dead then [] else [s[|s| - 1]])
  }

  /** The children of the dead satellites, one cascade after another in list order. */
  function Debris(s: seq<Satellite>, e: Env): (r: seq<Satellite>)
    ensures forall x :: x in r ==> !x.dead
  {
    if s == [] then []
    else Debris(s[..|s| - 1], e) + (if s[|s| - 1].dead then Kids(s[|s| - 1], e) else [])
  }

  /** Simulator::move, last loop: dead satellites erased, their cascades appended. */
  function DestroyPass(s: seq<Satellite>, e: Env): seq<Satellite>
  {
    Survivors(s) + Debris(s, e)
  }

  /** Erasing keeps order: the survivors of a concatenation are the concatenated survivors. */
  lemma {:induction false} SurvivorsConcat(a: seq<Satellite>, b: seq<Satellite>)
    ensures Survivors(a + b) == Survivors(a) + Survivors(b)
    decreases |b|
  {
    if b != [] {
      assert (a + b)[..|a + b| - 1] == a + b[..|b| - 1];
      SurvivorsConcat(a, b[..|b| - 1]);
    } else {
      assert a + b == a;
    }
  }

  /** The survivors are exactly the satellites that were not dead. */
  lemma {:induction false} SurvivorsMembers(s: seq<Satellite>)
    ensures forall x :: x in Survivors(s) <==> x in s && !x.dead
  {
    if s != [] {
      var p, last := s[..|s| - 1], s[|s| - 1];
      SurvivorsMembers(p);
      assert s == p + [last];
    }
  }

  /** Erasing never lengthens the list. */
  lemma {:induction false} SurvivorsShorter(s: seq<Satellite>)
    ensures |Survivors(s)| <= |s|
  {
    if s != [] {
      SurvivorsShorter(s[..|s| - 1]);
    }
  }

  /** A list with no dead satellite is left unchanged. */
  lemma {:induction false} SurvivorsAllAlive(s: seq<Satellite>)
    requires forall i :: 0 <= i < |s| ==> !s[i].dead
    ensures Survivors(s) == s
  {
    if s != [] {
      var p := s[..|s| - 1];
      assert forall i :: 0 <= i < |p| ==> p[i] == s[i];
      SurvivorsAllAlive(p);
      assert s == p + [s[|s| - 1]];
    }
  }

  /**
   * After the destruction pass nothing dead remains; every survivor and every
   * child of a dead satellite is present, the survivors first and in their old order.
   */
  lemma DestroyLaws(s: seq<Satellite>, e: Env)
    ensures forall x :: x in DestroyPass(s, e) ==> !x.dead
    ensures DestroyPass(s, e)[..|Survivors(s)|] == Survivors(s)
    ensures forall x :: x in s && !x.dead ==> x in DestroyPass(s, e)
    ensures forall i :: 0 <= i < |s| && s[i].dead ==> forall c :: c in Kids(s[i], e) ==> c in DestroyPass(s, e)
  {
    SurvivorsMembers(s);
    SurvivorsShorter(s);
    forall i | 0 <= i < |s| && s[i].dead
      ensures forall c :: c in Kids(s[i], e) ==> c in Debris(s, e)
    {
      DebrisHolds(s, i, e);
    }
  }

  lemma {:induction false} DebrisHolds(s: seq<Satellite>, i: nat, e: Env)
    requires i < |s| && s[i].dead
    ensures forall c :: c in Kids(s[i], e) ==> c in Debris(s, e)
  {
    var p := s[..|s| - 1];
    if i < |s| - 1 {
      assert p[i] == s[i];
      DebrisHolds(p, i, e);
    }
  }

  /** The list while the destruction walk is at the k-th satellite of the original s. */
  function Cleared(s: seq<Satellite>, k: nat, e: Env): seq<Satellite>
    requires k <= |s|
  {
    Survivors(s[..k]) + s[k..] + Debris(s[..k], e)
  }

  /** The destruction walk at the k-th original satellite finds it at the end of the survivors. */
  lemma DestroyStep(s: seq<Satellite>, k: nat, e: Env)
    requires k < |s|
    ensures var i := |Survivors(s[..k])|;
      i < |Cleared(s, k, e)| && Cleared(s, k, e)[i] == s[k]
  {
    ClearedAt(s, k, e);
  }

  /** Stepping past a live original satellite moves it into the survivors. */
  lemma KeepStep(s: seq<Satellite>, k: nat, e: Env)
    requires k < |s| && !s[k].dead
    ensures Cleared(s, k, e) == Cleared(s, k + 1, e)
    ensures |Survivors(s[..k + 1])| == |Survivors(s[..k])| + 1
  {
    ClearedAt(s, k, e);
    PrefixGrows(s, k, e);
  }

  /** Erasing a dead original satellite after appending its cascade moves the cascade into the debris. */
  lemma EraseStep(s: seq<Satellite>, k: nat, e: Env)
    requires k < |s| && s[k].dead
    ensures var i, grown := |Survivors(s[..k])|, Cleared(s, k, e) + Kids(s[k], e);
      i < |grown| && grown[..i] + grown[i + 1..] == Cleared(s, k + 1, e)
    ensures |Survivors(s[..k + 1])| == |Survivors(s[..k])|
  {
    ClearedAt(s, k, e);
    PrefixGrows(s, k, e);
    EraseAt(Survivors(s[..k]), s[k], s[k + 1..], Debris(s[..k], e), Kids(s[k], e));
  }

  /** Erasing the element after `front` from a list with a tail appended. */
  lemma EraseAt(front: seq<Satellite>, x: Satellite, rest: seq<Satellite>, back: seq<Satellite>, tail: seq<Satellite>)
    ensures var grown := front + [x] + rest + back + tail;
      grown[..|front|] + grown[|front| + 1..] == front + rest + (back + tail)
  {
    var grown := front + [x] + rest + back + tail;
    assert grown == front + [x] + (rest + back + tail);
    assert grown[..|front|] == front;
    assert grown[|front| + 1..] == rest + back + tail;
  }

  /** The walk's list at k, with the k-th original satellite picked out. */
  lemma ClearedAt(s: seq<Satellite>, k: nat, e: Env)
    requires k < |s|
    ensures Cleared(s, k, e) == Survivors(s[..k]) + [s[k]] + s[k + 1..] + Debris(s[..k], e)
  {
    assert s[k..] == [s[k]] + s[k + 1..];
  }

  /** Taking one more original satellite adds it to the survivors, or its cascade to the debris. */
  lemma PrefixGrows(s: seq<Satellite>, k: nat, e: Env)
    requires k < |s|
    ensures s[k].dead ==> Survivors(s[..k + 1]) == Survivors(s[..k]) && Debris(s[..k + 1], e) == Debris(s[..k], e) + Kids(s[k], e)
    ensures !s[k].dead ==> Survivors(s[..k + 1]) == Survivors(s[..k]) + [s[k]] && Debris(s[..k + 1], e) == Debris(s[..k], e)
  {
    var p := s[..k + 1];
    assert p[..k] == s[..k];
    if s[k].dead {
      assert Survivors(p) == Survivors(s[..k]) + [];
    } else {
      assert Debris(p, e) == Debris(s[..k], e) + [];
    }
  }

  /** What the walk finds after the original satellites: children only, all alive. */
  lemma DebrisAlive(s: seq<Satellite>, e: Env)
    ensures Cleared(s, |s|, e) == DestroyPass(s, e)
    ensures forall j :: |Survivors(s)| <= j < |DestroyPass(s, e)| ==> !DestroyPass(s, e)[j].dead
  {
    assert s[..|s|] == s;
    forall j | |Survivors(s)| <= j < |DestroyPass(s, e)| ensures !DestroyPass(s, e)[j].dead {
      assert DestroyPass(s, e)[j] in Debris(s, e);
    }
  }

  /**
   * Where the destruction walk stands at index i of the current list: at the
   * k-th original satellite, or (k = |s|) among the appended children.
   */
  ghost predicate DestroyAt(s: seq<Satellite>, e: Env, k: nat, cur: seq<Satellite>, i: nat)
  {
    && k <= |s| && i <= |cur|
    && (k < |s| ==> cur == Cleared(s, k, e) && i == |Survivors(s[..k])|)
    && (k == |s| ==> cur == DestroyPass(s, e) && |Survivors(s)| <= i
                     && forall j :: i <= j < |cur| ==> !cur[j].dead)
  }

  /** The walk starts at the head of the original list. */
  lemma DestroyStart(s: seq<Satellite>, e: Env)
    ensures DestroyAt(s, e, 0, s, 0)
  {
    assert s[..0] == [] && s[0..] == s;
  }

  /** A live satellite stays where it is and the walk moves past it. */
  lemma DestroyKeep(s: seq<Satellite>, e: Env, k: nat, cur: seq<Satellite>, i: nat)
    requires DestroyAt(s, e, k, cur, i) && i < |cur| && !cur[i].dead
    ensures DestroyAt(s, e, if k < |s| then k + 1 else k, cur, i + 1)
  {
    if k < |s| {
      DestroyStep(s, k, e);
      KeepStep(s, k, e);
      if k + 1 == |s| {
        DebrisAlive(s, e);
      }
    }
  }

  /** A dead satellite's cascade is appended and the satellite itself erased. */
  lemma DestroyErase(s: seq<Satellite>, e: Env, k: nat, cur: seq<Satellite>, i: nat)
    requires DestroyAt(s, e, k, cur, i) && i < |cur| && cur[i].dead
    ensures k < |s|
    ensures var grown := cur + Kids(cur[i], e);
      DestroyAt(s, e, k + 1, grown[..i] + grown[i + 1..], i)
  {
    DestroyStep(s, k, e);
    EraseStep(s, k, e);
    if k + 1 == |s| {
      DebrisAlive(s, e);
    }
  }

  /** A walk past the end of the list has done the whole destruction pass. */
  lemma DestroyEnd(s: seq<Satellite>, e: Env, k: nat, cur: seq<Satellite>, i: nat)
    requires DestroyAt(s, e, k, cur, i) && |cur| <= i
    ensures cur == DestroyPass(s, e)
  {
  }

  /** `destroy` of one satellite: its cascade appended to the list. */
  method DestroyOne(x: Satellite, list: seq<Satellite>, e: Env) returns (r: seq<Satellite>)
    ensures r == list + Kids(x, e)
  {
    match x.kind {
      case Ship => r := Scatter(x, list, e.m, e.u);
      case DragonCenter => r := Scatter(x, list, e.m, e.u);
      case Dragon => r := DestroyDragon(x, list, e.m, e.u);
      case DragonLeft => r := DestroyLeft(x, list, e.m, e.u);
      case DragonRight => r := DestroyRight(x, list, e.m, e.u);
      case Fragment => r := list;
      case Projectile => r := list;
      case _ => r := list + Children(x, e.u.cascade(x.kind), e.m, e.u);
    }
    assert Kids(x, e) == Children(x, Plan(x, e.u), e.m, e.u);
  }

  // ---------------------------------------------------------------- the registry

  /** Simulator: owns the list of satellites. */
  class Simulator {
    var satellites: seq<Satellite>
    const env: Env

    /** Simulator(): the Ship, then GPS 0..5 in a loop, then Sputnik, Hubble, Dragon and Starlink. */
    constructor (e: Env)
      requires InverseSquare(e)
      ensures env == e && satellites == Fleet(e)
    {
      env := e;
      var list := [NewShip(e.m)];
      for i := 0 to 6
        invariant list == [NewShip(e.m)] + seq(i, k => e.u.launch(Gps, k))
      {
        list := list + [e.u.launch(Gps, i)];
        assert seq(i + 1, k => e.u.launch(Gps, k)) == seq(i, k => e.u.launch(Gps, k)) + [e.u.launch(Gps, i)];
      }
      list := list + [e.u.launch(Sputnik, 0)];
      list := list + [e.u.launch(Hubble, 0)];
      list := list + [NewDragon(e.m)];
      list := list + [e.u.launch(Starlink, 0)];
      satellites := list;
    }

    /**
     * Simulator::input: each satellite in turn takes input; the walk reaches the
     * projectiles appended on the way too, which ignore it.
     */
    method Input(keys: Keys)
      modifies this
      ensures satellites == InputPass(old(satellites), keys, env.m)
    {
      ghost var s := satellites;
      var cur := satellites;
      var i := 0;
      InputStart(s, keys, env.m);
      while i < |cur|
        invariant InputAt(s, keys, env.m, cur, i)
        decreases 2 * |s| - i
      {
        InputAdvance(s, keys, env.m, cur, i);
        if cur[i].kind == Ship {
          var steered, list := ShipModel.Input(cur[i], keys, env.m, cur);
          cur := list[i := steered];
        }
        i := i + 1;
      }
      InputEnd(s, keys, env.m, cur, i);
      satellites := cur;
    }

    /** Simulator::move, first loop: each satellite moves by TimeStep. */
    method Advance()
      requires InverseSquare(env)
      modifies this
      ensures satellites == MoveAll(old(satellites), env)
    {
      ghost var s := satellites;
      var cur := satellites;
      for i := 0 to |cur|
        invariant |cur| == |s|
        invariant forall k :: 0 <= k < i ==> cur[k] == MoveAll(s, env)[k]
        invariant forall k :: i <= k < |cur| ==> cur[k] == s[k]
      {
        var x := cur[i];
        cur := cur[i := Satellites.Move(x, TimeStep, env.gravity(x.pos), env.roll(x))];
      }
      satellites := cur;
    }

    /** Simulator::move, second loop: the nested iterator walk over unordered pairs. */
    method Collide()
      modifies this
      ensures satellites == CollidePass(old(satellites))
    {
      ghost var s := satellites;
      var cur := satellites;
      var i := 0;
      while i < |cur|
        invariant i <= |cur| == |s|
        invariant Rows(cur, i) == CollidePass(s)
      {
        var j := i + 1;
        while j < |cur|
          invariant i < j <= |cur| == |s|
          invariant Rows(Sweep(cur, i, j), i + 1) == CollidePass(s)
        {
          if !cur[i].dead && !cur[j].dead && !IsInvisible(cur[i]) && !IsInvisible(cur[j]) {
            if Overlap(cur[i], cur[j]) {
              cur := cur[i := Kill(cur[i])];
              cur := cur[j := Kill(cur[j])];
            }
          }
          j := j + 1;
        }
        i := i + 1;
      }
      satellites := cur;
    }

    /**
     * Simulator::move, last loop: a dead satellite's cascade is appended and the
     * satellite erased; the walk reaches the appended children too, which are alive.
     */
    method DestroyDead()
      modifies this
      ensures satellites == DestroyPass(old(satellites), env)
    {
      ghost var s := satellites;
      var cur := satellites;
      var i := 0;
      ghost var k := 0;
      DestroyStart(s, env);
      while i < |cur|
        invariant DestroyAt(s, env, k, cur, i)
        decreases |s| - k, |cur| - i
      {
        if cur[i].dead {
          DestroyErase(s, env, k, cur, i);
          cur := DestroyOne(cur[i], cur, env);
          cur := cur[..i] + cur[i + 1..];
          k := k + 1;
        } else {
          DestroyKeep(s, env, k, cur, i);
          if k < |s| {
            k := k + 1;
          }
          i := i + 1;
        }
      }
      DestroyEnd(s, env, k, cur, i);
      satellites := cur;
    }

    /** Simulator::move: advance, collide, destroy. */
    method Move()
      requires InverseSquare(env)
      modifies this
      ensures satellites == DestroyPass(CollidePass(MoveAll(old(satellites), env)), env)
    {
      Advance();
      Collide();
      DestroyDead();
    }

    /** One frame of callBack: input, then move. */
    method Frame(keys: Keys)
      requires InverseSquare(env)
      modifies this
      ensures satellites == DestroyPass(CollidePass(MoveAll(InputPass(old(satellites), keys, env.m), env)), env)
    {
      Input(keys);
      Move();
    }
  }
}
