/**
 * The SpaceX Crew Dragon (Orbital/Code/CrewDragon.h): a Whole that breaks into
 * a center, a left and a right part plus two fragments; each part breaks into
 * fragments in turn.
 */
module CrewDragon {
  import opened Kinematics
  import opened Satellites

  /** Dragon(): a Whole with chance-defunct 4000, 8000 km up the y axis, moving at 7900 m/s westward. */
  function NewDragon(m: Maker): (s: Satellite)
    ensures s.kind == Dragon && IsFresh(s) && s.chanceDefunct == 4000
    ensures s.pos == Vec(0.0, 8000000.0) && s.vel == Vec(-7900.0, 0.0)
    ensures s.spin == 0.0 && s.radius == 7.0 * m.zoom
  {
    NewWhole(Dragon, 4000).(pos := Vec(0.0, 8000000.0), vel := Vec(-7900.0, 0.0), radius := 7.0 * m.zoom)
  }

  /** Dragon::destroy: the center part at 90, left at 0, right at 180, fragments at 330 and 250. */
  function DragonPlan(): seq<Spawn>
  {
    [Spawn(DragonCenter, 90.0), Spawn(DragonLeft, 0.0), Spawn(DragonRight, 180.0),
     Spawn(Fragment, 330.0), Spawn(Fragment, 250.0)]
  }

  /** DragonLeft::destroy: fragments at 0 and 180. */
  function LeftPlan(): seq<Spawn> { [Spawn(Fragment, 0.0), Spawn(Fragment, 180.0)] }

  /** DragonRight::destroy: fragments at 90 and 270. */
  function RightPlan(): seq<Spawn> { [Spawn(Fragment, 90.0), Spawn(Fragment, 270.0)] }

  /**
   * The three parts of a Dragon are built 6 pixels wide, and every part's
   * cascade ends in fragments only, so breaking up a Dragon completely gives
   * 2 + 2 + 5 fragments from its parts beside the 2 it sheds directly.
   */
  lemma PartsBreakIntoFragments(parent: Satellite, m: Maker, u: Unseen)
    ensures forall i :: 0 <= i < 3 ==> Build(parent, DragonPlan()[i], i, m, u).radius == 6.0 * m.zoom
    ensures forall sp :: sp in LeftPlan() + RightPlan() + Ring() ==> sp.kind == Fragment
    ensures |LeftPlan()| + |RightPlan()| + |Ring()| + 2 == 11
  {
    assert Ring()[0].kind == Fragment && Ring()[4].kind == Fragment;
  }

  /** The Dragon's cascade, child by child. */
  lemma DragonChildren(x: Satellite, m: Maker, u: Unseen)
    ensures Children(x, DragonPlan(), m, u) ==
      [PartOf(x, DragonCenter, 90.0, 6.0, m, m.draw(x, 0)), PartOf(x, DragonLeft, 0.0, 6.0, m, m.draw(x, 1)),
       PartOf(x, DragonRight, 180.0, 6.0, m, m.draw(x, 2)), FragmentOf(x, 330.0, m, m.draw(x, 3)),
       FragmentOf(x, 250.0, m, m.draw(x, 4))]
  {
    var cs, plan := Children(x, DragonPlan(), m, u), DragonPlan();
    assert cs[0] == Build(x, plan[0], 0, m, u);
    assert cs[1] == Build(x, plan[1], 1, m, u);
    assert cs[2] == Build(x, plan[2], 2, m, u);
    assert cs[3] == Build(x, plan[3], 3, m, u);
    assert cs[4] == Build(x, plan[4], 4, m, u);
  }

  /** Dragon::destroy: five push_backs in plan order. */
  method DestroyDragon(x: Satellite, list: seq<Satellite>, m: Maker, u: Unseen) returns (r: seq<Satellite>)
    ensures r == list + Children(x, DragonPlan(), m, u)
  {
    DragonChildren(x, m, u);
    r := list;
    r := r + [PartOf(x, DragonCenter, 90.0, 6.0, m, m.draw(x, 0))];
    r := r + [PartOf(x, DragonLeft, 0.0, 6.0, m, m.draw(x, 1))];
    r := r + [PartOf(x, DragonRight, 180.0, 6.0, m, m.draw(x, 2))];
    r := r + [FragmentOf(x, 330.0, m, m.draw(x, 3))];
    r := r + [FragmentOf(x, 250.0, m, m.draw(x, 4))];
  }

  /** DragonLeft::destroy. */
  method DestroyLeft(x: Satellite, list: seq<Satellite>, m: Maker, u: Unseen) returns (r: seq<Satellite>)
    ensures r == list + Children(x, LeftPlan(), m, u)
  {
    r := list + [FragmentOf(x, 0.0, m, m.draw(x, 0))];
    r := r + [FragmentOf(x, 180.0, m, m.draw(x, 1))];
  }

  /** DragonRight::destroy. */
  method DestroyRight(x: Satellite, list: seq<Satellite>, m: Maker, u: Unseen) returns (r: seq<Satellite>)
    ensures r == list + Children(x, RightPlan(), m, u)
  {
    r := list + [FragmentOf(x, 90.0, m, m.draw(x, 0))];
    r := r + [FragmentOf(x, 270.0, m, m.draw(x, 1))];
  }
}
