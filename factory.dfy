/**
 * The satellite factory (Orbital/Code/Satellite.h enum SatellitesType,
 * Satellite.cpp `factory`): a switch from a type tag to a new satellite.
 * The switch has no case for STARLINK or HUBBLE_CENTER; in C++ control then
 * falls off the end of a non-void function, so the model answers an error.
 */
module Factory {
  import opened Kinematics
  import Satellites
  import ShipModel

  /** SatellitesType, in declaration order. */
  datatype Tag =
    | Ship
    | GpsWhole | GpsLeft | GpsRight | GpsCenter
    | Hubble | HubbleLeft | HubbleRight | HubbleComputer | HubbleCenter
    | Starlink | StarlinkBody | StarlinkArray
    | Sputnik
    | CrewDragonLeft | CrewDragonRight | CrewDragonCenter
    | Fragment

  datatype Result<T> = Ok(value: T) | Unhandled(tag: Tag)

  /** The class each tag names. */
  function KindOf(t: Tag): Satellites.Kind
  {
    match t
    case Ship => Satellites.Ship
    case GpsWhole => Satellites.Gps
    case GpsLeft => Satellites.GpsLeft
    case GpsRight => Satellites.GpsRight
    case GpsCenter => Satellites.GpsCenter
    case Hubble => Satellites.Hubble
    case HubbleLeft => Satellites.HubbleLeft
    case HubbleRight => Satellites.HubbleRight
    case HubbleComputer => Satellites.HubbleComputer
    case HubbleCenter => Satellites.HubbleCenter
    case Starlink => Satellites.Starlink
    case StarlinkBody => Satellites.StarlinkBody
    case StarlinkArray => Satellites.StarlinkArray
    case Sputnik => Satellites.Sputnik
    case CrewDragonLeft => Satellites.DragonLeft
    case CrewDragonRight => Satellites.DragonRight
    case CrewDragonCenter => Satellites.DragonCenter
    case Fragment => Satellites.Fragment
  }

  /** C++ integer division of ints: the quotient truncated toward zero. */
  function Quot(a: int, b: int): (q: int)
    requires 0 < b
    ensures 0 <= a ==> 0 <= q && q * b <= a < q * b + b
    ensures a < 0 ==> q <= 0 && q * b - b < a <= q * b
  {
    if 0 <= a then a / b else -((-a) / b)
  }

  /**
   * factory(tag, parent, angle): a Whole is built by its own constructor (GPS
   * gets the index (int)degrees / 360), everything else as a child of `parent`
   * kicked along `degrees`.
   */
  function Make(t: Tag, parent: Satellites.Satellite, degrees: real, m: Satellites.Maker, u: Satellites.Unseen)
    : (r: Result<Satellites.Satellite>)
    ensures r.Unhandled? <==> t == Starlink || t == HubbleCenter
    ensures r.Unhandled? ==> r.tag == t
    ensures r.Ok? && Satellites.Launches(u) ==> r.value.kind == KindOf(t) && !r.value.dead && !r.value.defunct
    ensures r.Ok? && !Satellites.IsWhole(KindOf(t)) ==>
      r.value == Satellites.Build(parent, Satellites.Spawn(KindOf(t), degrees), 0, m, u)
  {
    match t
    case Starlink => Unhandled(t)
    case HubbleCenter => Unhandled(t)
    case Ship => Ok(ShipModel.NewShip(m))
    case GpsWhole => Ok(u.launch(Satellites.Gps, Quot(Trunc(degrees), 360)))
    case Hubble => Ok(u.launch(Satellites.Hubble, 0))
    case Sputnik => Ok(u.launch(Satellites.Sputnik, 0))
    case _ => Ok(Satellites.Build(parent, Satellites.Spawn(KindOf(t), degrees), 0, m, u))
  }

  /** A GPS built from an angle inside one turn gets index 0. */
  lemma GpsIndexWithinTurn(parent: Satellites.Satellite, degrees: real, m: Satellites.Maker, u: Satellites.Unseen)
    requires 0.0 <= degrees < 360.0
    ensures Make(GpsWhole, parent, degrees, m, u) == Ok(u.launch(Satellites.Gps, 0))
  {
    assert 0 <= Trunc(degrees) < 360;
  }
}
