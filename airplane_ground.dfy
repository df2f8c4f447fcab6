/**
 * The airplane's ground (Airplane/ground.h, ground.cpp): one elevation per
 * whole meter of the world's width, and a landing zone (runway) that starts at
 * `iLZ` and is as wide as the world.
 */
module AirplaneGround {
  import opened Kinematics

  /** The extent [lo, hi] of ground indices hitGround scans; hi < lo means ground[lo] alone. */
  datatype Span = Span(lo: int, hi: int)

  /**
   * hitGround's extent for a lander `landerWidth` wide centred on x: the
   * truncated edges, the left one clamped up to 0 and the right one down to
   * the last index.
   */
  function Reach(x: real, landerWidth: int, last: int): (s: Span)
    ensures s.lo >= 0 && s.hi <= last
    ensures s.lo == (if Trunc(x - landerWidth as real / 2.0) < 0 then 0 else Trunc(x - landerWidth as real / 2.0))
    ensures s.hi == (if Trunc(x + landerWidth as real / 2.0) > last then last else Trunc(x + landerWidth as real / 2.0))
  {
    var xMin := Trunc(x - landerWidth as real / 2.0);
    var xMax := Trunc(x + landerWidth as real / 2.0);
    Span(if xMin < 0 then 0 else xMin, if xMax > last then last else xMax)
  }

  /** The last index scanned: hi, or lo itself when the extent is empty. */
  function Top(s: Span): int
  {
    if s.hi < s.lo then s.lo else s.hi
  }

  /** Ground: the elevation array, the landing zone and the world's size in meters. */
  class Ground {
    const ground: array<real>
    var iLZ: int
    const runwayWidth: int
    const width: real
    const height: real

    /** The array covers the whole width, which is a whole number of meters. */
    ghost predicate Valid()
      reads this
    {
      && 1 <= runwayWidth
      && ground.Length == runwayWidth
      && width == runwayWidth as real
      && 0.0 < height
    }

    /** Every elevation equals a quarter of the world's height. */
    ghost predicate Flat()
      reads this, ground
    {
      forall i :: 0 <= i < ground.Length ==> ground[i] == height / 4.0
    }

    /** Ground(posUpperRight): allocates (int)width elevations, then resets. */
    constructor (width: real, height: real)
      requires 1.0 <= width && width == Trunc(width) as real && 0.0 < height
      ensures Valid() && Flat() && iLZ == 0
      ensures this.width == width && this.height == height
      ensures fresh(ground)
    {
      ground := new real[Trunc(width)];
      runwayWidth := Trunc(width);
      this.width := width;
      this.height := height;
      iLZ := 0;
      new;
      Reset();
    }

    /**
     * reset: the landing zone moves to 0 and the runway covers every index
     * 1..runwayWidth-1, so each elevation copies ground[0] = height / 4 and the
     * slope branch is never taken.
     */
    method Reset()
      requires Valid()
      modifies this, ground
      ensures Valid() && Flat() && iLZ == 0
    {
      iLZ := 0;
      ground[0] := height / 4.0;
      var i := 1;
      while i < runwayWidth
        invariant 1 <= i <= runwayWidth && iLZ == 0
        invariant forall j :: 0 <= j < i ==> ground[j] == height / 4.0
      {
        if i >= iLZ && i < iLZ + runwayWidth {
          ground[i] := ground[i - 1];
        } else {
          assert false;
        }
        i := i + 1;
      }
    }

    /** getElevation: height above the ground below x, or 0 outside [0, width). */
    function GetElevation(pos: Vec): (e: real)
      requires Valid()
      reads this, ground
      ensures !(0.0 <= pos.x < width) ==> e == 0.0
      ensures 0.0 <= pos.x < width ==> 0 <= Trunc(pos.x) < ground.Length && e == pos.y - ground[Trunc(pos.x)]
    {
      if pos.x >= 0.0 && pos.x < width then pos.y - ground[Trunc(pos.x)] else 0.0
    }

    /**
     * The condition hitGround answers: y is below some elevation in the
     * clamped extent, or below ground[lo] alone when the extent is empty. When
     * the lander lies wholly right of the world, lo is past the end of the
     * array and the code reads whatever memory `beyond` holds there.
     */
    ghost predicate Hits(pos: Vec, landerWidth: int, beyond: int -> real)
      requires Valid()
      reads this, ground
    {
      var s := Reach(pos.x, landerWidth, Trunc(width) - 1);
      if s.lo < ground.Length then exists i :: s.lo <= i <= Top(s) && i < ground.Length && pos.y < ground[i]
      else pos.y < beyond(s.lo)
    }

    /** hitGround: the maximum elevation over the extent, compared with y. */
    method HitGround(pos: Vec, landerWidth: int, beyond: int -> real) returns (hit: bool)
      requires Valid()
      ensures hit <==> Hits(pos, landerWidth, beyond)
    {
      var xMin := Trunc(pos.x - landerWidth as real / 2.0);
      var xMax := Trunc(pos.x + landerWidth as real / 2.0);
      xMin := if xMin < 0 then 0 else xMin;
      xMax := if xMax > Trunc(width) - 1 then Trunc(width) - 1 else xMax;
      assert Reach(pos.x, landerWidth, Trunc(width) - 1) == Span(xMin, xMax);
      if xMin >= ground.Length {
        hit := pos.y < beyond(xMin);
        return;
      }
      var maxElevation := ground[xMin];
      var i := xMin + 1;
      while i <= xMax
        invariant xMin + 1 <= i <= Top(Span(xMin, xMax)) + 1
        invariant forall j :: xMin <= j < i && j <= xMax ==> ground[j] <= maxElevation
        invariant ground[xMin] <= maxElevation
        invariant exists j :: xMin <= j < i && 0 <= j < ground.Length && ground[j] == maxElevation
      {
        if ground[i] > maxElevation {
          maxElevation := ground[i];
        }
        i := i + 1;
      }
      hit := pos.y < maxElevation;
      if hit {
        var j :| xMin <= j < i && 0 <= j < ground.Length && ground[j] == maxElevation;
        assert xMin <= j <= Top(Span(xMin, xMax)) && pos.y < ground[j];
      }
    }

    /**
     * onPlatform: not above 1 m nor below 0 m of elevation, and overlapping the
     * landing zone [iLZ, iLZ + runwayWidth] horizontally.
     */
    function OnPlatform(pos: Vec, landerWidth: int): (r: bool)
      requires Valid()
      reads this, ground
      ensures GetElevation(pos) > 1.0 || GetElevation(pos) < 0.0 ==> !r
      ensures pos.x + landerWidth as real / 2.0 < iLZ as real ==> !r
      ensures pos.x - landerWidth as real / 2.0 > (iLZ + runwayWidth) as real ==> !r
    {
      if GetElevation(pos) > 1.0 then false
      else if GetElevation(pos) < 0.0 then false
      else if pos.x + landerWidth as real / 2.0 < iLZ as real then false
      else if pos.x - landerWidth as real / 2.0 > (iLZ + runwayWidth) as real then false
      else true
    }
  }

  /** Over flat ground, the elevation inside the world is the height above height / 4. */
  lemma FlatElevation(g: Ground, pos: Vec)
    requires g.Valid() && g.Flat() && 0.0 <= pos.x < g.width
    ensures g.GetElevation(pos) == pos.y - g.height / 4.0
  {
  }

  /**
   * After reset, a lander on the world overlaps the runway, so it is on the
   * platform exactly when it is between 0 and 1 m above the ground.
   */
  lemma PlatformAfterReset(g: Ground, pos: Vec, landerWidth: int)
    requires g.Valid() && g.Flat() && g.iLZ == 0 && 0 <= landerWidth
    requires 0.0 <= pos.x < g.width
    ensures g.OnPlatform(pos, landerWidth) <==> 0.0 <= pos.y - g.height / 4.0 <= 1.0
  {
  }

  /**
   * Outside [0, width) getElevation answers 0, which passes both elevation
   * tests: a lander just beyond the world's left edge, within half its width
   * of the landing zone, is on the platform at any altitude.
   */
  lemma PlatformBeyondEdge(g: Ground, pos: Vec, landerWidth: int)
    requires g.Valid() && g.iLZ == 0 && 0 <= landerWidth
    requires -(landerWidth as real) / 2.0 <= pos.x < 0.0
    ensures g.OnPlatform(pos, landerWidth)
  {
  }

  /** On flat ground, a lander whose left edge is on the world hits exactly when it is below height / 4. */
  lemma HitsFlat(g: Ground, pos: Vec, landerWidth: int, beyond: int -> real)
    requires g.Valid() && g.Flat()
    requires Trunc(pos.x - landerWidth as real / 2.0) < g.ground.Length
    ensures g.Hits(pos, landerWidth, beyond) <==> pos.y < g.height / 4.0
  {
    var s := Reach(pos.x, landerWidth, Trunc(g.width) - 1);
    if pos.y < g.height / 4.0 {
      assert s.lo <= Top(s) && s.lo < g.ground.Length && pos.y < g.ground[s.lo];
    }
  }
}
