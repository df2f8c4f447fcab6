# Flight simulators: a verified model

This project models the cores of four small C++ simulators that share one
physics kit:

- **Orbital**: a registry of satellites (a steerable ship, GPS, Hubble,
  Sputnik, Starlink, a Crew Dragon, and their parts, fragments and
  projectiles) that all orbit the Earth. Each frame has four passes over the
  list. The input pass lets ships steer and fire. The move pass applies
  gravity for 48 simulated seconds. The collision pass kills overlapping
  pairs. Last, the destruction pass erases dead satellites and appends the
  debris their `destroy` cascades create.
- **Airplane**: a plane that pitches, thrusts, burns fuel and feels lift and
  drag. It flies over a ground array with a runway, and a pause menu (P, R,
  Escape) controls the game.
- **Lunar lander**: a lander that rotates and thrusts under lunar gravity. It
  crashes or lands using the same rule as the airplane, and space resets it.
- **Artillery**: a shell whose flight path keeps its last ten
  (position, velocity, time) states, with drag and gravity. The game loop
  fires the shell, advances it, and regenerates the scene on a hit.

Doubles are reals, so every identity holds exactly. Square roots are never
computed. Where a contract depends on a distance or speed being a true
length, it is passed in together with the fact that its square is the
squared length (`Physics.IsDistance`). Elsewhere a speed is a plain input:
the lunar lander's speed in gameplay and the speed the artillery's
atmosphere tables are read at. Sine and cosine are
passed in as `Unit(sin, cos)` values or functions. Random draws are
parameters: those whose value matters are bounded by the ranges the code
uses, and the orbital defunct roll is any integer, since only whether it is
0 matters. Objects the code updates in
place are Dafny classes:

- Position, Velocity and Acceleration;
- the airplane, the lander and the artillery shell;
- the airplane ground;
- the three simulators.

Each orbital satellite is a distinct object that only its own methods change,
so satellites are values in the registry's `seq`.

Modules:

- `Kinematics`: vectors, the constant-acceleration formulas, and the mutable
  Position, Velocity and Acceleration.
- `Physics`: altitude, inverse-square gravity, and the in-place updates.
- `Satellites`, `ShipModel`, `CrewDragon`, `Factory` and `Orbital`: the
  orbital simulator.
- `Landing`: the status and the crash/land rule shared by the airplane and
  the lander.
- `AirplaneGround`, `Plane` and `AirplaneSimulation`: the airplane game.
- `Lunar`: the lander and its game.
- `Artillery` and `ArtillerySimulation`: the shell and its game.

Where the code and its documented design differ, the model follows the code:

- Ship and DragonCenter drop five fragments, not four. The loop runs from
  0 to 360 degrees inclusive.
- The artillery frame that fires advances the shell twice. The path then
  holds three states, at 0.5, 1.5 and 2.5 seconds.
- The lunar lander thrusts along the attitude it had before the frame's
  rotation, and it takes input even after landing or crashing. The airplane
  pitches first and then thrusts along its new attitude.
- The overrides of `getDefunct` in Fragment, Part, Projectile and Whole are
  `const`, so they do not override the base class's virtual. Through a
  `Satellite*` pointer, `getDefunct` always answers false.

## Model

| member | source | states |
|---|---|---|
| Kinematics.AlongLength | Orbital/Code/Satellite.cpp:22-49 | a vector built from a true sine and cosine and a magnitude k has squared length k² |
| Kinematics.Trunc | Airplane/airplane.h:61 | the C++ int cast truncates toward zero: the result is within one of x, and on x's side of zero |
| Kinematics.StillWithoutTimeOrMotion | Lunar/Code/Position.cpp:20-24 | with zero time, or with zero velocity and acceleration, position and velocity do not change |
| Kinematics.AxesIndependent | Lunar/Code/Position.cpp:20-24 | each axis of the position update depends only on that axis's components |
| Kinematics.StepsCompose | Lunar/Code/Position.cpp:20-24 | two constant-acceleration steps of t1 and t2 equal one step of t1 + t2 |
| Kinematics.Position.constructor | Lunar/Code/Position.cpp:20-24 | the new position holds the given coordinates |
| Kinematics.Position.Add | Lunar/Code/Position.cpp:20-24 | the position becomes s + v·t + ½·a·t² |
| Kinematics.Velocity.Add | Lunar/Code/Lander.cpp:102-106 | the velocity becomes v + a·t |
| Kinematics.Velocity.AddDX | Airplane/physics.cpp:50 | dx grows by the amount and dy is unchanged |
| Kinematics.Velocity.AddDY | Airplane/physics.cpp:51 | dy grows by the amount and dx is unchanged |
| Kinematics.Acceleration.constructor | Airplane/acceleration.h:33 | both components start at zero |
| Kinematics.Acceleration.Of | Airplane/acceleration.h:34 | both components take the given values |
| Kinematics.Acceleration.GetDDX | Airplane/acceleration.h:41 | answers the horizontal component |
| Kinematics.Acceleration.GetDDY | Airplane/acceleration.h:42 | answers the vertical component |
| Kinematics.Acceleration.SetDDX | Airplane/acceleration.h:45 | ddx takes the value and ddy is unchanged |
| Kinematics.Acceleration.SetDDY | Airplane/acceleration.h:46 | ddy takes the value and ddx is unchanged |
| Kinematics.Acceleration.AddDDX | Airplane/acceleration.h:48 | ddx grows by the value and ddy is unchanged |
| Kinematics.Acceleration.AddDDY | Airplane/acceleration.h:49 | ddy grows by the value and ddx is unchanged |
| Physics.Altitude | Airplane/physics.cpp:18-22 | altitude plus the Earth's radius is the distance from the center; it is never below -R, and it is 0 exactly on the surface |
| Physics.SquareMonotone | Airplane/physics.cpp:18-22 | between non-negative reals, squaring keeps strict order (used for the altitude's sign) |
| Physics.GravityMagnitude | Airplane/physics.cpp:37-39 | gravity is positive, and g·(R+h)² = g0·R² (the inverse-square law) |
| Physics.GravityFalloff | Airplane/physics.cpp:37-39 | gravity strictly weakens as the altitude grows |
| Physics.GravityAt | Airplane/physics.cpp:28-42 | the gravity vector has magnitude g(altitude) and points straight at the Earth's center |
| Physics.TowardOrigin | Airplane/physics.cpp:34-35 | scaling -p by g/\|p\| gives length g and points against p |
| Physics.UpdateVelocity | Airplane/physics.cpp:48-53 | v becomes v + a·t in place, and the same object is returned |
| Physics.UpdatePosition | Airplane/physics.cpp:59-64 | s becomes s + v·t + ½·a·t² in place, and the same object is returned |
| Satellites.Kill | Orbital/Code/Satellite.h:93 | the result is dead exactly when the satellite was already dead or is visible; nothing else changes |
| Satellites.KillLaws | Orbital/Code/Satellite.h:78-93 | kill never revives, leaves an invisible satellite untouched, kills a visible one, and is idempotent |
| Satellites.Default | Orbital/Code/Satellite.h:50-56 | the default satellite is alive, at rest at the origin, with the given age, radius and spin, and has randomness on |
| Satellites.NewWhole | Orbital/Code/Satellite.h:180 | a Whole starts fresh (alive, age 0, not defunct) with its chance-defunct |
| Satellites.KickSpeed | Orbital/Code/Satellite.cpp:35-40 | the kick speed is the draw (1000..3000) with randomness on, and exactly 3000 with it off |
| Satellites.Kicked | Orbital/Code/Satellite.cpp:22-49 | the child moves at the parent's velocity plus the kick along the heading, sits 4 pixels out along it, keeps the parent's angle and spin, and is fresh |
| Satellites.KickMagnitude | Orbital/Code/Satellite.cpp:22-49 | the child's velocity differs from the parent's by exactly the kick speed |
| Satellites.FragmentOf | Orbital/Code/Satellite.h:155-159 | a fragment is a kicked child with the drawn age and a radius of 2 pixels |
| Satellites.PartOf | Orbital/Code/Satellite.h:200-207 | a part is a fresh kicked child whose radius is its pixel size times the zoom |
| Satellites.Launched | Orbital/Code/Satellite.cpp:55-74 | the child's velocity is the parent's plus the kick, and its position is the parent's plus the offset |
| Satellites.Build | Orbital/Code/Satellite.cpp:149-188 | the i-th cascade child has the planned kind, is alive, and is kicked by the i-th draw |
| Satellites.Children | Orbital/Code/CrewDragon.h:99-106 | a cascade appends one live child per planned spawn, in plan order |
| Satellites.Ring | Orbital/Code/Ship.cpp:71-75 | the fragment ring has five headings, 0 to 360 in steps of 90 |
| Satellites.Scatter | Orbital/Code/Ship.cpp:71-75 | the loop appends exactly the five ring fragments to the list |
| Satellites.Drifted | Orbital/Code/Satellite.cpp:80-92 | a move ages the satellite by one and turns it by its spin; only position, velocity, angle and age change |
| Satellites.DriftedNet | Orbital/Code/Satellite.cpp:80-92 | over one move the velocity changes by g·t and the position by v·t + g·t² |
| Satellites.Move | Orbital/Code/Satellite.cpp:113-144 | fragments and projectiles die past age 100; a Whole goes defunct and spins at -0.08 when its roll is 0; parts only drift |
| Satellites.GetDefunct | Orbital/Code/Satellite.h:99 | through the base pointer the answer is always false; on its own class a Whole answers its flag and the rest answer true |
| ShipModel.NewShip | Orbital/Code/Ship.cpp:16-28 | the ship starts fresh at pixel (-450, 450), falling at 2000 m/s, 6 pixels wide, with chance-defunct 4000 |
| ShipModel.SteerLaws | Orbital/Code/Ship.cpp:34-65 | steering changes only angle, velocity and thrust; left and right cancel; down adds exactly 30 m/s along the new heading |
| ShipModel.BulletLaws | Orbital/Code/Satellite.cpp:98-107 | the shot starts on the ship, fresh and invisible, at 9000 m/s along the heading plus twice the ship's velocity |
| ShipModel.FireCount | Orbital/Code/Ship.cpp:50-64 | exactly one projectile is fired when space is pressed, and none otherwise |
| ShipModel.Input | Orbital/Code/Ship.cpp:34-65 | the ship is steered, and the list only gains the shot fired from the steered ship |
| CrewDragon.NewDragon | Orbital/Code/CrewDragon.h:87-93 | the Dragon starts fresh 8000 km from the Earth's center (about 1622 km up), moving at 7900 m/s westward, with chance-defunct 4000 |
| CrewDragon.PartsBreakIntoFragments | Orbital/Code/CrewDragon.h:20-77 | the three Dragon parts are 6 pixels wide, and every part cascade yields only fragments |
| CrewDragon.DragonChildren | Orbital/Code/CrewDragon.h:99-106 | the Dragon's cascade is, child by child, the center part at 90, the left part at 0, the right part at 180 (all 6 pixels wide), then fragments at 330 and 250 |
| CrewDragon.DestroyDragon | Orbital/Code/CrewDragon.h:99-106 | appends center, left, right and two fragments, in that order |
| CrewDragon.DestroyLeft | Orbital/Code/CrewDragon.h:29-33 | appends fragments at 0 and 180 degrees |
| CrewDragon.DestroyRight | Orbital/Code/CrewDragon.h:73-77 | appends fragments at 90 and 270 degrees |
| Factory.Quot | Orbital/Code/Satellite.cpp:158 | C++ int division truncates toward zero |
| Factory.Make | Orbital/Code/Satellite.cpp:149-188 | every tag except STARLINK and HUBBLE_CENTER builds a live, non-defunct satellite of its class; child tags build the kicked child |
| Factory.GpsIndexWithinTurn | Orbital/Code/Satellite.cpp:157-158 | a GPS built from an angle within one turn gets index 0 |
| Orbital.FleetLayout | Orbital/Code/Simulator.cpp:33-46 | the registry starts with 11 satellites in constructor order (ship, GPS 0..5, Sputnik, Hubble, Dragon, Starlink), all fresh and invisible |
| Orbital.SteerAll | Orbital/Code/Simulator.cpp:66-72 | steering keeps the list's length |
| Orbital.Shots | Orbital/Code/Simulator.cpp:66-72 | the input pass appends only fresh, invisible projectiles, at most one per satellite |
| Orbital.InputAppendsOnly | Orbital/Code/Simulator.cpp:66-72 | after input, non-ships are unchanged and ships are steered in place; one projectile per ship is appended, and only when space is pressed |
| Orbital.ShotsCount | Orbital/Code/Simulator.cpp:66-72 | the number of shots is the number of ships when space is pressed, else 0 |
| Orbital.InputStep | Orbital/Code/Simulator.cpp:68-71 | the list iteration that also visits appended items does the same as steering the originals and appending their shots |
| Orbital.WalkDone | Orbital/Code/Simulator.cpp:68-71 | appended projectiles ignore input; the list at most doubles |
| Orbital.MoveAll | Orbital/Code/Simulator.cpp:92-93 | the move pass keeps the list's length |
| Orbital.MoveLaws | Orbital/Code/Simulator.cpp:80-93 | every satellite ages one frame and keeps kind and radius; dead and defunct stay set; velocity changes by g·48 s |
| Orbital.MovePullsInward | Orbital/Code/Satellite.cpp:84-89 | with getGravity the inverse-square law, a frame changes each satellite's velocity by 48·g(altitude), pointing straight at the Earth's center |
| Orbital.OverlapMeansCloser | Orbital/Code/Simulator.cpp:105-109 | the squared comparison is the code's distance < r1 + r2 for the true distance |
| Orbital.OverlapSymmetric | Orbital/Code/Simulator.cpp:105-109 | overlap does not depend on the order of the pair |
| Orbital.TestPair | Orbital/Code/Simulator.cpp:100-113 | one pair test keeps the list's length |
| Orbital.Sweep | Orbital/Code/Simulator.cpp:97-114 | the inner loop keeps the list's length |
| Orbital.Rows | Orbital/Code/Simulator.cpp:96-114 | the outer loop keeps the list's length |
| Orbital.TestPairStep | Orbital/Code/Simulator.cpp:100-113 | one pair test only kills, kills only overlapping eligible satellites, and settles the pair |
| Orbital.SweepLaws | Orbital/Code/Simulator.cpp:97-114 | the inner loop only kills, with reason, and settles every pair of its row |
| Orbital.RowsLaws | Orbital/Code/Simulator.cpp:96-114 | the outer loop only kills, with reason, and leaves no two eligible satellites overlapping |
| Orbital.CollideLaws | Orbital/Code/Simulator.cpp:96-114 | collision only sets dead flags, never on an invisible satellite; each kill had an overlapping eligible partner that also died; afterwards no eligible pair overlaps |
| Orbital.OrderMatters | Orbital/Code/Simulator.cpp:96-114 | with three satellites in a row, the pair tested first dies and the third survives, so list order decides the outcome |
| Orbital.PlanSizes | Orbital/Code/CrewDragon.h:29-106 | Ship, Dragon and DragonCenter cascades have 5 entries and DragonLeft/Right have 2; fragments and projectiles leave nothing |
| Orbital.Kids | Orbital/Code/Simulator.cpp:120 | destroy appends one live child per planned spawn |
| Orbital.Survivors | Orbital/Code/Simulator.cpp:117-124 | the satellites kept by the erase loop include no dead one |
| Orbital.Debris | Orbital/Code/Simulator.cpp:117-124 | the children appended by the cascades of the dead include no dead one |
| Orbital.SurvivorsConcat | Orbital/Code/Simulator.cpp:117-124 | erasing dead satellites keeps the order of the rest |
| Orbital.SurvivorsMembers | Orbital/Code/Simulator.cpp:117-124 | the survivors are exactly the satellites that were alive |
| Orbital.SurvivorsShorter | Orbital/Code/Simulator.cpp:117-124 | erasing never lengthens the list |
| Orbital.SurvivorsAllAlive | Orbital/Code/Simulator.cpp:117-124 | a list with no dead satellites is left unchanged |
| Orbital.DestroyLaws | Orbital/Code/Simulator.cpp:117-124 | after destruction nothing is dead; survivors come first, in order; each child of a dead satellite is present |
| Orbital.DestroyStep | Orbital/Code/Simulator.cpp:117-124 | one step of the erase loop matches the specification |
| Orbital.DebrisAlive | Orbital/Code/Simulator.cpp:117-124 | the erase loop, which also visits appended children, ends with the destruction pass's list |
| Orbital.DestroyOne | Orbital/Code/Simulator.cpp:120 | destroy appends the satellite's cascade to the list |
| Orbital.Simulator.constructor | Orbital/Code/Simulator.cpp:17-48 | the registry starts as the fleet; gravity is the inverse-square pull |
| Orbital.Simulator.Input | Orbital/Code/Simulator.cpp:66-72 | the list becomes the input pass of the old list |
| Orbital.Simulator.Advance | Orbital/Code/Simulator.cpp:91-93 | the list becomes the move pass of the old list |
| Orbital.Simulator.Collide | Orbital/Code/Simulator.cpp:95-114 | the list becomes the collision pass of the old list |
| Orbital.Simulator.DestroyDead | Orbital/Code/Simulator.cpp:116-124 | the list becomes the destruction pass of the old list |
| Orbital.Simulator.Move | Orbital/Code/Simulator.cpp:78-125 | one move is advance, then collide, then destroy |
| Orbital.Simulator.Frame | Orbital/Code/Simulator.cpp:151-164 | one frame is input, then move |
| Landing.Drain | Airplane/airplane.cpp:84-86 | the tank after paying is never negative, never grows, and is clamped at empty when the cost exceeds it |
| Landing.VerdictLaws | Airplane/simulator.cpp:164-181 | a hit always crashes; the result is SAFE only for a landing under the maximum speed (or when it already was SAFE); at exactly the maximum speed the plane crashes; otherwise the status stays |
| AirplaneGround.Reach | Airplane/ground.cpp:85-90 | the scanned extent is the truncated edges, clamped to 0 and to the last index |
| AirplaneGround.Ground.constructor | Airplane/ground.cpp:24-34 | the ground covers the whole width, is flat, and the landing zone is at 0 |
| AirplaneGround.Ground.Reset | Airplane/ground.cpp:40-76 | after reset every elevation is a quarter of the height and the landing zone starts at 0 |
| AirplaneGround.Ground.GetElevation | Airplane/ground.h:33-39 | the height above the ground at x inside the world, and 0 outside it |
| AirplaneGround.Ground.HitGround | Airplane/ground.cpp:82-100 | hit holds exactly when y is below some elevation in the clamped extent (below the memory read past the end when the extent lies right of the world) |
| AirplaneGround.Ground.OnPlatform | Airplane/ground.cpp:106-125 | off the platform when more than 1 m above or below the ground, or wholly left or right of the landing zone |
| AirplaneGround.FlatElevation | Airplane/ground.h:33-39 | over flat ground the elevation is y - height/4 |
| AirplaneGround.PlatformAfterReset | Airplane/ground.cpp:106-125 | after reset, a plane inside the world is on the platform exactly when it is 0 to 1 m above the ground |
| AirplaneGround.PlatformBeyondEdge | Airplane/ground.cpp:106-125 | just left of the world, a plane counts as on the platform at any altitude, because getElevation answers 0 there |
| AirplaneGround.HitsFlat | Airplane/ground.cpp:82-100 | over flat ground, a plane whose left edge is on the world hits exactly when it is below height/4 |
| Plane.Cost | Airplane/airplane.cpp:62-82 | one frame costs 0 to 12 fuel, and nothing exactly when no thruster is on |
| Plane.PushStrength | Airplane/airplane.cpp:76-81 | the main engine pushes with magnitude thrust/weight |
| Plane.LiftPerpendicular | Airplane/airplane.cpp:104-133 | lift is perpendicular to the motion |
| Plane.LiftStrength | Airplane/airplane.cpp:104-133 | lift has its full magnitude |
| Plane.DragOpposes | Airplane/airplane.cpp:104-133 | drag points straight against the motion, with its full magnitude |
| Plane.FuelNeverGrows | Airplane/airplane.cpp:62-86 | input never refills the tank or empties it below 0, and it costs fuel exactly when some thruster is on |
| Plane.Airplane.constructor | Airplane/airplane.h:50 | a new plane is PLAYING, full, upright, at the right edge with a random drift |
| Plane.Airplane.Reset | Airplane/airplane.cpp:17-35 | reset makes the plane PLAYING, full and upright, with velocity in [-40,-35]×[-1,1] and height in [0.35, 0.5] of the world |
| Plane.Airplane.IsFlying | Airplane/airplane.h:56-58 | flying holds exactly when the plane is neither dead nor landed |
| Plane.Airplane.GetFuel | Airplane/airplane.h:61 | the fuel, truncated to an int |
| Plane.Airplane.GetWidth | Airplane/airplane.h:62 | the width is 27 (27.61 truncated) |
| Plane.Airplane.Land | Airplane/airplane.h:80-84 | landing makes the plane SAFE and upright, and keeps its fuel |
| Plane.Airplane.Crash | Airplane/airplane.h:87-91 | crashing makes the plane DEAD and upside down, and keeps its fuel |
| Plane.Airplane.Input | Airplane/airplane.cpp:51-88 | the acceleration is gravity plus a push along the post-pitch attitude when flying with fuel; pitch and fuel change only then, fuel clamped at 0 |
| Plane.Airplane.Coast | Airplane/airplane.cpp:94-98 | the position moves with the old velocity, then the velocity is kicked |
| Plane.Airplane.ApplyAerodynamics | Airplane/airplane.cpp:104-133 | zero unless flying at non-zero speed; otherwise lift plus drag |
| AirplaneSimulation.Toggled | Airplane/simulator.cpp:183-184 | P flips the game state, and without P it stays |
| AirplaneSimulation.MenuLaws | Airplane/simulator.cpp:183-201 | P twice restores the state; with neither P nor R the state stays; R while paused resumes |
| AirplaneSimulation.JudgedAngle | Airplane/airplane.h:80-91 | after the crash/land rule the plane is upside down when it crashed, upright when it landed, and otherwise keeps its attitude |
| AirplaneSimulation.Simulator.constructor | Airplane/simulator.cpp:38-50 | flat ground, a full flying plane, and a running game |
| AirplaneSimulation.Simulator.Update | Airplane/simulator.cpp:136-154 | a flying plane coasts under input plus aerodynamic acceleration; one that is not flying stays put; pitch and fuel change (fuel drained and clamped) exactly when flying with fuel; the status is kept |
| AirplaneSimulation.Simulator.Judge | Airplane/simulator.cpp:163-181 | the plane crashes when it hits the ground, and on the runway lands below the safe speed and crashes otherwise; the attitude follows the verdict; fuel is kept |
| AirplaneSimulation.Simulator.Gameplay | Airplane/simulator.cpp:161-204 | the crash/land rule on the ground's answers, then the menu; without a reset the ground, landing zone, fuel, position and velocity are kept; R while paused resets plane and ground; quit holds exactly for Escape while paused |
| AirplaneSimulation.Simulator.Frame | Airplane/simulator.cpp:210-224 | without a reset: the plane moves and burns fuel only if the game was running and it was flying, then the crash/land rule judges the moved plane; status, attitude, fuel, position and velocity are all stated, and the ground is kept; R while paused resets plane and ground |
| Lunar.FuelNeverGrows | Lunar/Code/Lander.cpp:70-94 | input never refills the tank or empties it below 0, and an empty tank stays empty |
| Lunar.Burned | Lunar/Code/Lander.cpp:67-93 | the tank after a frame of input is never negative, an exactly empty tank stays empty, and otherwise the frame's cost is paid when affordable |
| Lunar.Turned | Lunar/Code/Lander.cpp:67-93 | the attitude does not turn with an exactly empty tank or when both or neither rotation is asked |
| Lunar.Lander.constructor | Lunar/Code/Lander.cpp:17-35 | a new lander is PLAYING, full, upright, at the right edge with a random drift |
| Lunar.Lander.Reset | Lunar/Code/Lander.cpp:17-35 | reset makes the lander PLAYING, full and upright, with velocity in [-10,-4]×[-2,2] and height in [0.75, 0.95] of the world |
| Lunar.Lander.Land | Lunar/Code/simulator.cpp:144-146 | landing makes the lander SAFE and keeps its fuel and attitude |
| Lunar.Lander.Crash | Lunar/Code/simulator.cpp:135-138 | crashing makes the lander DEAD and keeps its fuel and attitude |
| Lunar.Lander.Input | Lunar/Code/Lander.cpp:58-96 | gravity plus thrust along the pre-rotation attitude unless the tank is exactly empty; the turn and the fuel paid follow, fuel clamped at 0; the status is ignored |
| Lunar.Lander.Coast | Lunar/Code/Lander.cpp:102-106 | the position moves with the old velocity, then the velocity is kicked |
| Lunar.Simulator.constructor | Lunar/Code/simulator.cpp:32-42 | a full flying lander |
| Lunar.Simulator.Update | Lunar/Code/simulator.cpp:112-125 | input every frame: fuel and attitude follow Burned and Turned whatever the status; the lander coasts only while flying |
| Lunar.Simulator.Gameplay | Lunar/Code/simulator.cpp:132-165 | the crash/land rule, keeping fuel, attitude, position and velocity; space resets the lander upright and full at (399, y) and regenerates the scene |
| Lunar.Simulator.Frame | Lunar/Code/simulator.cpp:171-185 | with space, a reset lander; without it, the rule's verdict, fuel and attitude after input, and the position and velocity after coasting when it was flying |
| Artillery.Next | Artillery/Code/Projectile.cpp:68-84 | the next state is dt later |
| Artillery.DragAtRest | Artillery/Code/Projectile.cpp:62-65 | a shell at rest feels only gravity |
| Artillery.DragOpposesMotion | Artillery/Code/Projectile.cpp:62-84 | with the true speed, drag points straight against the motion |
| Artillery.AdvanceLaws | Artillery/Code/Projectile.cpp:35-95 | advance appends one state dt later; the length becomes min(n+1, 10); states leave only from the front, unchanged |
| Artillery.PacedKept | Artillery/Code/Projectile.cpp:68-94 | advancing by dt keeps consecutive states dt apart |
| Artillery.PacedSpan | Artillery/Code/Projectile.h:52-55 | in a path whose states are dt apart, the last is (n-1)·dt after the first |
| Artillery.FlightTimeWindow | Artillery/Code/Projectile.h:52-55 | once ten states are kept, the flight time is stuck at 9·dt |
| Artillery.Projectile.constructor | Artillery/Code/Projectile.h:36 | default mass and radius; not flying |
| Artillery.Projectile.Reset | Artillery/Code/Projectile.h:39-44 | reset empties the path and restores the default mass and radius |
| Artillery.Projectile.SetMass | Artillery/Code/Projectile.h:65 | the mass takes the value and nothing else changes |
| Artillery.Projectile.SetRadius | Artillery/Code/Projectile.h:66 | the radius takes the value and nothing else changes |
| Artillery.Projectile.Altitude | Artillery/Code/Projectile.h:50 | the current height while flying, and 0 otherwise |
| Artillery.Projectile.GetPosition | Artillery/Code/Projectile.h:51 | the last position while flying, and the origin otherwise |
| Artillery.Projectile.FlightTime | Artillery/Code/Projectile.h:52-55 | the current time minus the first kept time, and 0 with fewer than two states |
| Artillery.Projectile.FlightDistance | Artillery/Code/Projectile.h:56-60 | the non-negative horizontal gap between the first and last kept states, and 0 with fewer than two |
| Artillery.Projectile.Speed | Artillery/Code/Projectile.h:61 | the speed of the last state while flying, and 0 otherwise |
| Artillery.Projectile.CurrentTime | Artillery/Code/Projectile.h:62 | the time of the last state while flying, and 0 otherwise |
| Artillery.Projectile.Fire | Artillery/Code/Projectile.cpp:19-29 | the path becomes one state at the howitzer, moving at the muzzle velocity along the elevation, with default mass and radius |
| Artillery.Projectile.Advance | Artillery/Code/Projectile.cpp:35-95 | the path becomes the advanced path, and mass and radius are kept |
| Artillery.Projectile.TrimFront | Artillery/Code/Projectile.cpp:91-94 | states leave from the front until at most ten remain, the newest kept in order; mass and radius are kept |
| ArtillerySimulation.ControlsLaws | Artillery/Code/Simulation.cpp:58-89 | update never regenerates; right and left rotate by ±0.1 and down lowers by 0.01; up raises by 0.01 exactly when the elevation is not 0 |
| ArtillerySimulation.HitInPixels | Artillery/Code/Simulation.cpp:106-114 | the hit test in meters is the code's test in pixels |
| ArtillerySimulation.PixelBounds | Artillery/Code/Simulation.cpp:106-114 | one axis of the pixel test |
| ArtillerySimulation.IdleFrame | Artillery/Code/Simulation.cpp:95-124 | without space, a resting shell stays at rest and nothing changes |
| ArtillerySimulation.NoFireWhileFlying | Artillery/Code/Simulation.cpp:97-102 | while a shell flies, space is ignored |
| ArtillerySimulation.FireFrame | Artillery/Code/Simulation.cpp:97-124 | the firing frame leaves three states at 0.5, 1.5 and 2.5 s (or none, on a hit or ground contact) |
| ArtillerySimulation.FlightOutcome | Artillery/Code/Simulation.cpp:104-123 | a hit regenerates the scene and ends the flight; a miss above ground advances by 1 s; a miss at or below ground resets |
| ArtillerySimulation.Simulator.constructor | Artillery/Code/Simulation.h:26-32 | the howitzer is placed and the ground reset once; the shell is at rest with defaults; the meters-per-pixel scale is positive |
| ArtillerySimulation.Simulator.Update | Artillery/Code/Simulation.cpp:58-89 | the orders gain exactly this frame's controls |
| ArtillerySimulation.Simulator.Gameplay | Artillery/Code/Simulation.cpp:95-124 | the path and the orders become those of the played frame; default mass and radius are kept |

## Left out

- Drawing, stars, clouds, the Earth's rotation, text output, and the window
  and event loop (`main`, `WinMain`) are not modelled.
- The GPS, Hubble, Sputnik and Starlink classes and their parts are not part
  of this model. Their launch, part radius and destroy cascade are parameters
  (`Satellites.Unseen`). They are taken not to override `input` or `move`,
  and to be Wholes or Parts as their names say.
- The Howitzer, the artillery Ground and the drag, Mach and density tables
  are not part of this model. What the game reads from them is a function of
  the order history (`ArtillerySimulation.World`) and of the atmosphere
  (`Artillery.Air`).
- lander.h and the lunar ground are not part of this model. The lander's
  constants are a parameter (`Lunar.Specs`), and the ground's answers (hit,
  on platform) are inputs to gameplay.
- Angle, Velocity::getSpeed, thrust.h and the Interface class are not part of
  this model. Sine and cosine, speeds, thruster states and key states are
  parameters.
- `random` is not modelled. Each draw is a parameter. The reset draws of
  the airplane and the lander, and the kick speed and fragment age of a
  child, are bounded by the code's ranges. A child's draws come from a
  function of the parent and the child's index. The defunct roll of a Whole,
  random(0, chanceDefunct), is any integer (`Orbital.Env.roll`): only
  whether it is 0 matters, so its range is not modelled.
- Angle normalisation and IEEE rounding are not modelled. Reals are exact.
- The debug-build `useRandom` switch is a field that nothing sets to false.
- Orbital gravity is a parameter (`Orbital.Env`). `Orbital.InverseSquare`
  ties it to `Physics.GravityAt` away from the Earth's center; at the center,
  where getGravity divides by zero, it is unconstrained. `Orbital.MoveAll`
  and `Orbital.MoveLaws` hold for any gravity field; `Orbital.MovePullsInward`
  and the `Orbital.Simulator` methods assume the inverse-square law.
- Ship::move with three arguments (Ship.cpp:81-107) is not modelled. The
  registry calls the one-argument Whole version.
- Memory ownership, and the leak of erased pointers, are not modelled.
- Ground::getPlatformCenter is left out, because only drawing uses it.
- Acceleration(acc, Angle), `set`, `add` and `setAccelerationDirection` are
  left out, because their bodies are not shown.
- Escape is not modelled as ending the program. Gameplay returns `quit`
  instead.
- AirplaneGround.Ground.constructor requires a whole width of at least
  1 meter. The code only asserts that the width is positive.
- AirplaneGround.Ground.Reset does not model the slope branch, which is
  unreachable because the runway covers every index.
- Plane.Airplane.ApplyAerodynamics, AirplaneSimulation.Simulator.Update and
  Artillery.DragOpposesMotion require the speed to be the velocity's true
  length, which the code computes with a square root.
- Factory.Make states only that a launched Whole is alive and not defunct.
  It does not state the rest of that Whole's fields, which the classes not
  part of this model decide.
- Lunar.Lander.Land and Lunar.Lander.Crash stand in for the methods of
  lander.h. They are taken to set the status as the airplane's do, without
  turning the lander.
