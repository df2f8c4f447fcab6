/**
 * What the airplane and the lunar lander share: the three flight statuses
 * and the rule both games apply each frame to decide a crash or a landing
 * (Airplane/simulator.cpp and Lunar/Code/simulator.cpp, `gameplay`).
 */
module Landing {

  /** Status: still flying, safely landed, or crashed. */
  datatype Status = Playing | Safe | Dead

  /**
   * The status after the crash/land rule: a ground hit crashes, whatever
   * else holds; otherwise touching the landing zone lands below the maximum
   * speed and crashes at or above it; otherwise the status stays.
   */
  function Verdict(hit: bool, onPlatform: bool, speed: real, maxSpeed: real, status: Status): Status
  {
    if hit then Dead
    else if onPlatform then (if speed < maxSpeed then Safe else Dead)
    else status
  }

  /** The tank after paying `cost`, clamped at empty (both input methods end with this clamp). */
  function Drain(fuel: real, cost: real): (f: real)
    ensures 0.0 <= f
    ensures 0.0 <= cost && 0.0 <= fuel ==> f <= fuel
    ensures cost <= fuel ==> f == fuel - cost
    ensures fuel < cost ==> f == 0.0
  {
    if fuel - cost < 0.0 then 0.0 else fuel - cost
  }

  /** The rule's cases, each stated without the others. */
  lemma VerdictLaws(hit: bool, onPlatform: bool, speed: real, maxSpeed: real, status: Status)
    ensures hit ==> Verdict(hit, onPlatform, speed, maxSpeed, status) == Dead
    ensures Verdict(hit, onPlatform, speed, maxSpeed, status) == Safe <==>
      !hit && (if onPlatform then speed < maxSpeed else status == Safe)
    ensures !hit && !onPlatform ==> Verdict(hit, onPlatform, speed, maxSpeed, status) == status
    ensures !hit && onPlatform && speed == maxSpeed ==> Verdict(hit, onPlatform, speed, maxSpeed, status) == Dead
  {
  }
}
