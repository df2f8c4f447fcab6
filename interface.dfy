/**
 * The keyboard snapshot that the simulators poll once per frame
 * (the unseen Interface class).
 */
module Interface {

  /** The keys the simulators query: arrows, space, and the P, R and Escape keys. */
  datatype Keys = Keys(
    left: bool, right: bool, up: bool, down: bool,
    space: bool, p: bool, r: bool, esc: bool)

  /** The three thrusters a Thrust object reports for a key snapshot (thrust.h is not part of this model). */
  datatype Thrust = Thrust(main: bool, clock: bool, counter: bool)
}
