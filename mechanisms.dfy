/**
 * Shared vocabulary of the single-axis mechanisms: motion-profile states,
 * feedforward gains, and the library algorithms they call, which the model
 * receives as function values (oracles) instead of re-deriving them.
 */
module Mechanisms {
  import opened Units

  /** A motion-profile state: position and velocity. */
  datatype ProfileState = ProfileState(position: real, velocity: real)

  /** Velocity and acceleration limits of a trapezoid profile. */
  datatype Constraints = Constraints(maxVelocity: real, maxAcceleration: real)

  /** Static, gravity, velocity and acceleration gains of a feedforward. */
  datatype FeedforwardGains = FeedforwardGains(ks: real, kg: real, kv: real, ka: real)

  const ZeroGains: FeedforwardGains := FeedforwardGains(0.0, 0.0, 0.0, 0.0)

  /** The scheduler period in seconds used by every `periodic`. */
  const LoopPeriod: real := 0.02

  /** `TrapezoidProfile.calculate(dt, current, goal)` under given constraints. */
  type ProfileFn = (Constraints, real, ProfileState, ProfileState) -> ProfileState

  /** `ArmFeedforward.calculateWithVelocities(angle, currentVelocity, nextVelocity)`. */
  type ArmFeedforwardFn = (FeedforwardGains, real, real, real) -> real

  /** `ArmFeedforward.calculate(angleRadians, velocity)`. */
  type ArmHoldFn = (FeedforwardGains, real, real) -> real

  /** `ElevatorFeedforward.calculateWithVelocities(currentVelocity, nextVelocity)`. */
  type ElevatorFeedforwardFn = (FeedforwardGains, real, real) -> real

  /** Java's `Math.abs(error) <= allowed`: inclusive and symmetric. */
  predicate WithinInclusive(error: real, allowed: real) {
    Abs(error) <= allowed
  }

  /** Java's `Math.abs(error) < allowed`: strict. */
  predicate WithinStrict(error: real, allowed: real) {
    Abs(error) < allowed
  }

  lemma WithinInclusiveMeans(error: real, allowed: real)
    ensures WithinInclusive(error, allowed) <==> -allowed <= error <= allowed
    ensures WithinInclusive(error, allowed) == WithinInclusive(-error, allowed)
  {
  }

  lemma WithinStrictMeans(error: real, allowed: real)
    ensures WithinStrict(error, allowed) <==> -allowed < error < allowed
    ensures WithinStrict(error, allowed) ==> WithinInclusive(error, allowed)
    ensures WithinInclusive(error, allowed) && !WithinStrict(error, allowed) ==> Abs(error) == allowed
  {
  }
}
