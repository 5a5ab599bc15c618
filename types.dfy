/**
 * The value types shared by the command layer and the simulation:
 * the 23 particle modes, the configuration record and a point.
 * Floating-point numbers are modelled as exact `real`s.
 */
module Types {

  /** The selectable behaviours of the particle field, in declaration order. */
  datatype ParticleMode =
    | SWARM | VORTEX | CIRCLE | STAR | HEART | SATURN
    | SWORD | SPEAR | SHIELD | HOURGLASS
    | DUEL | GALAXY | DNA | FACE | PHOENIX | BLACKHOLE | MATRIX | RAIN
    | ANGEL | SORCERER | TNT | SNOW | GHOST

  /**
   * The configuration passed to the canvas. The particle count is a `nat`:
   * every producer of a configuration writes a slider value (100..4000 in
   * steps of 100) or a preset literal.
   */
  datatype Config = Config(
    particleCount: nat,
    baseSpeed: real,
    particleSize: real,
    glowIntensity: int,
    mode: ParticleMode)

  datatype Point = Point(x: real, y: real)

  /** A value of `Math.random()`: uniform in [0, 1). */
  type Unit = r: real | 0.0 <= r < 1.0

  datatype Option<T> = None | Some(value: T)
}
