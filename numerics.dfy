/**
 * The floating-point mathematics the simulation calls into (Python's `math`
 * module and numpy's `exp`) is not modelled; every use goes through one of
 * these uninterpreted functions, passed in as a value.
 */
module Numerics {

  /** The transcendental functions the simulation uses. */
  datatype Env = Env(
    /** `1 / (1 + exp(-z))` */
    sigmoid: real -> real,
    /** `math.cos(math.radians(a))` for an angle `a` in degrees */
    cosDeg: int -> real,
    /** `math.sin(math.radians(a))` for an angle `a` in degrees */
    sinDeg: int -> real,
    /** the Euclidean length of a difference vector divided by the field's diagonal `max_dist` */
    dist: (real, real) -> real,
    /** `math.degrees(math.atan2(y, x))` */
    atan2Deg: (real, real) -> real)
}
