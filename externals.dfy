/** What the library takes from outside: the floating-point elementary
    functions, the VSOP87 planetary ephemeris and two routines of the `astro`
    crate. None of them is defined here; each is a parameter, and all that is
    known of it is the range its type promises. */
module Externals {
  import opened CoordTypes

  /** The `f64` value of pi, as an exact real. */
  const PI: real := 3.141592653589793

  type Unit = r: real | -1.0 <= r <= 1.0

  /** Range of `atan2`: the half-open interval (-pi, pi]. */
  type Atan2Angle = r: real | -PI < r <= PI

  /** Range of `asin`: [-pi/2, pi/2]. */
  type AsinAngle = r: real | -PI / 2.0 <= r <= PI / 2.0

  /** Range of `acos`: [0, pi]. */
  type AcosAngle = r: real | 0.0 <= r <= PI

  type Positive = r: real | r > 0.0 witness 1.0

  /** A tangent vanishes only at zero (true of `f64::tan`, since no non-zero
      double is a multiple of pi). */
  type TanFn = f: real -> real | forall x :: x != 0.0 ==> f(x) != 0.0
    witness (x: real) => x

  datatype Maths = Maths(
    sin: real -> Unit,
    cos: real -> Unit,
    tan: TanFn,
    asin: real -> AsinAngle,
    acos: real -> AcosAngle,
    atan2: (real, real) -> Atan2Angle,
    sqrt: Positive -> Positive)

  /** The bodies the VSOP87C series provide. */
  datatype VsopBody = Mercury | Venus | Earth | Mars | Jupiter | Saturn | Uranus | Neptune

  /** Everything external at once: the maths, `vsop87c::<body>(jd)` as one
      function of the Julian day and the body, and `astro`'s IAU mean
      obliquity and ecliptic-to-equatorial declination. */
  datatype Env = Env(
    maths: Maths,
    vsop87c: (real, VsopBody) -> CartesianCoordinates,
    mnOblqIAU: real -> real,
    decFrmEcl: (real, real, real) -> real)

  /** `f64::to_degrees`. */
  function Degrees(x: real): real {
    x * (180.0 / PI)
  }

  /** `f64::to_radians`. */
  function Radians(x: real): real {
    x * (PI / 180.0)
  }

  /** An `atan2` angle in (-pi, pi] is (-180, 180] in degrees. */
  lemma DegreesOfHalfTurn(x: real)
    requires -PI < x <= PI
    ensures -180.0 < Degrees(x) <= 180.0
  {
  }

  /** An `asin` angle in [-pi/2, pi/2] is [-90, 90] in degrees. */
  lemma DegreesOfQuarterTurn(x: real)
    requires -PI / 2.0 <= x <= PI / 2.0
    ensures -90.0 <= Degrees(x) <= 90.0
  {
  }

  /** Converting an angle to degrees and back gives it unchanged (exact reals). */
  lemma RadiansOfDegrees(x: real)
    ensures Radians(Degrees(x)) == x
  {
  }
}
