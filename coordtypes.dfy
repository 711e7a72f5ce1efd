/** The plain record types shared by every part of the library: an observer's
    location, the coordinate triples of each frame, the body kinds and the
    CelestialPosition aggregate, plus the failure results that stand for the
    places where the library panics. */
module CoordTypes {

  /** Observer on a spherical Earth, both angles in degrees. */
  datatype Location = Location(lat: real, lon: real)

  /** Snapshot of the Moon for presentation. */
  datatype LunarInfo = LunarInfo(
    altitude: real,
    azimuth: real,
    percentIlluminated: real,
    phaseName: string,
    phaseImage: string)

  /** Right ascension, declination (radians) and distance of the analytic
      Sun and Moon algorithms. */
  datatype Coords = Coords(ra: real, dec: real, dist: real)

  /** A Cartesian vector; whether it is heliocentric or geocentric is known
      only from context, as in the library. */
  datatype CartesianCoordinates = CartesianCoordinates(x: real, y: real, z: real)

  datatype HzCoordinates = HzCoordinates(az: real, alt: real)

  datatype EclCoordinates = EclCoordinates(lat: real, lng: real, dist: real)

  datatype EqCoordinates = EqCoordinates(ra: real, dec: real, dist: real)

  datatype CelestialBodyType = Planet | Star | Sun | Moon

  /** Where one body is at one instant: a geocentric vector, the kind of body
      and the Julian day. Built once, never changed. */
  datatype CelestialPosition = CelestialPosition(
    geoCart: CartesianCoordinates,
    objectType: CelestialBodyType,
    julianDay: real)

  const Origin: CartesianCoordinates := CartesianCoordinates(0.0, 0.0, 0.0)

  /** x² + y² + z². */
  function SquaredLength(v: CartesianCoordinates): real {
    v.x * v.x + v.y * v.y + v.z * v.z
  }

  /** A vector of positive length: the domain of the Cartesian-to-spherical
      conversions, which take its square root and divide by it. */
  predicate NonZero(v: CartesianCoordinates) {
    SquaredLength(v) > 0.0
  }

  /** The panics of the library, made into values. */
  datatype Failure =
    | UnsupportedBody   // `unreachable!()` in the planet name dispatch
    | StarNotFound      // `unwrap()` on a failed catalog search
    | UnsupportedKind   // `unreachable!()` in the body-kind dispatch

  datatype Result<T> = Ok(value: T) | Fail(failure: Failure)

  datatype Option<T> = None | Some(value: T)
}
