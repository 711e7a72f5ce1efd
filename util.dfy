/** Frame changes and the closed-form astronomical formulas of the library:
    heliocentric/geocentric shifts, Cartesian-to-spherical conversions, the
    ecliptic-to-equatorial formulas at a fixed obliquity, horizontal
    coordinates, sidereal time and the refraction term. */
module Util {
  import opened CoordTypes
  import opened Externals

  const J2000: real := 2451545.0
  const RAD: real := PI / 180.0
  const OBLIQUITY_OF_EARTH: real := RAD * 23.4397

  /** Earth's heliocentric vector at a Julian day (`vsop87c::earth`). */
  function EarthHelio(env: Env, julianDay: real): CartesianCoordinates {
    env.vsop87c(julianDay, Earth)
  }

  /** Moves a heliocentric vector to the geocentric frame. */
  function GeoFrmHelio(env: Env, julianDay: real, helio: CartesianCoordinates): (geo: CartesianCoordinates)
    ensures var e := EarthHelio(env, julianDay);
      geo.x + e.x == helio.x && geo.y + e.y == helio.y && geo.z + e.z == helio.z
    ensures geo == Origin <==> helio == EarthHelio(env, julianDay)
  {
    var earth := EarthHelio(env, julianDay);
    CartesianCoordinates(helio.x - earth.x, helio.y - earth.y, helio.z - earth.z)
  }

  /** Moves a geocentric vector to the heliocentric frame. */
  function HelioFrmGeo(env: Env, julianDay: real, geo: CartesianCoordinates): (helio: CartesianCoordinates)
    ensures var e := EarthHelio(env, julianDay);
      helio.x - e.x == geo.x && helio.y - e.y == geo.y && helio.z - e.z == geo.z
  {
    var earth := EarthHelio(env, julianDay);
    CartesianCoordinates(geo.x + earth.x, geo.y + earth.y, geo.z + earth.z)
  }

  /** The two shifts undo each other, in either order, when they use Earth's
      vector at the same Julian day. */
  lemma HelioGeoRoundTrip(env: Env, julianDay: real, v: CartesianCoordinates)
    ensures HelioFrmGeo(env, julianDay, GeoFrmHelio(env, julianDay, v)) == v
    ensures GeoFrmHelio(env, julianDay, HelioFrmGeo(env, julianDay, v)) == v
  {
  }

  function Abs(a: real): (r: real)
    ensures r >= 0.0 && (r == a || r == -a)
  {
    if a >= 0.0 then a else -a
  }

  lemma ProductNonNegative(a: real, b: real)
    requires a >= 0.0 && b >= 0.0
    ensures a * b >= 0.0
  {
  }

  /** |d * u| <= |d| whenever u lies in [-1, 1]. */
  lemma ScaledByUnit(d: real, u: real)
    requires -1.0 <= u <= 1.0
    ensures -Abs(d) <= d * u <= Abs(d)
  {
    ProductNonNegative(Abs(d), 1.0 - u);
    ProductNonNegative(Abs(d), u + 1.0);
    assert Abs(d) * (1.0 - u) == Abs(d) - Abs(d) * u;
    assert Abs(d) * (u + 1.0) == Abs(d) * u + Abs(d);
    assert d * u == Abs(d) * u || d * u == -(Abs(d) * u);
  }

  /** |d * u * w| <= |d| whenever u and w lie in [-1, 1]. */
  lemma ScaledByUnits(d: real, u: real, w: real)
    requires -1.0 <= u <= 1.0 && -1.0 <= w <= 1.0
    ensures -Abs(d) <= d * u * w <= Abs(d)
  {
    ScaledByUnit(d, u);
    ScaledByUnit(d * u, w);
  }

  /** The three products of the spherical-to-Cartesian formulas are bounded
      by the distance, and vanish with it. */
  lemma SphericalBounds(d: real, cd: Unit, sd: Unit, cr: Unit, sr: Unit)
    ensures -Abs(d) <= d * cd * cr <= Abs(d)
    ensures -Abs(d) <= d * cd * sr <= Abs(d)
    ensures -Abs(d) <= d * sd <= Abs(d)
    ensures d == 0.0 ==> d * cd * cr == 0.0 && d * cd * sr == 0.0 && d * sd == 0.0
  {
    ScaledByUnits(d, cd, cr);
    ScaledByUnits(d, cd, sr);
    ScaledByUnit(d, sd);
  }

  /** Spherical (right ascension, declination, distance) to Cartesian. No
      component can exceed the distance in magnitude, and a zero distance
      gives the origin. */
  function CartFrmEq(m: Maths, eq: EqCoordinates): (c: CartesianCoordinates)
    ensures -Abs(eq.dist) <= c.x <= Abs(eq.dist)
    ensures -Abs(eq.dist) <= c.y <= Abs(eq.dist)
    ensures -Abs(eq.dist) <= c.z <= Abs(eq.dist)
    ensures eq.dist == 0.0 ==> c == Origin
  {
    var x := eq.dist * m.cos(eq.dec) * m.cos(eq.ra);
    var y := eq.dist * m.cos(eq.dec) * m.sin(eq.ra);
    var z := eq.dist * m.sin(eq.dec);
    SphericalBounds(eq.dist, m.cos(eq.dec), m.sin(eq.dec), m.cos(eq.ra), m.sin(eq.ra));
    CartesianCoordinates(x, y, z)
  }

  /** Cartesian to spherical, angles in radians. The distance is the square
      root of the squared length and is positive; the longitude is atan2(y, x)
      brought into [0, 2pi) by adding 2pi to a negative value; the latitude
      divides by the distance, so the origin is outside the domain. */
  function EclFrmCart(m: Maths, x: real, y: real, z: real): (r: EclCoordinates)
    requires NonZero(CartesianCoordinates(x, y, z))
    ensures r.dist == m.sqrt(SquaredLength(CartesianCoordinates(x, y, z))) && r.dist > 0.0
    ensures 0.0 <= r.lng < 2.0 * PI
    ensures r.lng == m.atan2(y, x) || r.lng == m.atan2(y, x) + 2.0 * PI
    ensures r.lat == m.asin(z / r.dist)
  {
    var dist := m.sqrt(SquaredLength(CartesianCoordinates(x, y, z)));
    var a := m.atan2(y, x);
    var lng := if a >= 0.0 then a else 2.0 * PI + a;
    EclCoordinates(m.asin(z / dist), lng, dist)
  }

  /** The same conversion as EclFrmCart, computed independently and reported
      with both angles in degrees: the right ascension lies in [0, 360) and
      the declination in [-90, 90]. */
  function EqFrmCart(m: Maths, c: CartesianCoordinates): (r: EqCoordinates)
    requires NonZero(c)
    ensures var e := EclFrmCart(m, c.x, c.y, c.z);
      r.ra == Degrees(e.lng) && r.dec == Degrees(e.lat) && r.dist == e.dist
    ensures 0.0 <= r.ra < 360.0 && r.dist > 0.0
    ensures -90.0 <= r.dec <= 90.0
  {
    var x, y, z := c.x, c.y, c.z;
    var dist := m.sqrt(SquaredLength(CartesianCoordinates(x, y, z)));
    var a := m.atan2(y, x);
    var ra := if a >= 0.0 then a else 2.0 * PI + a;
    var dec := m.asin(z / dist);
    DegreesOfQuarterTurn(dec);
    EqCoordinates(Degrees(ra), Degrees(dec), dist)
  }

  /** Days since the J2000.0 epoch; J2000 itself is day 0. */
  function JulianEpochOffset(julian: real): (d: real)
    ensures d + J2000 == julian
    ensures d == 0.0 <==> julian == J2000
  {
    julian - J2000
  }

  /** Right ascension from ecliptic longitude and latitude at the fixed
      obliquity, in (-pi, pi]. */
  function RightAscension(m: Maths, l: real, b: real): (ra: real)
    ensures -PI < ra <= PI
  {
    m.atan2(m.sin(l) * m.cos(OBLIQUITY_OF_EARTH) - m.tan(b) * m.sin(OBLIQUITY_OF_EARTH), m.cos(l))
  }

  /** Declination from ecliptic longitude and latitude at the fixed
      obliquity, in [-pi/2, pi/2]. */
  function Declination(m: Maths, l: real, b: real): (dec: real)
    ensures -PI / 2.0 <= dec <= PI / 2.0
  {
    m.asin(m.sin(b) * m.cos(OBLIQUITY_OF_EARTH) + m.cos(b) * m.sin(OBLIQUITY_OF_EARTH) * m.sin(l))
  }

  /** Converting degrees to radians keeps the order. */
  lemma RadMonotone(a: real, b: real)
    requires a <= b
    ensures RAD * a <= RAD * b
  {
    assert RAD > 0.0;
  }

  /** The Sun's true ecliptic longitude: the mean anomaly, the perihelion
      longitude and pi, corrected by the equation of the centre, which never
      moves it by more than 1.9351 degrees. */
  function EclipticLongitude(m: Maths, meanAnomaly: real): (l: real)
    ensures var base := meanAnomaly + RAD * 102.9372 + PI;
      base - RAD * 1.9351 <= l <= base + RAD * 1.9351
  {
    var sum := 1.9148 * m.sin(meanAnomaly) + 0.02 * m.sin(2.0 * meanAnomaly)
               + 0.0003 * m.sin(3.0 * meanAnomaly);
    RadMonotone(sum, 1.9351);
    RadMonotone(-1.9351, sum);
    var c := RAD * sum;
    var perihelion := RAD * 102.9372;
    meanAnomaly + c + perihelion + PI
  }

  /** Azimuth, measured from the south, in (-pi, pi]. */
  function Azimuth(m: Maths, h: real, phi: real, dec: real): (az: real)
    ensures -PI < az <= PI
  {
    m.atan2(m.sin(h), m.cos(h) * m.sin(phi) - m.tan(dec) * m.cos(phi))
  }

  /** The azimuth as the library reports it: the south-based formula in
      degrees, plus 180, so that it is measured from the north and lies in
      (0, 360]. */
  function AzimuthFromNorth(m: Maths, h: real, phi: real, dec: real): (az: real)
    ensures az - 180.0 == Degrees(Azimuth(m, h, phi, dec))
    ensures 0.0 < az <= 360.0
  {
    DegreesOfHalfTurn(Azimuth(m, h, phi, dec));
    Degrees(Azimuth(m, h, phi, dec)) + 180.0
  }

  /** Geometric altitude above the horizon, in [-pi/2, pi/2]. */
  function Altitude(m: Maths, h: real, phi: real, dec: real): (alt: real)
    ensures -PI / 2.0 <= alt <= PI / 2.0
  {
    m.asin(m.sin(phi) * m.sin(dec) + m.cos(phi) * m.cos(dec) * m.cos(h))
  }

  /** Sidereal time at `d` days after J2000 for west longitude `lw`. */
  function SiderealTime(d: real, lw: real): real {
    RAD * (280.16 + 360.9856235 * d) - lw
  }

  /** Sidereal time advances by 360.9856235 degrees per day, and moving the
      observer west by `delta` puts it back by `delta`. */
  lemma SiderealTimeRate(d: real, lw: real, delta: real)
    ensures SiderealTime(d + 1.0, lw) - SiderealTime(d, lw) == RAD * 360.9856235
    ensures SiderealTime(d, lw + delta) == SiderealTime(d, lw) - delta
  {
  }

  /** Local hour angle of a right ascension (radians) for an observer at
      longitude `lon` (degrees, east positive) on a Julian day. */
  function LocalHourAngle(julianDay: real, lon: real, raRadians: real): real {
    SiderealTime(JulianEpochOffset(julianDay), RAD * -lon) - raRadians
  }

  /** The hour angle grows by the sidereal rate each day, by `delta` degrees
      when the observer moves `delta` degrees east, and falls by as much as
      the right ascension grows. */
  lemma LocalHourAngleShift(julianDay: real, lon: real, ra: real, delta: real)
    ensures LocalHourAngle(julianDay + 1.0, lon, ra) == LocalHourAngle(julianDay, lon, ra) + RAD * 360.9856235
    ensures LocalHourAngle(julianDay, lon + delta, ra) == LocalHourAngle(julianDay, lon, ra) + RAD * delta
    ensures LocalHourAngle(julianDay, lon, ra + delta) == LocalHourAngle(julianDay, lon, ra) - delta
  {
    SiderealTimeRate(JulianEpochOffset(julianDay), RAD * -lon, -(RAD * delta));
    assert RAD * -(lon + delta) == RAD * -lon - RAD * delta;
    assert JulianEpochOffset(julianDay + 1.0) == JulianEpochOffset(julianDay) + 1.0;
  }

  /** Horizontal coordinates, as the library reports them, of a body at
      right ascension `ra` and declination `dec` (radians) for an observer on
      a Julian day: the geometric altitude with the refraction term added
      exactly once, in degrees, and the azimuth from the north, which is
      computed from the hour angle and declination alone and so owes nothing
      to the refraction. */
  function Horizontal(m: Maths, julianDay: real, location: Location, ra: real, dec: real): (hz: HzCoordinates)
    ensures var h := LocalHourAngle(julianDay, location.lon, ra);
      var phi := RAD * location.lat;
      var alt := Altitude(m, h, phi, dec);
      && hz.alt == Degrees(alt + AstroRefraction(m, alt))
      && hz.az == AzimuthFromNorth(m, h, phi, dec)
    ensures 0.0 < hz.az <= 360.0
  {
    var phi := RAD * location.lat;
    var hourAngle := LocalHourAngle(julianDay, location.lon, ra);
    var alt := Altitude(m, hourAngle, phi, dec);
    var refracted := alt + AstroRefraction(m, alt);
    HzCoordinates(AzimuthFromNorth(m, hourAngle, phi, dec), Degrees(refracted))
  }

  /** Altitude clamped at the horizon, the argument of the refraction term. */
  function ClampAltitude(h: real): (alt: real)
    ensures alt >= 0.0 && (alt == h || alt == 0.0)
    ensures h >= 0.0 ==> alt == h
  {
    if h < 0.0 then 0.0 else h
  }

  /** Atmospheric refraction (Meeus, formula 16.4) for an altitude in radians.
      Altitudes below the horizon are clamped to zero first, so the tangent's
      argument is positive and the correction is never zero. */
  function AstroRefraction(m: Maths, h: real): (r: real)
    ensures r != 0.0
  {
    var alt := ClampAltitude(h);
    var arg := alt + 0.00312536 / (alt + 0.08901179);
    assert arg > 0.0;
    0.0002967 / m.tan(arg)
  }

  /** Below the horizon the correction is the one at the horizon, whatever
      the altitude. */
  lemma RefractionBelowHorizon(m: Maths, h: real)
    requires h < 0.0
    ensures AstroRefraction(m, h) == AstroRefraction(m, 0.0)
  {
  }
}
