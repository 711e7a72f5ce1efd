/** The Sun: its CelestialPosition from Earth's heliocentric vector, and the
    low-precision analytic position used for the Moon's phase and for the
    Sun's own horizontal coordinates. */
module Solar {
  import opened CoordTypes
  import opened Externals
  import opened Util

  /** Mean Earth–Sun distance in kilometres, used whatever the day. */
  const SUN_DISTANCE_KM: real := 149598000.0

  /** The Sun seen from Earth is Earth's heliocentric vector reversed: the
      geocentric form of the heliocentric origin. Day and kind are Sun's. */
  function GetCelestialPosition(env: Env, julian: real): (p: CelestialPosition)
    ensures p.objectType == Sun && p.julianDay == julian
    ensures p.geoCart == GeoFrmHelio(env, julian, Origin)
    ensures HelioFrmGeo(env, julian, p.geoCart) == Origin
  {
    var helioCoords := EarthHelio(env, julian);
    var helioCartCoords := CartesianCoordinates(-helioCoords.x, -helioCoords.y, -helioCoords.z);
    CelestialPosition(helioCartCoords, Sun, julian)
  }

  /** Mean anomaly of the Sun, radians, at `d` days after J2000. */
  function SolarMeanAnomaly(d: real): real {
    RAD * (357.5291 + 0.98560028 * d)
  }

  /** The mean anomaly grows strictly with time, by 0.98560028 degrees a day. */
  lemma SolarMeanAnomalyIncreasing(d1: real, d2: real)
    requires d1 < d2
    ensures SolarMeanAnomaly(d1) < SolarMeanAnomaly(d2)
    ensures SolarMeanAnomaly(d1 + 1.0) - SolarMeanAnomaly(d1) == RAD * 0.98560028
  {
    RadMonotone(357.5291 + 0.98560028 * d1, 357.5291 + 0.98560028 * d2);
    assert RAD * (357.5291 + 0.98560028 * d1) != RAD * (357.5291 + 0.98560028 * d2);
  }

  /** Right ascension and declination of the Sun from its true ecliptic
      longitude with ecliptic latitude 0, at the fixed mean distance. */
  function SunCoords(m: Maths, d: real): (c: Coords)
    ensures var l := EclipticLongitude(m, SolarMeanAnomaly(d));
      c.ra == RightAscension(m, l, 0.0) && c.dec == Declination(m, l, 0.0)
    ensures c.dist == SUN_DISTANCE_KM
    ensures -PI < c.ra <= PI
  {
    var meanAnomaly := SolarMeanAnomaly(d);
    var l := EclipticLongitude(m, meanAnomaly);
    Coords(RightAscension(m, l, 0.0), Declination(m, l, 0.0), SUN_DISTANCE_KM)
  }

  /** Horizontal position of the Sun, unlike the Moon's: azimuth in raw
      radians from the south, with no 180 added, and the geometric altitude
      without refraction, in [-pi/2, pi/2]. */
  function GetSunPosition(m: Maths, julian: real, lat: real, lng: real): (hz: HzCoordinates)
    ensures var d := JulianEpochOffset(julian);
      var c := SunCoords(m, d);
      var h := LocalHourAngle(julian, lng, c.ra);
      && hz.az == Azimuth(m, h, RAD * lat, c.dec)
      && hz.alt == Altitude(m, h, RAD * lat, c.dec)
    ensures -PI < hz.az <= PI
    ensures -PI / 2.0 <= hz.alt <= PI / 2.0
  {
    var latRad := RAD * lat;
    var d := JulianEpochOffset(julian);
    var sunCoords := SunCoords(m, d);
    var hourAngle := LocalHourAngle(julian, lng, sunCoords.ra);
    HzCoordinates(Azimuth(m, hourAngle, latRad, sunCoords.dec), Altitude(m, hourAngle, latRad, sunCoords.dec))
  }
}
