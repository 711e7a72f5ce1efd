/** The CelestialPosition aggregate: two ways to build one, and the ecliptic,
    equatorial and horizontal views derived from it on demand. */
module Celestial {
  import opened CoordTypes
  import opened Externals
  import opened Util

  /** A position from a heliocentric vector: Earth's vector at the same day is
      subtracted, so the stored vector turns back into the given one, and the
      day and kind are kept as given. */
  function FromHelioCart(env: Env, julianDay: real, helioCart: CartesianCoordinates,
                         objectType: CelestialBodyType): (p: CelestialPosition)
    ensures p.julianDay == julianDay && p.objectType == objectType
    ensures p.geoCart == GeoFrmHelio(env, julianDay, helioCart)
    ensures HelioFrmGeo(env, julianDay, p.geoCart) == helioCart
  {
    HelioGeoRoundTrip(env, julianDay, helioCart);
    CelestialPosition(GeoFrmHelio(env, julianDay, helioCart), objectType, julianDay)
  }

  /** A position from geocentric equatorial coordinates, stored as their
      Cartesian vector; no component of it exceeds the distance. */
  function FromGeoEq(m: Maths, julianDay: real, eqCoords: EqCoordinates,
                     objectType: CelestialBodyType): (p: CelestialPosition)
    ensures p.julianDay == julianDay && p.objectType == objectType
    ensures p.geoCart == CartFrmEq(m, eqCoords)
    ensures -Abs(eqCoords.dist) <= p.geoCart.z <= Abs(eqCoords.dist)
  {
    CelestialPosition(CartFrmEq(m, eqCoords), objectType, julianDay)
  }

  /** Ecliptic view: the spherical form of the stored vector with latitude
      and longitude in degrees and the distance left as it is; the latitude
      lies in [-90, 90] and the longitude in [0, 360). */
  function GetEclCoords(m: Maths, p: CelestialPosition): (r: EclCoordinates)
    requires NonZero(p.geoCart)
    ensures var raw := EclFrmCart(m, p.geoCart.x, p.geoCart.y, p.geoCart.z);
      r.lat == Degrees(raw.lat) && r.lng == Degrees(raw.lng) && r.dist == raw.dist
    ensures 0.0 <= r.lng < 360.0 && r.dist > 0.0
    ensures -90.0 <= r.lat <= 90.0
  {
    var coords := EclFrmCart(m, p.geoCart.x, p.geoCart.y, p.geoCart.z);
    DegreesOfQuarterTurn(coords.lat);
    EclCoordinates(Degrees(coords.lat), Degrees(coords.lng), coords.dist)
  }

  /** Equatorial view, by body kind. A star's vector is converted directly,
      so its right ascension lies in [0, 360). A planet or the Sun goes
      through the ecliptic view: the right ascension is 360 plus the degrees
      of the fixed-obliquity formula on the raw ecliptic angles, with no
      reduction, so it lies in (180, 540]; the declination comes from the
      IAU mean obliquity of the day; the distance is the ecliptic one. The
      Moon has no arm here: it fails. */
  function GetEqCoords(env: Env, p: CelestialPosition): (r: Result<EqCoordinates>)
    requires p.objectType != Moon ==> NonZero(p.geoCart)
    ensures r.Fail? <==> p.objectType == Moon
    ensures r.Fail? ==> r.failure == UnsupportedKind
    ensures p.objectType == Star ==> r == Ok(EqFrmCart(env.maths, p.geoCart))
    ensures p.objectType == Planet || p.objectType == Sun ==>
      var raw := EclFrmCart(env.maths, p.geoCart.x, p.geoCart.y, p.geoCart.z);
      && r.value.ra == 360.0 + Degrees(RightAscension(env.maths, raw.lng, raw.lat))
      && r.value.dec == Degrees(env.decFrmEcl(raw.lng, raw.lat, env.mnOblqIAU(p.julianDay)))
      && r.value.dist == raw.dist
      && 180.0 < r.value.ra <= 540.0
    ensures r.Ok? ==> r.value.dist > 0.0
  {
    match p.objectType
    case Star => Ok(EqFrmCart(env.maths, p.geoCart))
    case Planet | Sun =>
      var eclCoords := GetEclCoords(env.maths, p);
      var oblq := env.mnOblqIAU(p.julianDay);
      var raw := EclFrmCart(env.maths, p.geoCart.x, p.geoCart.y, p.geoCart.z);
      RadiansOfDegrees(raw.lng);
      RadiansOfDegrees(raw.lat);
      DegreesOfHalfTurn(RightAscension(env.maths, raw.lng, raw.lat));
      var geoeqDec := env.decFrmEcl(Radians(eclCoords.lng), Radians(eclCoords.lat), oblq);
      var raSun := 360.0 + Degrees(RightAscension(env.maths, Radians(eclCoords.lng), Radians(eclCoords.lat)));
      Ok(EqCoordinates(raSun, Degrees(geoeqDec), eclCoords.dist))
    case Moon => Fail(UnsupportedKind)
  }

  /** Horizontal view for an observer. The hour angle comes from the
      equatorial right ascension; the altitude is the geometric one with the
      refraction term added exactly once; the azimuth is taken from the
      unrefracted quantities and turned from south-based to north-based by
      adding 180 degrees, so it lies in (0, 360]. A Moon position fails, as
      its equatorial view does. */
  function GetHzCoords(env: Env, p: CelestialPosition, location: Location): (r: Result<HzCoordinates>)
    requires p.objectType != Moon ==> NonZero(p.geoCart)
    ensures r.Fail? <==> p.objectType == Moon
    ensures r.Fail? ==> r.failure == UnsupportedKind
    ensures r.Ok? ==>
      var eq := GetEqCoords(env, p).value;
      r.value == Horizontal(env.maths, p.julianDay, location, Radians(eq.ra), Radians(eq.dec))
    ensures r.Ok? ==> 0.0 < r.value.az <= 360.0
  {
    match GetEqCoords(env, p)
    case Fail(e) => Fail(e)
    case Ok(eqCoords) =>
      Ok(Horizontal(env.maths, p.julianDay, location, Radians(eqCoords.ra), Radians(eqCoords.dec)))
  }
}
