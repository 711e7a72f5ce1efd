/** Planets: the name is lower-cased and dispatched to one of the eight
    heliocentric series, and the vector is made geocentric. */
module Planets {
  import opened CoordTypes
  import opened Externals
  import opened Util
  import opened Text
  import Celestial

  /** The accepted names, as they are compared after lower-casing. */
  const PLANET_NAMES: seq<string> :=
    ["venus", "earth", "mars", "jupiter", "mercury", "saturn", "uranus", "neptune"]

  /** The lower-case name of each series. */
  function BodyName(b: VsopBody): (name: string)
    ensures name in PLANET_NAMES
    ensures IsLowerCase(name)
  {
    match b
    case Venus => "venus"
    case Earth => "earth"
    case Mars => "mars"
    case Jupiter => "jupiter"
    case Mercury => "mercury"
    case Saturn => "saturn"
    case Uranus => "uranus"
    case Neptune => "neptune"
  }

  /** The series a planet name selects, compared after lower-casing; any
      other name selects none. */
  function PlanetBody(name: string): (b: Option<VsopBody>)
    ensures b.Some? <==> Lower(name) in PLANET_NAMES
    ensures b.Some? ==> BodyName(b.value) == Lower(name)
  {
    var n := Lower(name);
    if n == "venus" then Some(Venus)
    else if n == "earth" then Some(Earth)
    else if n == "mars" then Some(Mars)
    else if n == "jupiter" then Some(Jupiter)
    else if n == "mercury" then Some(Mercury)
    else if n == "saturn" then Some(Saturn)
    else if n == "uranus" then Some(Uranus)
    else if n == "neptune" then Some(Neptune)
    else None
  }

  /** Every series is reached by its own name, and by no other. */
  lemma PlanetBodyOfName(b: VsopBody)
    ensures PlanetBody(BodyName(b)) == Some(b)
  {
    LowerOfLowerCase(BodyName(b));
  }

  /** Position of a planet at a Julian day, typed Planet and made geocentric
      from the series' heliocentric vector. A name that is none of the eight
      planets, whatever its case, fails. */
  function GetCelestialPosition(env: Env, julian: real, planetName: string): (r: Result<CelestialPosition>)
    ensures r.Fail? <==> Lower(planetName) !in PLANET_NAMES
    ensures r.Fail? ==> r.failure == UnsupportedBody
    ensures r.Ok? ==>
      var helio := env.vsop87c(julian, PlanetBody(planetName).value);
      && r.value.objectType == Planet && r.value.julianDay == julian
      && r.value.geoCart == GeoFrmHelio(env, julian, helio)
      && HelioFrmGeo(env, julian, r.value.geoCart) == helio
  {
    match PlanetBody(planetName)
    case None => Fail(UnsupportedBody)
    case Some(body) =>
      var helioCoords := env.vsop87c(julian, body);
      var helioCartCoords := CartesianCoordinates(helioCoords.x, helioCoords.y, helioCoords.z);
      Ok(Celestial.FromHelioCart(env, julian, helioCartCoords, Planet))
  }

  /** Names that agree once lower-cased give the same result. */
  lemma CaseInsensitive(env: Env, julian: real, a: string, b: string)
    requires Lower(a) == Lower(b)
    ensures GetCelestialPosition(env, julian, a) == GetCelestialPosition(env, julian, b)
  {
  }

  lemma MarsInAnyCase(env: Env, julian: real)
    ensures GetCelestialPosition(env, julian, "Mars") == GetCelestialPosition(env, julian, "mars")
    ensures GetCelestialPosition(env, julian, "MARS").Ok?
  {
    assert Lower("Mars") == "mars";
    assert Lower("MARS") == "mars";
  }

  lemma PlutoFails(env: Env, julian: real)
    ensures GetCelestialPosition(env, julian, "pluto") == Fail(UnsupportedBody)
  {
    LowerOfLowerCase("pluto");
  }

  /** Earth seen from Earth is the origin: it has no ecliptic, equatorial or
      horizontal view. */
  lemma EarthIsOrigin(env: Env, julian: real)
    ensures GetCelestialPosition(env, julian, "earth") == Ok(CelestialPosition(Origin, Planet, julian))
    ensures !NonZero(Origin)
  {
    PlanetBodyOfName(Earth);
  }
}
