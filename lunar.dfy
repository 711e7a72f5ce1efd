/** The Moon: its low-precision analytic position, the illuminated fraction,
    the phase and its name and image, the horizontal position and the
    LunarInfo snapshot. The Moon has its own pipeline and does not go through
    CelestialPosition. */
module Lunar {
  import opened CoordTypes
  import opened Externals
  import opened Util
  import Solar

  // ---------------------------------------------------------------------------
  // Phase names and images

  /** The eight named phases, in the order of the classifier's arms. */
  const PHASE_NAMES: seq<string> := [
    "new", "waxing crescent", "first quarter", "waxing gibbous",
    "full", "waning gibbous", "last quarter", "waning crescent"]

  /** The classifier's catch-all name. */
  const NO_PHASE_NAME: string := "anything"

  /** The art of each phase, in the order of PHASE_NAMES. The pictures
      themselves live in the ASCII-art module, which is not part of this
      model; each constant stands for its picture by its own name, and all
      that matters here is that they differ from one another and from
      NO_IMAGE. */
  const MOON_IMAGE_NEW: string := "MOON_IMAGE_NEW"
  const MOON_IMAGE_WAXING_C: string := "MOON_IMAGE_WAXING_C"
  const MOON_IMAGE_FIRST_Q: string := "MOON_IMAGE_FIRST_Q"
  const MOON_IMAGE_WAXING_G: string := "MOON_IMAGE_WAXING_G"
  const MOON_IMAGE_FULL: string := "MOON_IMAGE_FULL"
  const MOON_IMAGE_WANING_G: string := "MOON_IMAGE_WANING_G"
  const MOON_IMAGE_LAST_Q: string := "MOON_IMAGE_LAST_Q"
  const MOON_IMAGE_WANING_C: string := "MOON_IMAGE_WANING_C"

  const PHASE_IMAGES: seq<string> := [
    MOON_IMAGE_NEW, MOON_IMAGE_WAXING_C, MOON_IMAGE_FIRST_Q, MOON_IMAGE_WAXING_G,
    MOON_IMAGE_FULL, MOON_IMAGE_WANING_G, MOON_IMAGE_LAST_Q, MOON_IMAGE_WANING_C]

  const NO_IMAGE: string := "no image found"

  /** The percent ranges each name actually receives once the first matching
      arm wins: the arms' ranges with every shared end point given to the
      earlier arm. An independent description of the classifier. */
  const PHASE_LOW: seq<int> := [0, 4, 21, 31, 48, 54, 71, 86]
  const PHASE_HIGH: seq<int> := [3, 20, 30, 47, 53, 70, 85, 99]

  /** `(moon_phase * 100.0) as i32`: the phase in percent, truncated toward
      zero (the saturation of the cast at the i32 limits is not modelled). */
  function PhasePercent(moonPhase: real): (p: int)
    ensures moonPhase >= 0.0 ==> p >= 0 && p as real <= moonPhase * 100.0 < p as real + 1.0
    ensures moonPhase < 0.0 ==> p <= 0 && p as real - 1.0 < moonPhase * 100.0 <= p as real
  {
    var x := moonPhase * 100.0;
    if x >= 0.0 then x.Floor else -((-x).Floor)
  }

  /** The classifier on an integer percent: inclusive ranges that overlap at
      their ends, tried in order, so the first arm that matches wins. */
  function PhaseName(phase: int): (name: string)
    ensures name in PHASE_NAMES || name == NO_PHASE_NAME
    ensures name == NO_PHASE_NAME <==> phase < 0 || phase > 99
  {
    if 0 <= phase <= 3 then "new"
    else if 2 <= phase <= 20 then "waxing crescent"
    else if 20 <= phase <= 30 then "first quarter"
    else if 30 <= phase <= 47 then "waxing gibbous"
    else if 47 <= phase <= 53 then "full"
    else if 53 <= phase <= 70 then "waning gibbous"
    else if 70 <= phase <= 85 then "last quarter"
    else if 85 <= phase <= 99 then "waning crescent"
    else "anything"
  }

  /** `getMoonPhaseName`: the name of a phase given as a fraction of the cycle. */
  function GetMoonPhaseName(moonPhase: real): (name: string)
    ensures name == PhaseName(PhasePercent(moonPhase))
    ensures name in PHASE_NAMES || name == NO_PHASE_NAME
  {
    PhaseName(PhasePercent(moonPhase))
  }

  /** The eight names differ from one another and from the catch-all. */
  lemma PhaseNamesDistinct()
    ensures forall i, j :: 0 <= i < j < |PHASE_NAMES| ==> PHASE_NAMES[i] != PHASE_NAMES[j]
    ensures NO_PHASE_NAME !in PHASE_NAMES
  {
    var lengths := [3, 15, 13, 14, 4, 14, 12, 15];
    forall k | 0 <= k < |PHASE_NAMES|
      ensures |PHASE_NAMES[k]| == lengths[k] && PHASE_NAMES[k] != NO_PHASE_NAME
    {
    }
    // the two pairs of equal length differ in their third letter
    assert PHASE_NAMES[1][2] != PHASE_NAMES[7][2];
    assert PHASE_NAMES[3][2] != PHASE_NAMES[5][2];
  }

  /** The classifier gives the i-th name exactly to the percents in the i-th
      effective range: both directions. */
  lemma {:induction false} PhaseNameBuckets(phase: int, i: int)
    requires 0 <= i < 8
    ensures PhaseName(phase) == PHASE_NAMES[i] <==> PHASE_LOW[i] <= phase <= PHASE_HIGH[i]
  {
    PhaseNamesDistinct();
    if PHASE_LOW[i] <= phase <= PHASE_HIGH[i] {
      assert PhaseName(phase) == PHASE_NAMES[i];
    }
  }

  /** Every shared end point goes to the earlier arm. */
  lemma PhaseNameTieBreaks()
    ensures PhaseName(2) == "new" && PhaseName(3) == "new"
    ensures PhaseName(20) == "waxing crescent"
    ensures PhaseName(30) == "first quarter"
    ensures PhaseName(47) == "waxing gibbous"
    ensures PhaseName(53) == "full"
    ensures PhaseName(70) == "waning gibbous"
    ensures PhaseName(85) == "last quarter"
  {
  }

  /** `getMoonPhaseImage`: each of the eight names has its own picture; any
      other string, the catch-all name included, has none. */
  function GetMoonPhaseImage(phaseName: string): (image: string)
    ensures forall i :: 0 <= i < |PHASE_NAMES| && phaseName == PHASE_NAMES[i] ==> image == PHASE_IMAGES[i]
    ensures image == NO_IMAGE <==> phaseName !in PHASE_NAMES
  {
    if phaseName == "new" then MOON_IMAGE_NEW
    else if phaseName == "waxing crescent" then MOON_IMAGE_WAXING_C
    else if phaseName == "first quarter" then MOON_IMAGE_FIRST_Q
    else if phaseName == "waxing gibbous" then MOON_IMAGE_WAXING_G
    else if phaseName == "full" then MOON_IMAGE_FULL
    else if phaseName == "waning gibbous" then MOON_IMAGE_WANING_G
    else if phaseName == "last quarter" then MOON_IMAGE_LAST_Q
    else if phaseName == "waning crescent" then MOON_IMAGE_WANING_C
    else NO_IMAGE
  }

  // ---------------------------------------------------------------------------
  // Position, illumination and phase

  const MOON_MEAN_DISTANCE_KM: real := 385001.0

  /** Geocentric position of the Moon at `d` days after J2000: right
      ascension and declination in radians, distance in kilometres, which
      the cosine's range keeps within 385001 ± 20905 km. */
  function MoonCoords(m: Maths, d: real): (c: Coords)
    ensures 364096.0 <= c.dist <= 405906.0
    ensures -PI < c.ra <= PI
  {
    var meanLongitude := RAD * (218.316 + 13.176396 * d);
    var meanAnomaly := RAD * (134.963 + 13.064993 * d);
    var meanDistance := RAD * (93.272 + 13.229350 * d);
    var l := meanLongitude + RAD * 6.289 * m.sin(meanAnomaly);
    var b := RAD * 5.128 * m.sin(meanDistance);
    var dt := MOON_MEAN_DISTANCE_KM - 20905.0 * m.cos(meanAnomaly);
    Coords(RightAscension(m, l, b), Declination(m, l, b), dt)
  }

  /** The Sun–Moon phase angle from their equatorial positions: the
      elongation, then the angle at the Moon, in (-pi, pi]. */
  function IncidenceAngle(m: Maths, s: Coords, c: Coords): (inc: real)
    ensures -PI < inc <= PI
  {
    var phi := m.acos(m.sin(s.dec) * m.sin(c.dec) + m.cos(s.dec) * m.cos(c.dec) * m.cos(s.ra - c.ra));
    m.atan2(s.dist * m.sin(phi), c.dist - s.dist * m.cos(phi))
  }

  /** Illuminated fraction of the Moon's disc, (1 + cos i) / 2, in [0, 1]. */
  function GetMoonIllumination(m: Maths, julian: real): (fraction: real)
    ensures var d := JulianEpochOffset(julian);
      fraction == (1.0 + m.cos(IncidenceAngle(m, Solar.SunCoords(m, d), MoonCoords(m, d)))) / 2.0
    ensures 0.0 <= fraction <= 1.0
  {
    var d := JulianEpochOffset(julian);
    var s := Solar.SunCoords(m, d);
    var c := MoonCoords(m, d);
    var inc := IncidenceAngle(m, s, c);
    (1.0 + m.cos(inc)) / 2.0
  }

  /** Waxing (+1) or waning (-1): -1 exactly for a negative angle, so a zero
      angle counts as waxing. */
  function PhaseSign(angle: real): (sign: real)
    ensures sign == -1.0 <==> angle < 0.0
    ensures sign == 1.0 <==> angle >= 0.0
  {
    if angle < 0.0 then -1.0 else 1.0
  }

  /** 0.5 + 0.5 x / pi maps [-pi, pi] into [0, 1]. */
  lemma HalfTurnToFraction(x: real)
    requires -PI <= x <= PI
    ensures 0.0 <= 0.5 + 0.5 * x / PI <= 1.0
  {
  }

  /** Direction of the Sun from the Moon, whose sign tells waxing from
      waning. */
  function PhaseAngle(m: Maths, s: Coords, c: Coords): (angle: real)
    ensures -PI < angle <= PI
  {
    m.atan2(m.cos(s.dec) * m.sin(s.ra - c.ra),
            m.sin(s.dec) * m.cos(c.dec) - m.cos(s.dec) * m.sin(c.dec) * m.cos(s.ra - c.ra))
  }

  /** 0.5 plus or minus half the incidence angle over pi: plus when waxing,
      minus when waning; in [0, 1] for any angle in [-pi, pi]. */
  function PhaseFraction(inc: real, angle: real): (phase: real)
    requires -PI <= inc <= PI
    ensures angle >= 0.0 ==> phase == 0.5 + 0.5 * inc / PI
    ensures angle < 0.0 ==> phase == 0.5 + 0.5 * -inc / PI
    ensures 0.0 <= phase <= 1.0
  {
    var sign := PhaseSign(angle);
    HalfTurnToFraction(inc);
    HalfTurnToFraction(-inc);
    0.5 + 0.5 * inc * sign / PI
  }

  /** The phase as a fraction of the cycle at a Julian day, in [0, 1]. */
  function GetMoonPhase(m: Maths, julian: real): (phase: real)
    ensures var d := JulianEpochOffset(julian);
      var s := Solar.SunCoords(m, d);
      var c := MoonCoords(m, d);
      phase == PhaseFraction(IncidenceAngle(m, s, c), PhaseAngle(m, s, c))
    ensures 0.0 <= phase <= 1.0
  {
    var d := JulianEpochOffset(julian);
    var s := Solar.SunCoords(m, d);
    var c := MoonCoords(m, d);
    var inc := IncidenceAngle(m, s, c);
    var angle := PhaseAngle(m, s, c);
    PhaseFraction(inc, angle)
  }

  /** Horizontal position of the Moon for an observer at (lat, lng), degrees:
      azimuth from the north and refracted altitude, as for any body. */
  function GetMoonPosition(m: Maths, date: real, lat: real, lng: real): (hz: HzCoordinates)
    ensures var c := MoonCoords(m, JulianEpochOffset(date));
      hz == Horizontal(m, date, Location(lat, lng), c.ra, c.dec)
    ensures 0.0 < hz.az <= 360.0
  {
    var c := MoonCoords(m, JulianEpochOffset(date));
    Horizontal(m, date, Location(lat, lng), c.ra, c.dec)
  }

  /** The snapshot: the Moon's horizontal position, the illuminated percent
      in [0, 100], the phase name and that name's image. The catch-all name,
      and with it the missing image, appear only at a phase of exactly 1. */
  function GetLunarInfo(m: Maths, julian: real, location: Location): (info: LunarInfo)
    ensures var pos := GetMoonPosition(m, julian, location.lat, location.lon);
      info.altitude == pos.alt && info.azimuth == pos.az
    ensures info.percentIlluminated == GetMoonIllumination(m, julian) * 100.0
    ensures 0.0 <= info.percentIlluminated <= 100.0
    ensures info.phaseName == GetMoonPhaseName(GetMoonPhase(m, julian))
    ensures info.phaseImage == GetMoonPhaseImage(info.phaseName)
    ensures info.phaseName == NO_PHASE_NAME <==> GetMoonPhase(m, julian) == 1.0
    ensures info.phaseImage == NO_IMAGE <==> GetMoonPhase(m, julian) == 1.0
  {
    var moonPosition := GetMoonPosition(m, julian, location.lat, location.lon);
    var phase := GetMoonPhase(m, julian);
    var phaseName := GetMoonPhaseName(phase);
    var phaseImage := GetMoonPhaseImage(phaseName);
    PhaseNamesDistinct();
    LunarInfo(moonPosition.alt, moonPosition.az, GetMoonIllumination(m, julian) * 100.0,
              phaseName, phaseImage)
  }
}
