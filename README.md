# astral core in Dafny

A model of the coordinate pipeline of the `astral` crate, with proofs about it.
The crate computes where a Sun, the Moon, a planet or a catalogued star appears
in the sky. The parts modelled are:

- **Frame conversions** (`Util`). These move a vector between the
  heliocentric and geocentric frames, and convert between Cartesian and
  spherical form. Ecliptic longitude and latitude go to right ascension and
  declination at the fixed obliquity 23.4397°. Hour angle, altitude and
  azimuth come from sidereal time. The refraction term follows Meeus (16.4).
- **`CelestialPosition`** (`Celestial`). A position is an immutable value: a
  geocentric vector, the kind of body and the Julian day. It can be built from
  a heliocentric vector or from equatorial coordinates. Ecliptic, equatorial
  and horizontal views are derived from it on demand. The equatorial view
  matches on the kind of body. The Moon has no arm there, so it fails.
- **The Sun** (`Solar`). Its position is Earth's heliocentric vector,
  reversed. Its low-precision analytic position is also modelled: mean
  anomaly, equation of the centre and a fixed distance.
- **The Moon** (`Lunar`). Its analytic position, illuminated fraction and
  phase are modelled. So are the phase's name and picture, its horizontal
  position and the `LunarInfo` snapshot.
- **Planets** (`Planets`). The name is lower-cased and sent to one of eight
  VSOP87C series. Any other name fails.
- **Stars** (`Stars`). The catalog is searched in order for the first row
  whose proper name matches, ignoring case. The row's x, y and z become the
  geocentric vector. `Stars.GetData` is a method with a loop. It is proved to
  return what the recursive specification `Stars.FindStar` returns.

Floating-point maths is not modelled as arithmetic. `sin`, `cos`, `tan`,
`asin`, `acos`, `atan2` and `sqrt` are fields of a `Maths` record passed in as
a parameter. All that is known of each is the range its type gives it:

- `sin` and `cos` lie in [-1, 1];
- `asin` lies in [-pi/2, pi/2];
- `atan2` lies in (-pi, pi];
- `acos` lies in [0, pi];
- `sqrt` maps positive numbers to positive numbers;
- `tan` vanishes only at 0.

The VSOP87C series and the two routines of the `astro` crate (IAU mean
obliquity and ecliptic-to-equatorial declination) are fields of an `Env`
record in the same way. Every property below therefore holds for any
functions with those ranges.

The modelled core panics in three places: `unreachable!()` for an unknown
planet, `unreachable!()` for a Moon in the equatorial view, and `unwrap()` on
a failed star search. Here each of these returns a `Fail` value. A fourth
panic, `unwrap()` on a malformed catalog row, belongs to the catalog loading
listed under "## Left out".

Three behaviours of the code are easy to misread, and the model keeps each as
written:

- The phase-name arms are inclusive at both ends (`0...03`, `02...20`, …).
  The first arm that matches wins. So 3 is "new", 99 is "waning crescent",
  and only percents above 99 or below 0 are "anything".
- The azimuth is the south-based `atan2` in degrees plus 180, with no
  reduction, so it lies in (0, 360]; 360 itself is possible and 0 is not.
- For a planet or the Sun, the right ascension is 360 plus the degrees of an
  `atan2`, with no reduction, so it lies in (180, 540] rather than in one
  turn starting at 0.

## Model

| member | source | states |
|---|---|---|
| Util.GeoFrmHelio | src/util.rs:38-45 | geocentric plus Earth's heliocentric vector of the same day gives back the heliocentric vector; the result is the origin exactly when the body is Earth's own position |
| Util.HelioFrmGeo | src/util.rs:53-60 | heliocentric minus Earth's vector of the same day is the geocentric vector |
| Util.HelioGeoRoundTrip | src/util.rs:38-60 | the two frame shifts undo each other in both orders |
| Util.CartFrmEq | src/util.rs:47-52 | no Cartesian component exceeds the distance in magnitude; a zero distance gives the origin |
| Util.EclFrmCart | src/util.rs:61-71 | the distance is the positive square root of x²+y²+z²; the longitude is atan2(y, x), with 2pi added when negative, and lies in [0, 2pi); the latitude is asin(z / dist) |
| Util.EqFrmCart | src/util.rs:72-85 | the same triple as EclFrmCart with the angles in degrees, so the right ascension lies in [0, 360), the declination in [-90, 90] and the distance is positive |
| Util.JulianEpochOffset | src/util.rs:97-99 | offset plus J2000 gives back the Julian day; J2000 itself is day 0 and the only day 0 |
| Util.RightAscension | src/util.rs:101-103 | the fixed-obliquity right ascension lies in (-pi, pi] |
| Util.Declination | src/util.rs:105-108 | the fixed-obliquity declination lies in [-pi/2, pi/2] |
| Util.EclipticLongitude | src/util.rs:110-117 | the true longitude stays within 1.9351° of mean anomaly + perihelion + pi |
| Util.Azimuth | src/util.rs:119-121 | the south-based azimuth lies in (-pi, pi] |
| Util.AzimuthFromNorth | src/coords.rs:95-97 | the reported azimuth is the south-based one in degrees plus 180 and lies in (0, 360] |
| Util.Altitude | src/util.rs:123-125 | the geometric altitude lies in [-pi/2, pi/2] |
| Util.SiderealTimeRate | src/util.rs:127-129 | sidereal time gains 360.9856235° a day, and moving the observer west by delta puts it back by delta |
| Util.LocalHourAngleShift | src/coords.rs:89-92 | the hour angle grows by 360.9856235° a day and by delta when the observer moves delta degrees east, and falls by delta when the right ascension grows by delta |
| Util.Horizontal | src/coords.rs:87-100 | the altitude is the geometric altitude with the refraction term added exactly once, in degrees; the azimuth comes from the unrefracted quantities, is north-based and lies in (0, 360] |
| Util.ClampAltitude | src/util.rs:131-134 | the refraction argument is the altitude clamped at 0: non-negative, and unchanged for h ≥ 0 |
| Util.AstroRefraction | src/util.rs:131-134 | the tangent's argument is positive, so the refraction term is defined and non-zero for every altitude |
| Util.RefractionBelowHorizon | src/util.rs:131-134 | below the horizon the correction equals the one at altitude 0 |
| Celestial.FromHelioCart | src/coords.rs:63-74 | day and kind are kept; the stored vector is the geocentric form of the given one and shifts back to it exactly |
| Celestial.FromGeoEq | src/coords.rs:75-86 | day and kind are kept; the stored vector is the Cartesian form of the equatorial triple, bounded by its distance |
| Celestial.GetEclCoords | src/coords.rs:101-106 | the spherical form of the stored vector with both angles turned into degrees and the distance untouched; longitude in [0, 360), latitude in [-90, 90], distance positive |
| Celestial.GetEqCoords | src/coords.rs:107-131 | fails exactly for the Moon; a star's view is EqFrmCart of its vector; a planet's or the Sun's right ascension is 360 plus the fixed-obliquity formula in degrees, in (180, 540], its declination comes from the IAU obliquity of the day, and its distance is the ecliptic one |
| Celestial.GetHzCoords | src/coords.rs:87-100 | fails exactly for the Moon; otherwise it is the horizontal position of the equatorial view's angles in radians, with azimuth in (0, 360] |
| Solar.GetCelestialPosition | src/sun.rs:5-18 | a Sun-typed position at the given day whose vector is the geocentric form of the heliocentric origin, so it shifts back to the origin |
| Solar.SolarMeanAnomalyIncreasing | src/sun.rs:20-22 | the mean anomaly increases strictly with time, by 0.98560028° a day |
| Solar.SunCoords | src/sun.rs:24-34 | right ascension and declination of the true longitude at ecliptic latitude 0; distance 149598000 km; right ascension in (-pi, pi] |
| Solar.GetSunPosition | src/sun.rs:36-48 | the azimuth is the raw south-based radian value in (-pi, pi], and the altitude is the geometric one with no refraction, in radians within [-pi/2, pi/2] |
| Lunar.PhasePercent | src/moon.rs:63 | the percent is 100 × phase truncated toward zero: floor for non-negative phases, ceiling for negative ones |
| Lunar.PhaseName | src/moon.rs:64-75 | the name is one of the eight phases or "anything", and it is "anything" exactly for percents below 0 or above 99 |
| Lunar.PhaseNameBuckets | src/moon.rs:64-75 | the i-th name is given exactly to the percents in [0,3], [4,20], [21,30], [31,47], [48,53], [54,70], [71,85], [86,99], in both directions |
| Lunar.PhaseNameTieBreaks | src/moon.rs:65-72 | every shared end point (2, 3, 20, 30, 47, 53, 70, 85) goes to the earlier arm |
| Lunar.PhaseNamesDistinct | src/moon.rs:65-73 | the eight names differ from one another and from "anything" |
| Lunar.GetMoonPhaseName | src/moon.rs:61-76 | the name of the truncated percent of a phase, always one of the nine strings |
| Lunar.GetMoonPhaseImage | src/moon.rs:21-35 | each of the eight names gets its own picture; every other string gets "no image found", and only those do |
| Lunar.MoonCoords | src/moon.rs:94-110 | the distance lies in [364096, 405906] km and the right ascension in (-pi, pi] |
| Lunar.IncidenceAngle | src/moon.rs:55-56 | the Sun–Moon incidence angle lies in (-pi, pi] |
| Lunar.GetMoonIllumination | src/moon.rs:51-59 | (1 + cos i) / 2 of the incidence angle of the day's Sun and Moon, in [0, 1] |
| Lunar.PhaseSign | src/moon.rs:90 | −1 exactly when the angle is negative, +1 exactly when it is not |
| Lunar.PhaseAngle | src/moon.rs:84-88 | the waxing/waning direction angle lies in (-pi, pi] |
| Lunar.PhaseFraction | src/moon.rs:90-91 | 0.5 + 0.5·i/pi when waxing, 0.5 − 0.5·i/pi when waning, in [0, 1] |
| Lunar.GetMoonPhase | src/moon.rs:77-92 | the phase fraction of the day's incidence and direction angles, in [0, 1] |
| Lunar.GetMoonPosition | src/moon.rs:37-49 | the horizontal position of the Moon's analytic right ascension and declination at the observer, with azimuth in (0, 360] |
| Lunar.GetLunarInfo | src/moon.rs:8-19 | position from the Moon's horizontal coordinates; percent illuminated is 100 times the illuminated fraction, in [0, 100]; the image is the name's image; the name is "anything" and the image is missing exactly when the phase is 1 |
| Text.LowerChar | src/planet.rs:21 | the result is never an ASCII capital; a capital moves down by 32, anything else is kept |
| Text.Lower | src/star.rs:56 | same length, every character lowered |
| Text.LowerOfLowerCase | src/planet.rs:21-29 | a string without capitals is its own lower case |
| Text.LowerIdempotent | src/star.rs:56 | lowering twice is lowering once |
| Planets.BodyName | src/planet.rs:21-29 | every series has a lower-case name among the eight accepted ones |
| Planets.PlanetBody | src/planet.rs:21-31 | a series is selected exactly when the lower-cased name is one of the eight, and its name is that lower-cased name |
| Planets.PlanetBodyOfName | src/planet.rs:21-29 | each series is selected by its own name |
| Planets.GetCelestialPosition | src/planet.rs:19-40 | fails with UnsupportedBody exactly when the lower-cased name is none of the eight; otherwise a Planet-typed position at the given day whose vector is the geocentric form of the series' vector and shifts back to it |
| Planets.CaseInsensitive | src/planet.rs:21 | names equal once lower-cased give equal results |
| Planets.MarsInAnyCase | src/planet.rs:16-17 | "Mars", "mars" and "MARS" give the same successful result |
| Planets.PlutoFails | src/planet.rs:30 | "pluto" fails with UnsupportedBody |
| Planets.EarthIsOrigin | src/planet.rs:23 | "earth" gives the origin as its geocentric vector, which has no spherical form |
| Stars.FindStarFirst | src/star.rs:55-58 | the search returns the first row that matches ignoring case, and returns nothing exactly when no row matches |
| Stars.FindStarCaseInsensitive | src/star.rs:55-57 | names equal once lower-cased find the same row |
| Stars.GetData | src/star.rs:44-59 | the loop returns what FindStar specifies, and fails with StarNotFound exactly when it finds nothing |
| Stars.GetCelestialPosition | src/star.rs:31-42 | fails exactly when no row matches; otherwise a Star-typed position at the given day whose vector is the row's x, y and z |

## Left out

- Floating-point behaviour: rounding, NaN and infinities. Reals are exact,
  so `Radians(Degrees(x)) == x` holds here but not always for `f64`.
- The accuracy of the elementary functions. Only their ranges are used, so
  identities such as sin² + cos² = 1 are not available. For this reason the
  round trip from Cartesian to spherical form and back is not stated.
- Util.AstroRefraction: the term is proved non-zero, but not non-negative or
  vanishing towards 90°. Those facts need the sign of `tan` on (0, pi/2),
  which the model does not assume.
- The VSOP87C series and the `astro` crate's `mn_oblq_IAU` and `eq_frm_ecl!`
  declination. They are uninterpreted parameters; `eq_frm_ecl!`'s right
  ascension is discarded by the source and is not modelled.
- Text.Lower: folds only ASCII capitals, not Unicode `to_lowercase`. All
  accepted planet names and catalog names are ASCII.
- Lunar.PhasePercent: the `as i32` cast saturates at the `i32` limits and maps
  NaN to 0; only the truncation toward zero is modelled.
- Star catalog loading: the CSV text embedded in the crate and its parsing,
  with the `unwrap()` on a malformed row. The catalog is a parameter, a
  sequence of rows in file order.
- The pictures of the Moon phases live in `ascii_art.rs`, which is not part of
  this model. Each is a distinct placeholder string.
- `to_julian` and `from_julian`, and the `J1970` and `MILLLISECONDS_IN_DAY`
  constants they use: calendar conversion through `chrono`.
- `astro_wip.rs`, the crate's experimental duplicate of these routines, and
  the crate's tests.
