/** Stars: a case-insensitive search of the star catalog by proper name, and
    the position built directly from the catalog row. The catalog is the
    list of rows in file order; reading it from its embedded text is not
    part of this model. */
module Stars {
  import opened CoordTypes
  import opened Text

  /** One catalog row: proper name, Cartesian position, distance and
      equatorial angles. */
  datatype StarData = StarData(
    proper: string,
    x: real,
    y: real,
    z: real,
    dist: real,
    ra: real,
    dec: real)

  /** A row answers to a name when the two agree once lower-cased. */
  predicate Matches(star: StarData, name: string) {
    Lower(star.proper) == Lower(name)
  }

  /** The first row in catalog order that answers to the name. */
  function FindStar(catalog: seq<StarData>, name: string): Option<StarData> {
    if catalog == [] then None
    else if Matches(catalog[0], name) then Some(catalog[0])
    else FindStar(catalog[1..], name)
  }

  /** The search finds the first matching row, and finds nothing exactly
      when no row matches. */
  lemma {:induction false} FindStarFirst(catalog: seq<StarData>, name: string)
    ensures FindStar(catalog, name).None? <==> forall i :: 0 <= i < |catalog| ==> !Matches(catalog[i], name)
    ensures FindStar(catalog, name).Some? ==>
      exists i :: 0 <= i < |catalog| && catalog[i] == FindStar(catalog, name).value
        && Matches(catalog[i], name)
        && forall k :: 0 <= k < i ==> !Matches(catalog[k], name)
  {
    if catalog != [] && !Matches(catalog[0], name) {
      FindStarFirst(catalog[1..], name);
      if FindStar(catalog, name).Some? {
        var j :| 0 <= j < |catalog[1..]| && catalog[1..][j] == FindStar(catalog, name).value
          && Matches(catalog[1..][j], name)
          && forall k :: 0 <= k < j ==> !Matches(catalog[1..][k], name);
        assert catalog[j + 1] == catalog[1..][j];
      } else {
        forall i | 0 <= i < |catalog| ensures !Matches(catalog[i], name) {
          if i > 0 {
            assert catalog[i] == catalog[1..][i - 1];
          }
        }
      }
    }
  }

  /** Names that agree once lower-cased find the same row. */
  lemma {:induction false} FindStarCaseInsensitive(catalog: seq<StarData>, a: string, b: string)
    requires Lower(a) == Lower(b)
    ensures FindStar(catalog, a) == FindStar(catalog, b)
  {
    if catalog != [] {
      FindStarCaseInsensitive(catalog[1..], a, b);
    }
  }

  /** `get_data`: walks the catalog in order and stops at the first row that
      answers to the name; a name with no row fails. */
  method GetData(catalog: seq<StarData>, name: string) returns (r: Result<StarData>)
    ensures r.Fail? <==> FindStar(catalog, name).None?
    ensures r.Fail? ==> r.failure == StarNotFound
    ensures r.Ok? ==> r.value == FindStar(catalog, name).value
  {
    var target := Lower(name);
    var i := 0;
    while i < |catalog|
      invariant 0 <= i <= |catalog|
      invariant FindStar(catalog[i..], name) == FindStar(catalog, name)
    {
      if Lower(catalog[i].proper) == target {
        return Ok(catalog[i]);
      }
      assert catalog[i..][1..] == catalog[i + 1..];
      i := i + 1;
    }
    return Fail(StarNotFound);
  }

  /** Position of a star: the catalog row's x, y and z as the geocentric
      vector, typed Star, at the given day; an unknown name fails. */
  method GetCelestialPosition(catalog: seq<StarData>, julian: real, name: string)
    returns (r: Result<CelestialPosition>)
    ensures r.Fail? <==> FindStar(catalog, name).None?
    ensures r.Fail? ==> r.failure == StarNotFound
    ensures r.Ok? ==>
      var star := FindStar(catalog, name).value;
      r.value == CelestialPosition(CartesianCoordinates(star.x, star.y, star.z), Star, julian)
  {
    var starEq := GetData(catalog, name);
    if starEq.Fail? {
      return Fail(starEq.failure);
    }
    var star := starEq.value;
    return Ok(CelestialPosition(CartesianCoordinates(star.x, star.y, star.z), Star, julian));
  }
}
