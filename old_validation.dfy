/**
 * Validation of the list-based generation: a coordinate is checked against
 * the configured labels, a ship location against the player's list of ship
 * locations and a shot against the player's lists of shots.  The player's
 * lists are passed in; nothing here changes them.
 */
module OldValidation {
  import opened Outcomes
  import opened Text
  import opened OldConfig

  /** `c` is a row label followed by a column label. */
  predicate IsCoordinate(c: string)
  {
    |c| >= 1 && c[..1] in ValidYLabels && c[1..] in ValidXLabels
  }

  /**
   * ValidCoOrdinates for a given row-part width: blank input fails first;
   * the row part is the first `width` characters, upper-cased, and the column
   * part the rest, left as it is; both must be configured labels, otherwise
   * the error carries the format example for the width.  Substring fails on
   * an input shorter than the width.
   */
  function ValidWith(s: string, width: nat): (r: Result<string>)
    ensures IsNullOrWhiteSpace(s) <==> r == Err(BlankCoordinate)
    ensures !IsNullOrWhiteSpace(s) && |s| < width ==> r == Err(IndexOutOfRange)
    ensures r.Err? && !IsNullOrWhiteSpace(s) && width <= |s| ==>
              r.error == InvalidCoordinate(if width > 1 then "AC24" else "D3")
    ensures r.Ok? <==> !IsNullOrWhiteSpace(s) && width <= |s|
                       && ToUpper(s[..width]) in ValidYLabels && s[width..] in ValidXLabels
    ensures r.Ok? ==> r.value == ToUpper(s[..width]) + s[width..]
  {
    if IsNullOrWhiteSpace(s) then Err(BlankCoordinate)
    else if |s| < width then Err(IndexOutOfRange)
    else
      var example := if width > 1 then "AC24" else "D3";
      var x, y := s[width..], ToUpper(s[..width]);
      if x !in ValidXLabels || y !in ValidYLabels then Err(InvalidCoordinate(example))
      else Ok(y + x)
  }

  /**
   * The source's ValidCoOrdinates: with the shipped labels the row part is
   * one character.  Only that character is upper-cased; the result is a
   * coordinate of the grid.
   */
  function ValidCoOrdinates(s: string): (r: Result<string>)
    ensures IsNullOrWhiteSpace(s) <==> r == Err(BlankCoordinate)
    ensures r.Err? && !IsNullOrWhiteSpace(s) ==> r.error == InvalidCoordinate("D3")
    ensures r.Ok? <==> |s| >= 1 && ToUpper(s[..1]) in ValidYLabels && s[1..] in ValidXLabels
    ensures r.Ok? ==> r.value == ToUpper(s[..1]) + s[1..] && IsCoordinate(r.value)
  {
    NumberFacts();
    var r := ValidWith(s, RowLabelWidth);
    if r.Ok? then
      LabelFacts();
      assert r.value[..1] == ToUpper(s[..1]) && r.value[1..] == s[1..];
      r
    else
      assert |s| >= 1 || IsNullOrWhiteSpace(s);
      r
  }

  /** Round trip: a row label followed by a column label validates to itself. */
  lemma RoundTrip(y: string, x: string)
    requires y in ValidYLabels && x in ValidXLabels
    ensures ValidCoOrdinates(y + x) == Ok(y + x)
  {
    LabelFacts();
    var c := y + x;
    assert c[..1] == y && c[1..] == x;
    ToUpperFixesUpper(y);
  }

  /** A coordinate of the grid is its own canonical form, so validating is idempotent. */
  lemma Idempotent(s: string)
    requires ValidCoOrdinates(s).Ok?
    ensures ValidCoOrdinates(ValidCoOrdinates(s).value) == ValidCoOrdinates(s)
  {
    var c := ValidCoOrdinates(s).value;
    assert c == c[..1] + c[1..];
    RoundTrip(c[..1], c[1..]);
  }

  /** An input without lower-case letters that validates is returned unchanged. */
  lemma UpperIsCanonical(s: string)
    requires IsUpper(s) && ValidCoOrdinates(s).Ok?
    ensures ValidCoOrdinates(s).value == s
  {
    ToUpperFixesUpper(s[..1]);
    assert s == s[..1] + s[1..];
  }

  /** A lower-case row letter comes back upper-cased. */
  lemma LowerCaseRow()
    ensures ValidCoOrdinates("d3") == Ok("D3")
    ensures ValidCoOrdinates("") == Err(BlankCoordinate)
    ensures ValidCoOrdinates("Z9") == Err(InvalidCoordinate("D3"))
  {
    assert !IsWhiteSpace("d3"[0]) && !IsWhiteSpace("Z9"[0]);
    assert "d3"[..1] == "d" && "d3"[1..] == "3";
    assert ToUpper("d") == "D" by { assert ToUpper("d")[0] == 'D'; }
    assert "D" + "3" == "D3";
    assert "Z9"[..1] == "Z" && ToUpper("Z") == "Z";
  }

  /** IsShipThere: the coordinate is one of the player's ship locations. */
  function IsShipThere(coord: string, shipLocations: seq<string>): (r: bool)
    ensures r <==> exists i :: 0 <= i < |shipLocations| && shipLocations[i] == coord
  {
    coord in shipLocations
  }

  /**
   * ValidShipLocation: the canonical coordinate when it is on the grid and
   * not yet one of the player's ship locations; AlreadyFilled when it is.
   */
  function ValidShipLocation(coord: string, shipLocations: seq<string>): (r: Result<string>)
    ensures ValidCoOrdinates(coord).Err? ==> r == ValidCoOrdinates(coord)
    ensures r.Ok? <==> ValidCoOrdinates(coord).Ok? && ValidCoOrdinates(coord).value !in shipLocations
    ensures r.Ok? ==> r.value == ValidCoOrdinates(coord).value && IsCoordinate(r.value)
    ensures r.Err? && ValidCoOrdinates(coord).Ok? ==> r.error == AlreadyFilled
  {
    match ValidCoOrdinates(coord)
    case Err(e) => Err(e)
    case Ok(c) => if IsShipThere(c, shipLocations) then Err(AlreadyFilled) else Ok(c)
  }

  /**
   * ValidShotTaken: true when the coordinate is on the grid and in neither
   * of the player's shot lists; AlreadyShot when it is in one.  It never
   * answers false.
   */
  function ValidShotTaken(coord: string, shotsMissed: seq<string>, shotsHit: seq<string>): (r: Result<bool>)
    ensures r != Ok(false)
    ensures ValidCoOrdinates(coord).Err? ==> r == Err(ValidCoOrdinates(coord).error)
    ensures r == Ok(true) <==>
              ValidCoOrdinates(coord).Ok? && ValidCoOrdinates(coord).value !in shotsMissed
              && ValidCoOrdinates(coord).value !in shotsHit
    ensures r == Err(AlreadyShot) <==>
              ValidCoOrdinates(coord).Ok?
              && (ValidCoOrdinates(coord).value in shotsMissed || ValidCoOrdinates(coord).value in shotsHit)
  {
    match ValidCoOrdinates(coord)
    case Err(e) => Err(e)
    case Ok(c) =>
      if c in shotsMissed || c in shotsHit then Err(AlreadyShot)
      else
        assert c != "";
        Ok(c != "")
  }
}
