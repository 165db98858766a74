/**
 * Validation of the player's input against the rules and the player's grid:
 * the facing of a ship, where a ship may go and where a shot may be taken.
 * Nothing here changes the grid; the player's grid dictionary is passed in.
 */
module LiteValidation {
  import opened Outcomes
  import opened Text
  import opened LiteEnums
  import opened LiteConfig
  import opened LiteCodec
  import opened LiteSquares

  /** The lower-case letter a facing is entered with. */
  function FacingLetter(facing: Orientation): char
  {
    match facing
    case Down => 'd'
    case Left => 'l'
    case Right => 'r'
    case Up => 'u'
  }

  /**
   * ValidShipFacing: only the first character counts, in either case; d, l,
   * r and u give a facing, an empty entry keeps the ship's current facing
   * and anything else is refused.
   */
  function ValidShipFacing(text: string, current: Orientation): (r: Result<Orientation>)
    ensures text == "" ==> r == Ok(current)
    ensures text != "" ==> (r.Ok? <==> ToLowerChar(text[0]) in ['d', 'l', 'r', 'u'])
    ensures text != "" && r.Ok? ==> FacingLetter(r.value) == ToLowerChar(text[0])
    ensures r.Err? ==> r.error == InvalidFacing
  {
    var first := if |text| > 0 then ToLower(text)[..1] else text;
    if first == "d" then Ok(Down)
    else if first == "l" then Ok(Left)
    else if first == "r" then Ok(Right)
    else if first == "u" then Ok(Up)
    else if first == "" then Ok(current)
    else Err(InvalidFacing)
  }

  /** Every facing is read back from its letter, lower or upper case, whatever follows it. */
  lemma FacingRoundTrip(facing: Orientation, rest: string, current: Orientation)
    ensures ValidShipFacing([FacingLetter(facing)] + rest, current) == Ok(facing)
    ensures ValidShipFacing([ToUpperChar(FacingLetter(facing))] + rest, current) == Ok(facing)
  {
    var lower := [FacingLetter(facing)] + rest;
    var upper := [ToUpperChar(FacingLetter(facing))] + rest;
    assert ToLower(lower)[..1] == [FacingLetter(facing)];
    assert ToLower(upper)[..1] == [FacingLetter(facing)];
  }

  /** IsShipThere: the square holds a ship. */
  function IsShipThere(coord: string, squares: map<string, Square>): (r: bool)
    requires coord in squares
    ensures r <==> squares[coord].content.ShipCell?
  {
    squares[coord].Status() == Ship
  }

  /** HaveAlreadyShot: the square has been hit or missed. */
  function HaveAlreadyShot(coord: string, squares: map<string, Square>): (r: bool)
    requires coord in squares
    ensures r <==> squares[coord].content == HitCell || squares[coord].content == MissCell
  {
    var status := squares[coord].Status();
    status == Hit || status == Miss
  }

  /** A square never both holds a ship and has been shot at. */
  lemma ShipAndShotExclusive(coord: string, squares: map<string, Square>)
    requires coord in squares
    ensures !(IsShipThere(coord, squares) && HaveAlreadyShot(coord, squares))
  {
  }

  /**
   * ValidShipLocation: the canonical coordinate when it is on the grid and
   * holds no ship yet; AlreadyFilled, naming the coordinate, when it does.
   */
  function ValidShipLocation(coord: string, squares: map<string, Square>): (r: Result<string>)
    requires forall c :: OnGrid(c) ==> c in squares
    ensures ValidCoOrdinates(coord).Err? ==> r == ValidCoOrdinates(coord)
    ensures r.Ok? <==> ValidCoOrdinates(coord).Ok? && !squares[ValidCoOrdinates(coord).value].content.ShipCell?
    ensures r.Ok? ==> r.value == ValidCoOrdinates(coord).value && OnGrid(r.value)
    ensures r.Err? && ValidCoOrdinates(coord).Ok? ==> r.error == AlreadyFilledAt(ValidCoOrdinates(coord).value)
  {
    match ValidCoOrdinates(coord)
    case Err(e) => Err(e)
    case Ok(c) => if IsShipThere(c, squares) then Err(AlreadyFilledAt(c)) else Ok(c)
  }

  /**
   * ValidShotTaken: true when the coordinate is on the grid and has not been
   * shot at; AlreadyShot when it has.  It never answers false.
   */
  function ValidShotTaken(coord: string, squares: map<string, Square>): (r: Result<bool>)
    requires forall c :: OnGrid(c) ==> c in squares
    ensures r != Ok(false)
    ensures ValidCoOrdinates(coord).Err? ==> r == Err(ValidCoOrdinates(coord).error)
    ensures r == Ok(true) <==> ValidCoOrdinates(coord).Ok? && !HaveAlreadyShot(ValidCoOrdinates(coord).value, squares)
    ensures r == Err(AlreadyShot) <==> ValidCoOrdinates(coord).Ok? && HaveAlreadyShot(ValidCoOrdinates(coord).value, squares)
  {
    match ValidCoOrdinates(coord)
    case Err(e) => Err(e)
    case Ok(c) =>
      if HaveAlreadyShot(c, squares) then Err(AlreadyShot)
      else
        assert c != "";
        Ok(c != "")
  }
}
