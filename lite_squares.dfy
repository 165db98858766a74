/**
 * Grid squares.  The source has a class per kind of square (`Square` for an
 * empty square, `Hit`, `Miss`), each holding the coordinate it was built
 * with and answering its display marker by game mode.  Here one datatype
 * holds the coordinate and the kind of content, and the ship occupying a
 * square is recorded by the ship's name.
 */
module LiteSquares {
  import opened LiteEnums
  import opened LiteConfig

  /** What a square holds. */
  datatype Content = EmptyCell | ShipCell(shipName: string) | HitCell | MissCell

  /** A grid square: the coordinate it was created with (read-only) and its content. */
  datatype Square = Square(coord: string, content: Content)
  {
    /** The square's status, as the display code sees it. */
    function Status(): (s: GridStatus)
      ensures s == Ship <==> content.ShipCell?
      ensures s == Hit <==> content == HitCell
      ensures s == Miss <==> content == MissCell
    {
      match content
      case EmptyCell => GridStatus.Empty
      case ShipCell(_) => GridStatus.Ship
      case HitCell => GridStatus.Hit
      case MissCell => GridStatus.Miss
    }

    /**
     * GetPlayStatus: the marker shown while shots are taken.  Only hits and
     * misses are visible; a ship square looks blank.
     */
    function GetPlayStatus(): (m: string)
      ensures m == HitMarker <==> content == HitCell
      ensures m == MissMarker <==> content == MissCell
      ensures m == BlankMarker <==> !(content == HitCell || content == MissCell)
    {
      match content
      case HitCell => HitMarker
      case MissCell => MissMarker
      case _ => BlankMarker
    }

    /**
     * GetSetupStatus: the marker shown while ships are placed.  Only ships
     * are visible; hits and misses look blank.
     */
    function GetSetupStatus(): (m: string)
      ensures m == ShipMarker <==> content.ShipCell?
      ensures m == BlankMarker <==> !content.ShipCell?
    {
      match content
      case ShipCell(_) => ShipMarker
      case _ => BlankMarker
    }

    /** GetStatus: the marker for the given mode. */
    function GetStatus(mode: GameMode): (m: string)
      ensures m != BlankMarker <==>
                (mode == Play && (content == HitCell || content == MissCell))
                || (mode == Setup && content.ShipCell?)
      ensures mode == Setup ==> m == GetSetupStatus()
      ensures mode == Play ==> m == GetPlayStatus()
    {
      match mode
      case Setup => GetSetupStatus()
      case Play => GetPlayStatus()
    }
  }

  /** The three square classes of the source: an empty `Square`, a `Hit` and a `Miss`. */
  function NewSquare(coord: string): (sq: Square)
    ensures sq.coord == coord && sq.Status() == GridStatus.Empty
    ensures forall mode :: sq.GetStatus(mode) == BlankMarker
  {
    Square(coord, EmptyCell)
  }

  function NewHit(coord: string): (sq: Square)
    ensures sq.coord == coord && sq.Status() == GridStatus.Hit
    ensures sq.GetStatus(Play) == HitMarker && sq.GetStatus(Setup) == BlankMarker
  {
    Square(coord, HitCell)
  }

  function NewMiss(coord: string): (sq: Square)
    ensures sq.coord == coord && sq.Status() == GridStatus.Miss
    ensures sq.GetStatus(Play) == MissMarker && sq.GetStatus(Setup) == BlankMarker
  {
    Square(coord, MissCell)
  }

  /** In play the hit marker singles out hit squares, though it equals the ship marker. */
  lemma PlayMarkersClassify(sq: Square)
    ensures sq.GetStatus(Play) == HitMarker <==> sq.Status() == Hit
    ensures sq.GetStatus(Play) == MissMarker <==> sq.Status() == Miss
    ensures sq.GetStatus(Setup) == ShipMarker <==> sq.Status() == Ship
  {
  }
}
