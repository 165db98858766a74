/** The enumerations of the grid-and-fleet engine. */
module LiteEnums {

  /** Whether the grid is being shown while ships are placed or while shots are taken. */
  datatype GameMode = Play | Setup

  /** The direction in which a ship extends from its prow. */
  datatype Orientation = Down | Left | Right | Up

  /** Whether a ship is still afloat. */
  datatype ShipStatus = Safe | Sunk

  /** The status of one grid square (the values the display code switches on). */
  datatype GridStatus = Empty | Ship | Hit | Miss
}
