/**
 * The static configuration of the list-based generation: constant getters in
 * the source, constants here.  Unlike the grid generation it has no ship
 * table: every ship is one square and a player has `NumShips` of them.
 */
module OldConfig {
  import opened Lists

  /** Number of players in the game. */
  const NumPlayers: int := 2

  /** Number of ships (single squares) each player has. */
  const NumShips: int := 5

  /** Column labels (the X axis). */
  const ValidXLabels: seq<string> := ["1", "2", "3", "4", "5"]

  /** Row labels (the Y axis). */
  const ValidYLabels: seq<string> := ["A", "B", "C", "D", "E"]

  const GridXWidth: int := |ValidXLabels|
  const GridYWidth: int := |ValidYLabels|

  /** Number of characters of the row part of a coordinate: two once the grid is more than 26 rows high. */
  const RowLabelWidth: nat := if GridYWidth > 26 then 2 else 1

  const ShipMarker: string := "X"
  const HitMarker: string := "X"
  const MissMarker: string := "O"

  /** Two players with five ships each on a 5 by 5 grid whose rows take one character. */
  lemma NumberFacts()
    ensures NumPlayers == 2 && NumShips == 5
    ensures GridXWidth == |ValidXLabels| == 5 && GridYWidth == |ValidYLabels| == 5
    ensures RowLabelWidth == 1
  {
  }

  /** Rows A to E and columns 1 to 5, one character each, none repeated. */
  lemma LabelFacts()
    ensures forall y :: y in ValidYLabels ==> |y| == 1 && 'A' <= y[0] <= 'Z'
    ensures forall x :: x in ValidXLabels ==> |x| == 1 && '0' <= x[0] <= '9'
    ensures Distinct(ValidXLabels) && Distinct(ValidYLabels)
  {
  }

  /** Hits and ships share the marker "X"; a miss is shown as "O". */
  lemma MarkerFacts()
    ensures HitMarker == ShipMarker == "X" && MissMarker == "O" && HitMarker != MissMarker
  {
  }
}
