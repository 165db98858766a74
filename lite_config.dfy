/**
 * The static configuration of the grid-and-fleet engine: a set of constant
 * getters in the source, constants here.
 */
module LiteConfig {
  import opened Lists

  /** Number of players in the game. */
  const NumPlayers: int := 2

  /** The ship table: ship name to the number of squares it occupies. */
  const ShipsList: map<string, nat> :=
    map["Carrier" := 2, "Battleship" := 2, "Cruiser" := 1, "Submarine" := 1, "Destroyer" := 1]

  /** The order in which the ship table's entries are enumerated (their insertion order). */
  const ShipOrder: seq<string> := ["Carrier", "Battleship", "Cruiser", "Submarine", "Destroyer"]

  /** Number of ships each player has: the number of entries of the ship table (ShipTableFacts). */
  const NumShips: int := 5

  /** Column labels (the X axis). */
  const ValidXLabels: seq<string> := ["1", "2", "3", "4", "5"]

  /** Row labels (the Y axis). */
  const ValidYLabels: seq<string> := ["A", "B", "C", "D", "E"]

  const GridXWidth: int := |ValidXLabels|
  const GridYWidth: int := |ValidYLabels|

  /** Number of characters of the row part of a coordinate: two once there are more than 26 ships. */
  const RowLabelWidth: nat := if NumShips > 26 then 2 else 1

  const ShipMarker: string := "X"
  const HitMarker: string := "X"
  const MissMarker: string := "O"
  const BlankMarker: string := " "

  /** Every ship of the table is at least one square long. */
  lemma ShipSizes()
    ensures forall n :: n in ShipsList ==> ShipsList[n] >= 1
  {
  }

  /** The ship table has exactly the five names of the enumeration order as keys. */
  lemma ShipNames()
    ensures ShipsList.Keys == {"Carrier", "Battleship", "Cruiser", "Submarine", "Destroyer"}
    ensures forall n :: n in ShipsList <==> n in ShipOrder
  {
  }

  /** The five names are different from each other. */
  lemma ShipOrderDistinct()
    ensures Distinct(ShipOrder) && |ShipOrder| == 5
  {
    assert "Carrier"[1] == 'a' && "Cruiser"[1] == 'r';
  }

  /** Two players; five ships, enumerated once each, every one at least one square long. */
  lemma ShipTableFacts()
    ensures NumPlayers == 2
    ensures NumShips == |ShipsList| == 5 == |ShipOrder|
    ensures Distinct(ShipOrder)
    ensures forall n :: n in ShipsList <==> n in ShipOrder
    ensures ShipsList["Carrier"] == 2 && ShipsList["Battleship"] == 2
    ensures ShipsList["Cruiser"] == 1 && ShipsList["Submarine"] == 1 && ShipsList["Destroyer"] == 1
    ensures forall n :: n in ShipsList ==> ShipsList[n] >= 1
  {
    ShipSizes();
    ShipNames();
    ShipOrderDistinct();
    assert |{"Carrier", "Battleship", "Cruiser", "Submarine", "Destroyer"}| == 5;
  }

  /** A 5 by 5 grid: rows A to E, columns 1 to 5. */
  lemma LabelFacts()
    ensures GridXWidth == |ValidXLabels| == 5 && GridYWidth == |ValidYLabels| == 5
    ensures RowLabelWidth == 1
  {
    ShipTableFacts();
  }

  /** Every row label is one upper-case letter and every column label one digit. */
  lemma LabelShapes()
    ensures forall y :: y in ValidYLabels ==> |y| == 1 && 'A' <= y[0] <= 'Z'
    ensures forall x :: x in ValidXLabels ==> |x| == 1 && '0' <= x[0] <= '9'
  {
  }

  /** No label occurs twice on either axis. */
  lemma LabelsDistinct()
    ensures Distinct(ValidXLabels) && Distinct(ValidYLabels)
  {
  }

  /** Hits and ships share a marker; misses and blanks are told apart from both and each other. */
  lemma MarkerFacts()
    ensures HitMarker == ShipMarker == "X" && MissMarker == "O" && BlankMarker == " "
    ensures BlankMarker != HitMarker && BlankMarker != MissMarker && HitMarker != MissMarker
  {
  }
}
