# Battleship console game: a verified model of its rules engine

This project models two generations of a two-player console Battleship game and
proves properties of the model.

**The grid-and-fleet generation ("Lite")** has these parts:

- **Configuration.** Two players, a five-ship table (Carrier 2, Battleship 2,
  Cruiser 1, Submarine 1, Destroyer 1), rows A–E and columns 1–5, and the
  display markers.
- **Squares.** Each square of a player's grid is empty, holds a ship, or
  records a hit or a miss. Each square shows a marker in setup mode and in
  play mode.
- **Ships.** A ship has a name, a facing and a list of coordinates. It counts
  hits and is Sunk once the hits equal its size.
- **Players.** A player has a name, an enemy index, a grid and a fleet.
- **The game.** The game holds the list of players.
- **Validation.**
  - Coordinates are upper-cased and split into a row and a column label.
  - Ship facings are read from their first letter.
  - A ship location must be on the grid and not already hold a ship.
  - A shot must be on the grid and not already shot.
- **Grid management.**
  - Placing the extra squares of a ship longer than one square, in each of
    the four facings.
  - Removing a ship from the grid.
  - Finding the enemy player.
  - Scoring a grid.
- **The rules.**
  - Setup: names, then ship facings and locations with retry and rollback.
    The rollback is the source's, which leaves a failed attempt's squares in
    the ship's list (see Findings); the corrected rollback is modelled
    beside it.
  - Turns: prompt for a shot, hit or miss, win check. The game ends when a
    player has sunk the whole enemy fleet.
  - Results.

**The list-based generation** keeps, for each player:

- a list of single-square ship locations;
- two lists of shots, the misses and the hits.

A player wins when they have hit as many squares as there are ships.

Each source class whose fields change is a Dafny `class` whose methods
`modify` those fields. Its lists are `seq` fields, and the grid is a `map`
from coordinate to square. Pure computations are functions. Source loops are
`while` loops with invariants. The methods are proved against specification
functions, for example:

- `Place` and `Cleared` for the grid;
- `Score` for the scoring;
- `Stored` and `Entry` for the list-based player.

**Exceptions and input.**

- Every exception the source throws becomes an error value (`GameError`) in a
  `Result` or `Outcome`. The catch-and-retry loops of the rules become loops
  over the remaining input lines.
- Console input is a sequence of lines, `input: seq<string>`. When it runs out
  before a loop is satisfied, the operation returns with its `ok`/`Some`
  result false/None.

## Model

| member | source | states |
|---|---|---|
| LiteConfig.ShipSizes | BattleshipLiteLibrary/Core/Configuration.cs:28-40 | every ship in the table occupies at least one square |
| LiteConfig.ShipNames | BattleshipLiteLibrary/Core/Configuration.cs:28-40 | the table holds exactly the five named ships, in the order of the `ShipOrder` sequence (the dictionary's insertion order) |
| LiteConfig.ShipOrderDistinct | BattleshipLiteLibrary/Core/Configuration.cs:32-37 | the five ship names are distinct |
| LiteConfig.ShipTableFacts | BattleshipLiteLibrary/Core/Configuration.cs:14-40 | two players; NumShips is the table's size, 5; the individual sizes 2, 2, 1, 1, 1 |
| LiteConfig.LabelFacts | BattleshipLiteLibrary/Core/Configuration.cs:44-81 | the grid is 5 by 5 and a row label takes one character (NumShips is not above 26) |
| LiteConfig.LabelShapes | BattleshipLiteLibrary/Core/Configuration.cs:61-81 | row labels are one upper-case letter, column labels one digit |
| LiteConfig.LabelsDistinct | BattleshipLiteLibrary/Core/Configuration.cs:61-81 | no label is repeated |
| LiteConfig.MarkerFacts | BattleshipLiteLibrary/Core/Configuration.cs:85-109 | ships and hits share "X", a miss is "O", blank is " ", and blank differs from both |
| LiteCodec.SplitWith | BattleshipLiteLibrary/Rules/GridManagement.cs:166-191 | blank input is BlankCoordinate, and a too-short input is an index error; otherwise the row part has the given width and row + column rebuilds the upper-cased input |
| LiteCodec.SplitCoOrdinates | BattleshipLiteLibrary/Rules/GridManagement.cs:166-191 | fails exactly on blank input; otherwise the row is the first upper-cased character and the column the rest |
| LiteCodec.ValidWith | BattleshipLiteLibrary/Rules/GridValidation.cs:17-51 | BlankCoordinate exactly for blank input; Ok exactly when both split parts are labels, and the result is the upper-cased input; otherwise InvalidCoordinate with "AC24" or "D3" by row width |
| LiteCodec.ValidCoOrdinates | BattleshipLiteLibrary/Rules/GridValidation.cs:17-51 | Ok exactly when the upper-cased input is a row label plus a column label, and the result is that canonical form on the grid; otherwise BlankCoordinate or InvalidCoordinate("D3") |
| LiteCodec.BlankIsNoCoordinate | BattleshipLiteLibrary/Rules/GridValidation.cs:19-23 | blank input is never a coordinate, so the two errors cannot overlap |
| LiteCodec.AllCoordsAreCoordinates | BattleshipLiteLibrary/Models/Grid.cs:34-41 | the coordinates built by the grid are exactly the strings that are a row label plus a column label |
| LiteCodec.OnGridIsAllCoords | BattleshipLiteLibrary/Models/Grid.cs:34-41 | the character-level test (letter A–E, digit 1–5) agrees with the grid's coordinate set |
| LiteCodec.RoundTrip | BattleshipLiteLibrary/Rules/GridValidation.cs:17-51 | validating a row label followed by a column label gives back that string |
| LiteCodec.Idempotent | BattleshipLiteLibrary/Rules/GridValidation.cs:17-51 | validating a validated coordinate gives the same result |
| LiteCodec.LowerCaseRow | BattleshipLiteLibrary/Rules/GridValidation.cs:39-50 | a lower-case row letter validates to the upper-case coordinate |
| LiteCodec.CanonicalIsFixedPoint | BattleshipLiteLibrary/Rules/GridValidation.cs:17-51 | a string validates to itself exactly when it is a grid coordinate |
| LiteCodec.OffGridExample | BattleshipLiteLibrary/Rules/GridValidation.cs:19-48 | "Z9" is InvalidCoordinate("D3"); "" and whitespace are BlankCoordinate |
| LiteSquares.Square.Status | BattleshipLiteLibrary/Rules/GridValidation.cs:143-159 | the grid status (reconstructed GetGridSquareMode) is Ship, Hit or Miss exactly for ship, hit and miss squares |
| LiteSquares.Square.GetPlayStatus | BattleshipLiteLibrary/Models/Square.cs:43-46 | in play, the hit marker exactly for a hit, the miss marker exactly for a miss, otherwise blank (ships hidden) |
| LiteSquares.Square.GetSetupStatus | BattleshipLiteLibrary/Models/Square.cs:51-54 | in setup, the ship marker exactly for a ship square, otherwise blank |
| LiteSquares.Square.GetStatus | BattleshipLiteLibrary/Models/Square.cs:32-38 | dispatches on the mode, and is non-blank exactly for shots in play or ships in setup |
| LiteSquares.NewSquare | BattleshipLiteLibrary/Models/Square.cs:20-23 | a new square keeps its coordinate, is Empty and blank in both modes |
| LiteSquares.NewHit | BattleshipLiteLibrary/Models/Hit.cs:9-41 | a hit square shows "X" in play and blank in setup |
| LiteSquares.NewMiss | BattleshipLiteLibrary/Models/Miss.cs:9-42 | a miss square shows "O" in play and blank in setup |
| LiteSquares.PlayMarkersClassify | BattleshipLiteLibrary/Rules/GridManagement.cs:131-142 | counting play markers counts hit and miss squares, and the setup marker identifies ship squares |
| LiteGrid.Grid.constructor | BattleshipLiteLibrary/Models/Grid.cs:31-43 | the new grid has one blank square per coordinate, each keyed by its own coordinate, 25 in all |
| LiteGrid.Grid.SetGridSquareMode | BattleshipLite/GamePlay/Rules.cs:233-242 | reconstructed setter: exactly one square replaced, and the grid stays well formed |
| LiteGrid.CoordinateCount | BattleshipLiteLibrary/Models/Grid.cs:34-41 | distinct one-character row labels times distinct column labels give that many coordinates |
| LiteGrid.AllCoordsCount | BattleshipLiteLibrary/Models/Grid.cs:34-41 | the grid has GridXWidth * GridYWidth = 25 coordinates |
| LiteShips.Struck | BattleshipLiteLibrary/Models/Ships.cs:99-106 | one hit more; Sunk exactly when already sunk or the hits reach the size, and Sunk stays Sunk |
| LiteShips.StruckConsistent | BattleshipLiteLibrary/Models/Ships.cs:99-106 | a ship is Sunk exactly when its hits reach its size, and each hit keeps that so |
| LiteShips.SunkAfterHits | BattleshipLiteLibrary/Models/Ships.cs:99-106 | after n hits a ship has n hits and is Sunk exactly when n reaches its size |
| LiteShips.Ship.Size | BattleshipLiteLibrary/Models/Ships.cs:35-41 | the size is the table's entry for the ship's name, at least 1 |
| LiteShips.Ship.constructor | BattleshipLiteLibrary/Models/Ships.cs:79-83 | a new ship keeps its name, faces Down, has no coordinates and is undamaged |
| LiteShips.Ship.AddCoOrdinate | BattleshipLiteLibrary/Models/Ships.cs:91-95 | appends the canonical coordinate exactly when it validates, otherwise fails with the validation error and changes nothing |
| LiteShips.Ship.SetCoOrdinates | BattleshipLiteLibrary/Models/Ships.cs:56-64 | the list is rebuilt from the canonical forms of the values, and stops at the first invalid one with its error |
| LiteShips.Ship.SetStatus | BattleshipLiteLibrary/Models/Ships.cs:67-71 | the public setter stores any status, even one the hit counter contradicts |
| LiteShips.Ship.ShipHit | BattleshipLiteLibrary/Models/Ships.cs:99-106 | the damage becomes Struck of the old damage, position and facing are unchanged, and a counter and status that agreed still agree |
| LiteShips.Ship.ShipHitAt | BattleshipLiteLibrary/Models/Ships.cs:111-117 | struck exactly when the target is one of its coordinates (stale ones included), otherwise unchanged; agreement of counter and status is kept |
| LiteShips.NewShip | BattleshipLiteLibrary/Models/Ships.cs:21-31 | a blank name is BlankName; otherwise a fresh undamaged ship facing Down |
| LitePlayers.GetNextPlayer | BattleshipLiteLibrary/Models/Game.cs:21-29 | the next index wraps to 0 at NumPlayers, stays in range and differs from the current player |
| LitePlayers.NextPlayerSwaps | BattleshipLiteLibrary/Models/Game.cs:21-29 | with two players the next player is the other one, and going twice comes back |
| LitePlayers.CountSunk | BattleshipLiteLibrary/Models/Player.cs:66-81 | the number of sunk ships is at most the fleet size |
| LitePlayers.AllSunk | BattleshipLiteLibrary/Models/Player.cs:66-81 | the sunk count equals the fleet size exactly when every ship is Sunk |
| LitePlayers.Player.Named | BattleshipLiteLibrary/Models/Player.cs:89-101 | keeps the name, creates a fresh blank grid and an empty fleet |
| LitePlayers.Player.constructor | BattleshipLiteLibrary/Models/Player.cs:107-111 | as above, with the enemy set to the next player after the given position |
| LitePlayers.Player.SetEnemyPlayer | BattleshipLiteLibrary/Models/Player.cs:30-43 | fails with TooManyPlayers exactly for an index of NumPlayers or more, otherwise records it |
| LitePlayers.Player.SunkShips | BattleshipLiteLibrary/Models/Player.cs:66-81 | the loop counts the sunk ships of the fleet |
| LitePlayers.Player.AddShip | BattleshipLiteLibrary/Rules/GridManagement.cs:33-35 | reconstructed: on a valid coordinate, appends it to the ship and marks that square with the ship; on an invalid one, the validation error and no change |
| LitePlayers.Player.FindShip | BattleshipLiteLibrary/Models/Player.cs:122-129 | the position of the last fleet ship of that name, or -1 exactly when there is none |
| LitePlayers.Player.AddShipSquare | BattleshipLiteLibrary/Models/Player.cs:119-146 | a new name joins the fleet; for a known name, the ship's first coordinate is added to the fleet ship's list unless already there; other ships unchanged; names stay distinct |
| LitePlayers.NewPlayer | BattleshipLiteLibrary/Models/Player.cs:89-111 | a blank name is BlankName; otherwise a fresh player with a blank grid, an empty fleet and the next player as enemy |
| LitePlayers.Game.constructor | BattleshipLiteLibrary/Models/Game.cs:12 | a new game has no players |
| LitePlayers.Game.TurnKeptReady | BattleshipLite/GamePlay/Rules.cs:160-181 | a turn that changes only the enemy's grid and ships keeps the game ready for play |
| LitePlayers.Game.KeptReady | BattleshipLite/GamePlay/Rules.cs:157-183 | a step that changes no player, grid or ship keeps the game ready for play |
| LiteValidation.ValidShipFacing | BattleshipLiteLibrary/Rules/GridValidation.cs:61-94 | empty text keeps the current facing; otherwise Ok exactly when the first letter, lower-cased, is d, l, r or u, giving that facing; else InvalidFacing |
| LiteValidation.FacingRoundTrip | BattleshipLiteLibrary/Rules/GridValidation.cs:66-84 | a facing's letter, in either case and followed by anything, reads back as that facing |
| LiteValidation.IsShipThere | BattleshipLiteLibrary/Rules/GridValidation.cs:143-147 | true exactly when the square holds a ship |
| LiteValidation.HaveAlreadyShot | BattleshipLiteLibrary/Rules/GridValidation.cs:154-159 | true exactly when the square records a hit or a miss |
| LiteValidation.ShipAndShotExclusive | BattleshipLiteLibrary/Rules/GridValidation.cs:143-159 | a square never both holds a ship and records a shot |
| LiteValidation.ValidShipLocation | BattleshipLiteLibrary/Rules/GridValidation.cs:101-113 | the canonical coordinate exactly when it validates and holds no ship; AlreadyFilledAt(coordinate) when it does; the validation error otherwise |
| LiteValidation.ValidShotTaken | BattleshipLiteLibrary/Rules/GridValidation.cs:123-136 | never false; true exactly when the coordinate validates and was not shot; AlreadyShot exactly when it was |
| LiteManagement.LabelIndex | BattleshipLiteLibrary/Rules/GridManagement.cs:198-212 | the last position of the label in the list, and 0 when it is absent |
| LiteManagement.CurrentIndex | BattleshipLiteLibrary/Rules/GridManagement.cs:198-212 | the loop computes LabelIndex |
| LiteManagement.AxisTags | BattleshipLiteLibrary/Rules/GridManagement.cs:26-68 | the labels each facing walks along are distinct one-character labels |
| LiteManagement.StepCoordOnGrid | BattleshipLiteLibrary/Rules/GridManagement.cs:33-75 | every coordinate a placement step builds from labels is on the grid |
| LiteManagement.StepCoordInjective | BattleshipLiteLibrary/Rules/GridManagement.cs:33-75 | different steps build different coordinates |
| LiteManagement.GiveSquare | BattleshipLiteLibrary/Rules/GridManagement.cs:34-35 | giving a square to a ship fails exactly when the square is missing or already holds a ship |
| LiteManagement.GiveSquareIsValidShipLocation | BattleshipLiteLibrary/Rules/GridManagement.cs:34-35 | giving a square is ValidShipLocation followed by AddShip: same success, same error, same new grid and list |
| LiteManagement.PlaceDone | BattleshipLiteLibrary/Rules/GridManagement.cs:27-36 | no remaining steps leave everything as it is |
| LiteManagement.PlaceOffAxis | BattleshipLiteLibrary/Rules/GridManagement.cs:29-32 | a step past the edge fails with TooCloseToEdge |
| LiteManagement.PlaceStepFail | BattleshipLiteLibrary/Rules/GridManagement.cs:33-35 | a refused square stops the placement with its error, and earlier squares stay given |
| LiteManagement.PlaceStepPass | BattleshipLiteLibrary/Rules/GridManagement.cs:33-35 | an accepted square continues with the next step |
| LiteManagement.PlaceKeepsKeys | BattleshipLiteLibrary/Rules/GridManagement.cs:17-82 | placement never adds or removes grid squares |
| LiteManagement.PlaceAppends | BattleshipLiteLibrary/Rules/GridManagement.cs:17-82 | placement only appends to the ship's coordinate list |
| LiteManagement.Cells | BattleshipLiteLibrary/Rules/GridManagement.cs:27-78 | a placement covers as many cells as it takes steps |
| LiteManagement.Mark | BattleshipLiteLibrary/Rules/GridManagement.cs:35-77 | marking keeps the squares' keys and leaves every other square alone |
| LiteManagement.FreeCons | BattleshipLiteLibrary/Rules/GridManagement.cs:29-35 | a run is free exactly when its first cell is in range, on the grid, shipless, and the rest is free |
| LiteManagement.FreeAfterGiving | BattleshipLiteLibrary/Rules/GridManagement.cs:33-35 | giving an earlier cell does not change whether the later cells are free |
| LiteManagement.MarkCons | BattleshipLiteLibrary/Rules/GridManagement.cs:35-77 | marking one cell and then the rest is marking them all |
| LiteManagement.PlaceSucceedsIffFree | BattleshipLiteLibrary/Rules/GridManagement.cs:17-82 | the placement passes exactly when every cell it walks is on the axis and shipless |
| LiteManagement.PlacedCoords | BattleshipLiteLibrary/Rules/GridManagement.cs:17-82 | a successful placement appends exactly its cells, in order, to the ship's list |
| LiteManagement.PlacedSquares | BattleshipLiteLibrary/Rules/GridManagement.cs:17-82 | a successful placement marks exactly its cells with the ship |
| LiteManagement.LeftUpEdgeFailsFirst | BattleshipLiteLibrary/Rules/GridManagement.cs:41-46 | facing Left or Up, a ship that does not fit fails before any square is given |
| LiteManagement.DownEdgeFailsAfterPlacing | BattleshipLiteLibrary/Rules/GridManagement.cs:25-36 | facing Down, a three-square ship at D1 gives E1 and then fails at the edge, leaving E1 given |
| LiteManagement.SingleSquareAddsNothing | BattleshipLiteLibrary/Rules/GridManagement.cs:27 | a one-square ship gets no extra squares |
| LiteManagement.PlaceSquare | BattleshipLiteLibrary/Rules/GridManagement.cs:34-35 | ValidShipLocation then AddShip change the grid and the ship's list as GiveSquare says |
| LiteManagement.PlaceAt | BattleshipLiteLibrary/Rules/GridManagement.cs:29-35 | one loop step: the edge check and one square, as the first step of Place |
| LiteManagement.PlaceForward | BattleshipLiteLibrary/Rules/GridManagement.cs:25-66 | the Down and Right loops (i from 1 upward) compute Place from the first extra index |
| LiteManagement.PlaceBackward | BattleshipLiteLibrary/Rules/GridManagement.cs:39-80 | the Left and Up loops (i from size-1 downward) compute Place from the first extra index |
| LiteManagement.SplitIsUpper | BattleshipLiteLibrary/Rules/GridManagement.cs:166-191 | both split parts are upper case |
| LiteManagement.ExtraSquaresOfSplit | BattleshipLiteLibrary/Rules/GridManagement.cs:17-82 | the extra squares are a placement along the facing's axis from the prow's index |
| LiteManagement.AddLargeShipExtraSquares | BattleshipLiteLibrary/Rules/GridManagement.cs:17-82 | the grid, the ship's list and the outcome are those of ExtraSquares |
| LiteManagement.ClearedWithin | BattleshipLiteLibrary/Rules/GridManagement.cs:95-105 | clearing part of the grid keeps its keys |
| LiteManagement.Cleared | BattleshipLiteLibrary/Rules/GridManagement.cs:88-106 | no square holds the ship any more, and squares not holding it are unchanged |
| LiteManagement.ClearedNowhere | BattleshipLiteLibrary/Rules/GridManagement.cs:95-105 | clearing nothing leaves the grid as it is |
| LiteManagement.ClearedEverywhere | BattleshipLiteLibrary/Rules/GridManagement.cs:95-105 | clearing every key is Cleared |
| LiteManagement.ClearUndoesMark | BattleshipLiteLibrary/Rules/GridManagement.cs:88-106 | removing a ship marked on blank squares restores the grid |
| LiteManagement.RemoveFromColumn | BattleshipLiteLibrary/Rules/GridManagement.cs:97-104 | the inner loop clears one column |
| LiteManagement.ClearedAllColumns | BattleshipLiteLibrary/Rules/GridManagement.cs:95-105 | walking every column and row covers the grid, and the result keeps the grid well formed |
| LiteManagement.RemoveShip | BattleshipLiteLibrary/Rules/GridManagement.cs:88-106 | the new grid is Cleared of the ship |
| LiteManagement.GetEnemyPlayer | BattleshipLiteLibrary/Rules/GridManagement.cs:116-120 | Ok exactly when the enemy index is within the player list, otherwise an index error |
| LiteManagement.EnemyIsOther | BattleshipLiteLibrary/Rules/GridManagement.cs:116-120 | in a ready game the enemy of each player is the other player |
| LiteManagement.Score | BattleshipLiteLibrary/Rules/GridManagement.cs:126-157 | hits ≤ shots ≤ number of squares |
| LiteManagement.ScoreOnGrid | BattleshipLiteLibrary/Rules/GridManagement.cs:126-157 | on a full grid, hits ≤ shots ≤ 25 |
| LiteManagement.ScoreStep | BattleshipLiteLibrary/Rules/GridManagement.cs:131-142 | one more square adds one hit for a hit, one shot for a hit or a miss |
| LiteManagement.ScoreEverywhere | BattleshipLiteLibrary/Rules/GridManagement.cs:131-142 | counting over all keys gives Score, with shots = hits + misses |
| LiteManagement.CalculateScore | BattleshipLiteLibrary/Rules/GridManagement.cs:126-157 | the loop returns Score of the player's grid |
| LiteManagement.ScoreAfterHit | BattleshipLite/GamePlay/Rules.cs:231-237 | a hit on an unshot square adds one hit and one shot |
| LiteManagement.ScoreAfterMiss | BattleshipLite/GamePlay/Rules.cs:240-243 | a miss on an unshot square adds one shot and no hit |
| LiteManagement.OnlyGivesTrans | BattleshipLiteLibrary/Rules/GridManagement.cs:17-82 | giving squares to one ship twice is giving squares to it |
| LiteManagement.PlaceOnlyGives | BattleshipLiteLibrary/Rules/GridManagement.cs:17-82 | placement only turns free squares into the ship's squares, and its list matches the grid |
| LiteManagement.GiveOnlyGives | BattleshipLiteLibrary/Rules/GridManagement.cs:34-35 | giving one free square keeps the ship's list matching the grid |
| LiteManagement.ExtraOnlyGives | BattleshipLiteLibrary/Rules/GridManagement.cs:17-82 | the extra squares only give free squares to the ship |
| LiteManagement.SplitOnlyGives | BattleshipLiteLibrary/Rules/GridManagement.cs:17-82 | the same, from the split prow |
| LiteManagement.SaveOnlyGives | BattleshipLite/GamePlay/Rules.cs:87 | saving a ship, successful or not, only gives free squares to it |
| LiteManagement.PlaceAfterStale | BattleshipLiteLibrary/Rules/GridManagement.cs:17-82 | entries already in the ship's list change neither the grid nor the outcome of a run of extra squares; the new squares are appended after them |
| LiteManagement.ExtraAfterStale | BattleshipLiteLibrary/Rules/GridManagement.cs:17-82 | the same for AddLargeShipExtraSquares |
| LiteManagement.SaveAfterStale | BattleshipLite/GamePlay/Rules.cs:87 | the same for SaveShip: a retry after a failed attempt does to the grid what a first attempt does, and appends to the old list |
| LiteManagement.OthersStaySettled | BattleshipLite/GamePlay/Rules.cs:67-103 | placing one ship keeps every other ship's list settled: on the grid, and ending with exactly its squares |
| LiteManagement.OthersStayAligned | BattleshipLite/GamePlay/Rules.cs:67-103 | placing one ship leaves every other ship's list matching the grid |
| LiteManagement.ClearKeepsOthersAligned | BattleshipLite/GamePlay/Rules.cs:93-99 | removing one ship leaves every other ship's list matching the grid |
| LiteManagement.SetupGridKept | BattleshipLite/GamePlay/Rules.cs:78-102 | placement and removal keep a setup grid free of shots |
| LiteManagement.RemovalRestoresGrid | BattleshipLite/GamePlay/Rules.cs:93-99 | removing a ship after a failed attempt restores the grid from before the attempt |
| LiteManagement.StaleCoordinatesAfterRemoval | BattleshipLite/GamePlay/Rules.cs:87-99 | as written, a failed Carrier at E1 facing Down keeps E1 in its list after RemoveShip, though the grid no longer gives it E1 |
| LiteManagement.JoinFleet | BattleshipLiteLibrary/Models/Player.cs:119-146 | a ship with its prow joins the fleet unless its name is there; other ships unchanged; names distinct |
| LiteManagement.SaveProw | BattleshipLite/GamePlay/Rules.cs:87 | reconstructed SaveShip step: the prow is given to the ship and the ship joins the fleet |
| LiteManagement.SaveShip | BattleshipLite/GamePlay/Rules.cs:87 | reconstructed: the grid, list and outcome are SaveSquares; the facing is set and the fleet joined only once the prow is valid |
| LiteManagement.ResetShip | BattleshipLite/GamePlay/Rules.cs:93-99 | the corrected rollback (see Findings), not the source's: RemoveShip and the ship's list emptied too; grid Cleared, list empty, the two agree |
| LiteRules.ReadPlayer | BattleshipLite/GamePlay/Rules.cs:28-41 | skips blank names; the first non-blank line becomes a fresh player with the next player as enemy |
| LiteRules.SetUpPlayer | BattleshipLite/GamePlay/Rules.cs:24-46 | on success one new player is appended, with a full fleet placed |
| LiteRules.SetupGame | BattleshipLite/GamePlay/Rules.cs:17-47 | on success the game is ready: two distinct players, each the other's enemy, with all ships placed |
| LiteRules.GetShipFacing | BattleshipLite/GamePlay/Rules.cs:116-142 | a one-square ship keeps its facing; otherwise the first line that ValidShipFacing accepts, all before it refused |
| LiteRules.NotOwnedHoldsNothing | BattleshipLite/GamePlay/Rules.cs:67-103 | a ship not yet placed holds no square |
| LiteRules.OwnedAfterGiving | BattleshipLite/GamePlay/Rules.cs:67-103 | after placing a ship, every ship square belongs to a placed ship |
| LiteRules.TryShipLocation | BattleshipLite/GamePlay/Rules.cs:84-101 | one attempt succeeds exactly when SaveShip does, which needs a valid prow; success gives the ship exactly the new squares, appended to its list; with the source's rollback (RemoveShip only) a failure restores the grid but leaves the squares it gave in the list; with `clearList` (the corrected ResetShip) the list is emptied |
| LiteRules.PlaceShip | BattleshipLite/GamePlay/Rules.cs:69-102 | the retry loop for one ship: on success the ship joins the fleet and only free squares become its own; the list names exactly the ship's squares from index `stale` on, the earlier entries being left over from failed attempts (none with `clearList`); when the input runs out the grid is the one from before |
| LiteRules.GetShipLocations | BattleshipLite/GamePlay/Rules.cs:64-110 | as written: on success the fleet is the table's ships in order, undamaged, each list on the grid and ending with exactly the ship's squares, after any stale entries of failed attempts |
| LiteRules.GetShipLocationsWithReset | BattleshipLite/GamePlay/Rules.cs:64-110 | the corrected flow (see Findings): the same, with every list naming exactly the ship's squares |
| LiteRules.PlaceFleet | BattleshipLite/GamePlay/Rules.cs:67-103 | the loop over a list of distinct ship names: on success the fleet has those names in that order, undamaged, each list settled on the grid, and matching it exactly with `clearList` |
| LiteRules.ShotAcceptedIsValidShot | BattleshipLite/GamePlay/Rules.cs:202-209 | an input line is accepted exactly when ValidShotTaken is true for it upper-cased |
| LiteRules.ReadShot | BattleshipLite/GamePlay/Rules.cs:199-217 | the first accepted line, upper-cased, is an unshot grid coordinate; the lines before it were refused |
| LiteRules.PromptForShot | BattleshipLite/GamePlay/Rules.cs:194-220 | the same, against the enemy's grid |
| LiteRules.ShipsHit | BattleshipLite/GamePlay/Rules.cs:234-237 | each ship is struck exactly when the target is one of its coordinates |
| LiteRules.CheckIfHit | BattleshipLite/GamePlay/Rules.cs:227-245 | a ship square becomes a hit and the ships holding it are struck; any other square becomes a miss |
| LiteRules.WhoHasWon | BattleshipLite/GamePlay/Rules.cs:251-263 | the shooter's name exactly when the whole enemy fleet is sunk, otherwise "" |
| LiteRules.ScoreAfterShot | BattleshipLite/GamePlay/Rules.cs:227-245 | a shot adds one shot, and one hit exactly when it struck a ship |
| LiteRules.Shoot | BattleshipLite/GamePlay/Rules.cs:171-174 | a valid unshot target is marked on the enemy's grid |
| LiteRules.TakeTurn | BattleshipLite/GamePlay/Rules.cs:163-181 | one turn marks one new square of the enemy; the shooter wins exactly when the enemy fleet is sunk |
| LiteRules.PlayTurn | BattleshipLite/GamePlay/Rules.cs:160-182 | the game stays ready; the enemy grid's shot count grows by one exactly when the turn was played, and the other grid's not at all |
| LiteRules.PlayRound | BattleshipLite/GamePlay/Rules.cs:157-183 | once a player has won, no one shoots: the second player fires only when the first did not win |
| LiteRules.PlayUntilWon | BattleshipLite/GamePlay/Rules.cs:156-183 | ends with a winner whose enemy fleet is sunk, or at the end of the input; the first player has fired as often as the second, or once more |
| LiteRules.DisplayResults | BattleshipLite/GamePlay/Rules.cs:269-282 | one line per player with that player's name and the score on the enemy grid, hits ≤ shots; an index error if an enemy is missing |
| LiteRules.RunTheGame | BattleshipLite/GamePlay/Rules.cs:150-187 | the winner sank the loser's fleet, the shot counts differ by at most one, and the results score each player on the other's grid |
| LiteRules.Announce | BattleshipLite/GamePlay/Rules.cs:185 | in a ready game the results always exist and score each player on the other's grid |
| OldConfig.NumberFacts | BattleshipLibrary/Core/Configuration.cs:11-35 | two players, five ships, a 5 by 5 grid, one-character rows |
| OldConfig.LabelFacts | BattleshipLibrary/Core/Configuration.cs:42-62 | rows are one upper-case letter, columns one digit, none repeated |
| OldConfig.MarkerFacts | BattleshipLibrary/Core/Configuration.cs:66-83 | ships and hits share "X", a miss is "O" |
| OldValidation.ValidWith | BattleshipLibrary/GridValidation.cs:16-55 | BlankCoordinate exactly for blank input; Ok exactly when the upper-cased row part and the column part as typed are labels, giving their concatenation |
| OldValidation.ValidCoOrdinates | BattleshipLibrary/GridValidation.cs:16-55 | with one-character rows, only the row letter is upper-cased, and the result is a grid coordinate |
| OldValidation.RoundTrip | BattleshipLibrary/GridValidation.cs:16-55 | a row label plus a column label validates to itself |
| OldValidation.Idempotent | BattleshipLibrary/GridValidation.cs:16-55 | validating twice is validating once |
| OldValidation.UpperIsCanonical | BattleshipLibrary/GridValidation.cs:43-54 | input without lower-case letters comes back unchanged |
| OldValidation.LowerCaseRow | BattleshipLibrary/GridValidation.cs:18-54 | "d3" gives "D3", "" is blank and "Z9" is InvalidCoordinate("D3") |
| OldValidation.IsShipThere | BattleshipLibrary/GridValidation.cs:103-106 | true exactly when the coordinate is one of the ship locations |
| OldValidation.ValidShipLocation | BattleshipLibrary/GridValidation.cs:62-74 | the canonical coordinate exactly when it validates and is not a ship location; AlreadyFilled when it is |
| OldValidation.ValidShotTaken | BattleshipLibrary/GridValidation.cs:81-95 | never false; true exactly when the canonical coordinate is in neither shot list; AlreadyShot exactly when it is in one |
| OldPlayers.GetNextPlayer | BattleshipLibrary/Models/PlayersList.cs:18-26 | wraps to 0 at NumPlayers, stays in range and differs from the current player |
| OldPlayers.NextPlayerSwaps | BattleshipLibrary/Models/PlayersList.cs:18-26 | with two players the next player is the other one |
| OldPlayers.Entry | BattleshipLibrary/Models/Player.cs:84-93 | Ok exactly for an index within the list, giving that entry; too far is the getter's error, negative an index error |
| OldPlayers.Stored | BattleshipLibrary/Models/Player.cs:108-116 | an index at or past the end appends, a smaller one overwrites, a negative one is an index error; other entries unchanged |
| OldPlayers.StoredKeepsDistinct | BattleshipLibrary/Models/Player.cs:99-118 | storing a new value keeps a list without repetitions so |
| OldPlayers.StoredKeepsCoordinates | BattleshipLibrary/Models/Player.cs:99-118 | storing a coordinate keeps a list of coordinates so |
| OldPlayers.Player.Named | BattleshipLibrary/Models/Player.cs:202-211 | keeps the name; all three lists empty |
| OldPlayers.Player.constructor | BattleshipLibrary/Models/Player.cs:217-221 | as above, with the enemy set to the next player |
| OldPlayers.Player.SetEnemyPlayer | BattleshipLibrary/Models/Player.cs:31-44 | TooManyPlayers exactly for an index of NumPlayers or more, otherwise recorded |
| OldPlayers.Player.ShipLocation | BattleshipLibrary/Models/Player.cs:84-93 | the entry, TooManyShips(index) past the end |
| OldPlayers.Player.SetShipLocation | BattleshipLibrary/Models/Player.cs:99-118 | the canonical location is stored as Stored says, after ValidShipLocation; locations stay distinct |
| OldPlayers.Player.ShotMissed | BattleshipLibrary/Models/Player.cs:125-134 | the entry, TooManyShots(index) past the end |
| OldPlayers.Player.SetShotMissed | BattleshipLibrary/Models/Player.cs:140-156 | after ValidShotTaken, the coordinate as given is stored as Stored says |
| OldPlayers.Player.ShotHit | BattleshipLibrary/Models/Player.cs:163-172 | the entry, TooManyShots(index) past the end |
| OldPlayers.Player.SetShotHit | BattleshipLibrary/Models/Player.cs:178-194 | after ValidShotTaken, the coordinate as given is stored as Stored says |
| OldPlayers.NewPlayer | BattleshipLibrary/Models/Player.cs:202-221 | a blank name is BlankName; otherwise a fresh player with empty lists and the next player as enemy |
| OldPlayers.RawShotRepeats | BattleshipLibrary/Models/Player.cs:140-156 | a lower-case shot "a1" passes validation twice and is stored twice |
| OldPlayers.UpperShotsStayDistinct | BattleshipLibrary/Models/Player.cs:140-194 | upper-case shots appended after validation keep all shots distinct |
| OldPlayers.HitsCountShips | Rules.cs:212-222 | with fair shot lists, hits never exceed NumShips, and reach it exactly when every enemy ship location was hit |
| OldPlayers.PlayersList.constructor | BattleshipLibrary/Models/PlayersList.cs:11 | a new list has no players |
| OldRules.ReadPlayer | Rules.cs:28-41 | skips blank names; the first non-blank line becomes a fresh player |
| OldRules.ReadShipLocation | Rules.cs:76-98 | the first accepted line's canonical coordinate is appended; the lines before it were refused |
| OldRules.GetShipLocations | Rules.cs:64-106 | on success, NumShips distinct grid coordinates |
| OldRules.SetUpPlayer | Rules.cs:24-46 | on success one armed player is appended, with no shots |
| OldRules.SetupGame | Rules.cs:17-47 | on success the list is ready: two armed players, each the other's enemy, with no shots |
| OldRules.PromptForShot | Rules.cs:155-187 | the first accepted line, upper-cased, is a coordinate in neither shot list |
| OldRules.CheckIfHit | Rules.cs:194-206 | the shot is appended to the hits exactly when it is an enemy ship location, otherwise to the misses |
| OldRules.WhoHasWon | Rules.cs:212-222 | the name exactly when the hits reach NumShips |
| OldRules.Shots | Rules.cs:234-235 | shots are at least the hits |
| OldRules.TakeTurn | Rules.cs:127-144 | one new shot is recorded; the shooter wins exactly when every enemy location was hit |
| OldRules.PlayRound | Rules.cs:121-146 | once a player has won, no one shoots |
| OldRules.PlayUntilWon | Rules.cs:120-146 | a winner has hit every enemy location; the first player has fired as often as the second, or once more |
| OldRules.DisplayResults | Rules.cs:228-238 | the winner's name is announced; then one line per player: name, hits, hits + misses, with hits ≤ shots |
| OldRules.RunTheGame | Rules.cs:114-149 | ship locations unchanged; the winner hit every enemy location; the winner's line shows NumShips hits |

## Left out

- Console output is not modelled: messages, screen clearing, prompts and
  `Messages.cs`. Grid drawing (`GridShow.cs`, root `Grid.cs`) is not modelled
  either. Input is a finite sequence of lines. Where the source would wait
  forever for a valid line, the model stops at the end of the input and
  reports it.
- `Program.cs` and the root `program.cs` (the entry points that build a game
  and call setup and play) are not part of this model.
- The source's `Errors.cs` message texts are not modelled. Each error is a
  `GameError` constructor. .NET list-index and Substring bound violations are
  `IndexOutOfRange`.
- **Reconstructions.** `SaveShip`, `Player.AddShip`,
  `Grid.GetGridSquareMode`/`SetGridSquareMode` and the enum `GridStatus` are
  called by the source, but their definitions are not part of the source
  files. They are reconstructed from their call sites:
  - a grid square's content is `EmptyCell`, `ShipCell(name)`, `HitCell` or
    `MissCell`;
  - GetGridSquareMode is `Square.Status`;
  - in setup a ship square shows the ship marker.
- LiteManagement.RemoveShip: the source compares each grid entry with the
  ship object by reference. The model identifies a ship's squares by the
  ship's name, which is unique in the ship table.
- The two-character row branch (`NumShips > 26` in SplitCoOrdinates,
  `GridYWidth > 26` in the old ValidCoOrdinates) is dead with the shipped
  configuration. It is kept as the `width` parameter of `SplitWith` and
  `ValidWith`, with its "AC24" example.
- LiteRules.SetupGame and OldRules.SetupGame require an empty player list. The
  source appends to whatever list it is given and then indexes it by player
  number, which assumes the list starts empty.
- OldRules.ReadShipLocation requires the index to be the current number of
  locations, which is how GetShipLocations calls it. Overwriting a stored
  location is covered by `Player.SetShipLocation` and `Stored`.
- LiteRules.CheckIfHit requires the target to be a square of the enemy's grid,
  as every caller's validated target is. The reconstructed GetGridSquareMode
  is not modelled on a missing key.
- LiteShips.Ship.Size, LiteManagement.AddLargeShipExtraSquares,
  LiteManagement.SaveShip and LiteRules.GetShipFacing require the ship's name
  to be in the ship table. The source looks the size up in the table, and a
  missing name would be a dictionary exception that no caller handles.
- LiteValidation.ValidShipLocation and LiteValidation.ValidShotTaken require
  the grid to hold every coordinate. The Grid constructor guarantees this.
- OldRules.RunTheGame names the whole player objects in its frame and states
  that their ship locations are unchanged. This replaces a frame of only the
  shot lists.
- OldPlayers.Player.SetShotMissed and SetShotHit store the coordinate as given,
  not its canonical form, as the source does. A lower-case shot can therefore
  be stored twice (`RawShotRepeats`). The game itself always upper-cases shots
  first (`UpperShotsStayDistinct`).
- Uncaught exceptions end the source program. In the model, the getters'
  TooManyShips/TooManyShots errors and a missing enemy index are error values.
  The rules call the getters only right after a successful store, and look up
  the enemy only in a ready game, where these errors cannot occur.
- Case conversion (`ToUpper`, `ToLower` in `Text`) maps only the ASCII
  letters. .NET's conversions follow the culture's Unicode mappings. The
  labels A–E and 1–5 and the facing letters are ASCII, so no outcome of the
  game depends on the difference.
- Ship damage is tracked as a hit count and a status, as in the source. The
  count is unbounded `int`. Five ships of at most two squares cannot overflow
  a 32-bit counter.

## Findings

| source | as written | input that shows it | evidently intended | confidence | as-written member | corrected member |
|---|---|---|---|---|---|---|
| BattleshipLite/GamePlay/Rules.cs:93 and BattleshipLiteLibrary/Rules/GridManagement.cs:88-106 | after a failed SaveShip, RemoveShip clears the ship from the grid, but the ship's coordinate list keeps the squares it was given | Carrier with prow E1 facing Down: E1 is given, then the edge is reached; after a retry at A1 the Carrier's list is [E1, A1, B1]. If E1 later holds another ship, a shot at E1 is a hit (Rules.cs:231-237) and also strikes the Carrier, so the Carrier can be Sunk with B1 never hit. A shot at an empty E1 is a miss and strikes nothing | the rollback also empties the ship's coordinate list, so the list and the grid agree | not executed | LiteManagement.StaleCoordinatesAfterRemoval and LiteRules.GetShipLocations (over LiteManagement.RemoveShip) | LiteManagement.ResetShip and LiteRules.GetShipLocationsWithReset |
