/**
 * The rules of play driven from the console: placing each player's fleet,
 * taking shots in turn until one player has sunk the other's fleet, and
 * reporting the scores.  Console input is a sequence of lines; a method
 * that reads returns how many lines it used and stops when they run out.
 * Screen output is not modelled.
 */
module LiteRules {
  import opened Outcomes
  import opened Text
  import opened Lists
  import opened LiteEnums
  import opened LiteConfig
  import opened LiteCodec
  import opened LiteSquares
  import opened LiteGrid
  import opened LiteShips
  import opened LitePlayers
  import opened LiteValidation
  import opened LiteManagement

  /**
   * The do-while loop of SetupGame for one player: names are read until
   * the Player constructor accepts one, that is until a name is not empty.
   * None when the lines run out first.
   */
  method ReadPlayer(position: int, input: seq<string>) returns (player: Option<Player>, used: nat)
    ensures used <= |input|
    ensures player.Some? ==>
              1 <= used && player.value.name == input[used - 1] && player.value.name != ""
              && (forall k :: 0 <= k < used - 1 ==> input[k] == "")
              && fresh(player.value) && fresh(player.value.grid) && player.value.Valid()
              && player.value.enemy == GetNextPlayer(position) && player.value.ships == []
              && forall c :: c in player.value.grid.squares ==> player.value.grid.squares[c] == NewSquare(c)
    ensures player.None? ==> used == |input| && forall k :: 0 <= k < |input| ==> input[k] == ""
  {
    used := 0;
    while used < |input|
      invariant used <= |input| && forall k :: 0 <= k < used ==> input[k] == ""
    {
      var playerName := input[used];
      used := used + 1;
      var newPlayer := NewPlayer(playerName, position);
      if newPlayer.Ok? {
        return Some(newPlayer.value), used;
      }
    }
    return None, used;
  }

  /**
   * One pass of the player loop of SetupGame: the player numbered
   * `playerNum` (from 1) is read, added to the game and attacks the next
   * position; then GetShipLocations places the ship table on their grid.
   */
  method SetUpPlayer(game: Game, playerNum: int, input: seq<string>) returns (ok: bool, used: nat)
    requires |game.players| == playerNum - 1
    modifies game
    ensures used <= |input|
    ensures ok ==> |game.players| == playerNum && game.players[..playerNum - 1] == old(game.players)
    ensures ok ==> var p := game.players[playerNum - 1];
                   fresh(p) && fresh(p.grid) && p.Ready(playerNum - 1)
                   && forall i :: 0 <= i < |p.ships| ==> fresh(p.ships[i])
  {
    var newPlayer, n := ReadPlayer(|game.players|, input);
    used := n;
    if newPlayer.None? {
      return false, used;
    }
    game.players := game.players + [newPlayer.value];
    var m;
    ok, m := GetShipLocations(game.players[playerNum - 1], input[used..]);
    used := used + m;
  }

  /**
   * SetupGame on a new game: each of the two players in turn is read,
   * added and has their fleet placed.  When the input lasts, the game is
   * ready to be played: two named players attacking each other, each with
   * the whole ship table on a grid of their own.
   */
  method SetupGame(game: Game, input: seq<string>) returns (ok: bool, used: nat)
    requires game.players == []
    modifies game
    ensures used <= |input|
    ensures ok ==> game.Ready()
  {
    used := 0;
    for playerNum := 1 to NumPlayers + 1
      invariant |game.players| == playerNum - 1 && used <= |input|
      invariant forall j :: 0 <= j < playerNum - 1 ==> game.players[j].Ready(j)
      invariant forall j :: 0 <= j < playerNum - 1 ==> fresh(game.players[j]) && fresh(game.players[j].grid)
      invariant playerNum == NumPlayers + 1 ==> Apart(game.players[0], game.players[1])
    {
      var n;
      ok, n := SetUpPlayer(game, playerNum, input[used..]);
      used := used + n;
      if !ok {
        return;
      }
    }
    ok := true;
  }

  /**
   * GetShipFacing: a ship of one square keeps its facing and reads nothing;
   * a longer ship reads lines until ValidShipFacing accepts one.  None when
   * the lines run out first.
   */
  method GetShipFacing(ship: Ship, input: seq<string>) returns (facing: Option<Orientation>, used: nat)
    requires ship.name in ShipsList
    ensures used <= |input|
    ensures ship.Size() <= 1 ==> facing == Some(ship.facing) && used == 0
    ensures ship.Size() > 1 && facing.Some? ==>
              1 <= used && ValidShipFacing(input[used - 1], ship.facing) == Ok(facing.value)
              && forall k :: 0 <= k < used - 1 ==> ValidShipFacing(input[k], ship.facing).Err?
    ensures facing.None? ==>
              ship.Size() > 1 && used == |input| && forall k :: 0 <= k < |input| ==> ValidShipFacing(input[k], ship.facing).Err?
  {
    facing := Some(ship.facing);
    used := 0;
    if ship.Size() > 1 {
      var hasValidFacing := false;
      while !hasValidFacing
        invariant used <= |input|
        invariant !hasValidFacing ==> forall k :: 0 <= k < used ==> ValidShipFacing(input[k], ship.facing).Err?
        invariant hasValidFacing ==>
                    1 <= used && facing.Some? && ValidShipFacing(input[used - 1], ship.facing) == Ok(facing.value)
                    && forall k :: 0 <= k < used - 1 ==> ValidShipFacing(input[k], ship.facing).Err?
        decreases |input| - used, !hasValidFacing
      {
        if used == |input| {
          return None, used;
        }
        var valid := ValidShipFacing(input[used], ship.facing);
        used := used + 1;
        if valid.Ok? {
          facing := Some(valid.value);
          hasValidFacing := true;
        }
      }
    }
  }

  /** Every square holding a ship holds one of the named ships. */
  predicate Owned(squares: map<string, Square>, names: seq<string>)
  {
    forall c :: c in squares && squares[c].content.ShipCell? ==> squares[c].content.shipName in names
  }

  /** A ship whose name is not among the owners holds no square. */
  lemma NotOwnedHoldsNothing(squares: map<string, Square>, names: seq<string>, name: string)
    requires Owned(squares, names) && name !in names
    ensures forall c :: c in squares ==> squares[c].content != ShipCell(name)
  {
  }

  /** Giving squares to a ship adds it to the owners. */
  lemma OwnedAfterGiving(before: map<string, Square>, after: map<string, Square>, names: seq<string>, name: string)
    requires Owned(before, names) && OnlyGives(before, after, name)
    ensures Owned(after, names + [name])
  {
  }

  /**
   * One pass of the do-while loop of GetShipLocations: SaveShip, and on
   * failure the rollback.  As the source has it (`clearList` false) the
   * rollback is RemoveShip alone: the grid is restored, and the squares
   * given before the failure stay in the ship's list.  With `clearList` it
   * is ResetShip, which empties the list as well.
   */
  method TryShipLocation(prow: string, facing: Orientation, ship: Ship, player: Player, clearList: bool)
    returns (placed: bool)
    requires player.grid.Valid() && ship.name in ShipsList && Distinct(Names(player.ships))
    requires SetupGrid(player.grid.squares)
    requires forall c :: c in player.grid.squares ==> player.grid.squares[c].content != ShipCell(ship.name)
    requires forall c :: c in ship.coords ==> c in player.grid.squares
    modifies player.grid, ship`coords, ship`facing, player`ships, player.ships`coords
    ensures var q := SaveSquares(old(player.grid.squares), [], prow, facing, ship.name, ship.Size());
            (placed <==> q.outcome.Pass?)
            && (placed ==> player.grid.squares == q.squares && ship.coords == old(ship.coords) + q.coords)
            && (!placed && !clearList ==> ship.coords == old(ship.coords) + q.coords)
    ensures placed ==> ValidShipLocation(prow, old(player.grid.squares)).Ok?
    ensures ValidShipLocation(prow, old(player.grid.squares)).Err? ==> player.ships == old(player.ships)
    ensures ValidShipLocation(prow, old(player.grid.squares)).Ok? ==>
              player.ships == if ship.name in Names(old(player.ships)) then old(player.ships) else old(player.ships) + [ship]
    ensures forall s :: s in old(player.ships) && s.name != ship.name ==> s.coords == old(s.coords)
    ensures !placed ==> player.grid.squares == old(player.grid.squares)
    ensures !placed && clearList ==> ship.coords == []
    ensures placed ==> OnlyGives(old(player.grid.squares), player.grid.squares, ship.name)
                       && Aligned(player.grid.squares, ship.coords[|old(ship.coords)|..], ship.name)
    ensures forall c :: c in ship.coords ==> c in player.grid.squares
    ensures Distinct(Names(player.ships))
    ensures player.grid.Valid() && SetupGrid(player.grid.squares)
  {
    ghost var squares, coords := player.grid.squares, ship.coords;
    ghost var q := SaveSquares(squares, [], prow, facing, ship.name, ship.Size());
    SaveOnlyGives(squares, [], prow, facing, ship.name, ship.Size());
    SaveAfterStale(squares, coords, prow, facing, ship.name, ship.Size());
    var out := SaveShip(prow, facing, ship, player);
    assert player.grid.squares == q.squares && ship.coords == coords + q.coords;
    assert ship.coords[|coords|..] == q.coords;
    SetupGridKept(squares, player.grid.squares, ship.name);
    placed := out.Pass?;
    if !placed {
      RemovalRestoresGrid(squares, player.grid.squares, ship.name);
      if clearList {
        ResetShip(ship, player);
      } else {
        RemoveShip(ship, player);
      }
    }
  }

  /**
   * The do-while loop of GetShipLocations for one ship: a facing and a prow
   * are read and tried until one holds.  In the end the grid differs from
   * the one before only by squares given to the ship.  The ship's list
   * names exactly those squares from position `stale` on; the entries
   * before it are left over from failed attempts, and there are none when
   * the rollback empties the list.  When the input runs out first, the grid
   * is the one from before.
   */
  method PlaceShip(ship: Ship, player: Player, input: seq<string>, clearList: bool)
    returns (ok: bool, used: nat, ghost stale: nat)
    requires player.grid.Valid() && SetupGrid(player.grid.squares) && ship.name in ShipsList
    requires ship.name !in Names(player.ships) && Distinct(Names(player.ships))
    requires ship.coords == [] && forall c :: c in player.grid.squares ==> player.grid.squares[c].content != ShipCell(ship.name)
    modifies player.grid, ship`coords, ship`facing, player`ships, player.ships`coords
    ensures used <= |input|
    ensures ok ==> player.ships == old(player.ships) + [ship]
    ensures !ok ==> player.ships == old(player.ships) || player.ships == old(player.ships) + [ship]
    ensures forall s :: s in old(player.ships) ==> s.coords == old(s.coords)
    ensures !ok ==> player.grid.squares == old(player.grid.squares)
    ensures OnlyGives(old(player.grid.squares), player.grid.squares, ship.name)
    ensures stale <= |ship.coords| && Aligned(player.grid.squares, ship.coords[stale..], ship.name)
    ensures clearList ==> stale == 0
    ensures forall c :: c in ship.coords ==> c in player.grid.squares
    ensures player.grid.Valid() && SetupGrid(player.grid.squares)
    ensures Distinct(Names(player.ships))
  {
    ghost var before, fleet := player.grid.squares, player.ships;
    assert ship.name in Names(fleet + [ship]) by {
      assert Names(fleet + [ship])[|fleet|] == ship.name;
    }
    ok, used, stale := false, 0, 0;
    ghost var joined := false;
    while !ok
      invariant used <= |input|
      invariant player.ships == if joined then fleet + [ship] else fleet
      invariant ok ==> joined
      invariant forall s :: s in fleet ==> s.coords == old(s.coords)
      invariant Distinct(Names(player.ships))
      invariant !ok ==> player.grid.squares == before && stale == |ship.coords|
      invariant OnlyGives(before, player.grid.squares, ship.name)
      invariant stale <= |ship.coords| && Aligned(player.grid.squares, ship.coords[stale..], ship.name)
      invariant clearList ==> stale == 0
      invariant forall c :: c in ship.coords ==> c in player.grid.squares
      invariant player.grid.Valid() && SetupGrid(player.grid.squares)
      decreases |input| - used, !ok
    {
      var facing, n := GetShipFacing(ship, input[used..]);
      used := used + n;
      if facing.None? || used == |input| {
        return false, used, stale;
      }
      var shipCoOrds := ToUpper(input[used]);
      used := used + 1;
      ghost var located := ValidShipLocation(shipCoOrds, player.grid.squares).Ok?;
      ok := TryShipLocation(shipCoOrds, facing.value, ship, player, clearList);
      joined := joined || located;
      if !ok {
        stale := |ship.coords|;
      }
    }
  }

  /**
   * GetShipLocations: every entry of the ship table, in its enumeration
   * order, becomes a new ship placed on the player's grid.  When the input
   * lasts, the fleet is the five ships of the table, once each, and every
   * ship's list ends with exactly the squares that hold it, after whatever
   * its failed attempts left in it.
   */
  method GetShipLocations(player: Player, input: seq<string>) returns (ok: bool, used: nat)
    requires player.grid.Valid() && SetupGrid(player.grid.squares) && player.ships == []
    requires forall c :: c in player.grid.squares ==> !player.grid.squares[c].content.ShipCell?
    modifies player`ships, player.grid
    ensures used <= |input|
    ensures player.grid.Valid() && SetupGrid(player.grid.squares)
    ensures ok ==> Names(player.ships) == ShipOrder && player.Valid()
    ensures ok ==> forall i :: 0 <= i < |player.ships| ==>
                     fresh(player.ships[i]) && player.ships[i].State() == Undamaged
                     && Settled(player.grid.squares, player.ships[i].coords, player.ships[i].name)
  {
    ShipOrderDistinct();
    ShipNames();
    ok, used := PlaceFleet(player, ShipOrder, input, false);
  }

  /**
   * GetShipLocations with the corrected rollback, ResetShip: every ship's
   * list names exactly the squares that hold it.
   */
  method GetShipLocationsWithReset(player: Player, input: seq<string>) returns (ok: bool, used: nat)
    requires player.grid.Valid() && SetupGrid(player.grid.squares) && player.ships == []
    requires forall c :: c in player.grid.squares ==> !player.grid.squares[c].content.ShipCell?
    modifies player`ships, player.grid
    ensures used <= |input|
    ensures player.grid.Valid() && SetupGrid(player.grid.squares)
    ensures ok ==> Names(player.ships) == ShipOrder && player.Valid()
    ensures ok ==> forall i :: 0 <= i < |player.ships| ==>
                     fresh(player.ships[i]) && player.ships[i].State() == Undamaged
                     && Aligned(player.grid.squares, player.ships[i].coords, player.ships[i].name)
  {
    ShipOrderDistinct();
    ShipNames();
    ok, used := PlaceFleet(player, ShipOrder, input, true);
  }

  /** The loop of GetShipLocations over the names of the ship table. */
  method PlaceFleet(player: Player, order: seq<string>, input: seq<string>, clearList: bool) returns (ok: bool, used: nat)
    requires player.grid.Valid() && SetupGrid(player.grid.squares) && player.ships == []
    requires forall c :: c in player.grid.squares ==> !player.grid.squares[c].content.ShipCell?
    requires Distinct(order) && forall n :: n in order ==> n in ShipsList && n != ""
    modifies player`ships, player.grid
    ensures used <= |input|
    ensures player.grid.Valid() && SetupGrid(player.grid.squares)
    ensures ok ==> Names(player.ships) == order && player.Valid()
    ensures ok ==> forall i :: 0 <= i < |player.ships| ==>
                     fresh(player.ships[i]) && player.ships[i].State() == Undamaged
                     && Settled(player.grid.squares, player.ships[i].coords, player.ships[i].name)
                     && (clearList ==> Aligned(player.grid.squares, player.ships[i].coords, player.ships[i].name))
  {
    used := 0;
    var k := 0;
    while k < |order|
      invariant 0 <= k <= |order| && used <= |input|
      invariant Names(player.ships) == order[..k]
      invariant forall i :: 0 <= i < k ==>
                  fresh(player.ships[i]) && player.ships[i].State() == Undamaged
                  && Settled(player.grid.squares, player.ships[i].coords, player.ships[i].name)
                  && (clearList ==> Aligned(player.grid.squares, player.ships[i].coords, player.ships[i].name))
      invariant Owned(player.grid.squares, order[..k])
      invariant player.grid.Valid() && SetupGrid(player.grid.squares)
    {
      var name := order[k];
      assert name in order && name != "";
      var currentShip := new Ship(name);
      assert name !in order[..k];
      NotOwnedHoldsNothing(player.grid.squares, order[..k], name);
      ghost var squares, fleet := player.grid.squares, player.ships;
      var placedOk, n;
      ghost var stale;
      placedOk, n, stale := PlaceShip(currentShip, player, input[used..], clearList);
      used := used + n;
      if !placedOk {
        return false, used;
      }
      forall i | 0 <= i < k
        ensures Settled(player.grid.squares, player.ships[i].coords, player.ships[i].name)
        ensures clearList ==> Aligned(player.grid.squares, player.ships[i].coords, player.ships[i].name)
      {
        OthersStaySettled(squares, player.grid.squares, name, fleet[i].coords, fleet[i].name);
        if clearList {
          OthersStayAligned(squares, player.grid.squares, name, fleet[i].coords, fleet[i].name);
        }
      }
      assert Aligned(player.grid.squares, currentShip.coords[stale..], name);
      assert clearList ==> currentShip.coords[stale..] == currentShip.coords;
      OwnedAfterGiving(squares, player.grid.squares, order[..k], name);
      assert order[..k] + [name] == order[..k + 1];
      k := k + 1;
    }
    assert order[..k] == order;
    ok := true;
  }

  /** A line PromptForShot accepts on a grid: upper-cased, it names a square not shot at yet. */
  predicate ShotAccepted(line: string, squares: map<string, Square>)
    requires forall c :: OnGrid(c) ==> c in squares
  {
    var t := ToUpper(line);
    OnGrid(t) && !HaveAlreadyShot(t, squares)
  }

  /** ShotAccepted is exactly ValidShotTaken's success on the upper-cased line. */
  lemma ShotAcceptedIsValidShot(line: string, squares: map<string, Square>)
    requires forall c :: OnGrid(c) ==> c in squares
    ensures ShotAccepted(line, squares) <==> ValidShotTaken(ToUpper(line), squares) == Ok(true)
  {
    var t := ToUpper(line);
    ToUpperIsUpper(line);
    ToUpperFixesUpper(t);
    AllCoordsAreCoordinates(t);
    OnGridIsAllCoords(t);
  }

  /** No line of `lines` is accepted as a shot on the grid. */
  predicate Refused(lines: seq<string>, squares: map<string, Square>)
    requires forall c :: OnGrid(c) ==> c in squares
  {
    forall k :: 0 <= k < |lines| ==> !ShotAccepted(lines[k], squares)
  }

  /** A refused line extends a run of refused lines. */
  lemma RefusedSnoc(lines: seq<string>, line: string, squares: map<string, Square>)
    requires forall c :: OnGrid(c) ==> c in squares
    requires Refused(lines, squares) && !ShotAccepted(line, squares)
    ensures Refused(lines + [line], squares)
  {
    assert forall k :: 0 <= k < |lines| ==> (lines + [line])[k] == lines[k];
  }

  /**
   * The do-while loop of PromptForShot on the enemy's grid: reads lines,
   * upper-cased, until one is accepted; the lines before it are refused.
   * The shot returned is a square of the grid in canonical form, not shot at
   * before.  None when the lines run out first.
   */
  method ReadShot(squares: map<string, Square>, input: seq<string>) returns (target: Option<string>, used: nat)
    requires forall c :: OnGrid(c) ==> c in squares
    ensures used <= |input|
    ensures target.Some? ==>
              1 <= used && target.value == ToUpper(input[used - 1])
              && ShotAccepted(input[used - 1], squares) && Refused(input[..used - 1], squares)
              && OnGrid(target.value)
              && target.value in squares && !HaveAlreadyShot(target.value, squares)
    ensures target.None? ==> used == |input| && Refused(input, squares)
  {
    used := 0;
    while true
      invariant used <= |input|
      invariant Refused(input[..used], squares)
      decreases |input| - used
    {
      if used == |input| {
        assert input[..used] == input;
        return None, used;
      }
      var line := input[used];
      var targetCoOrds := ToUpper(line);
      used := used + 1;
      var valid := ValidShotTaken(targetCoOrds, squares);
      ShotAcceptedIsValidShot(line, squares);
      if valid.Err? || !valid.value {
        targetCoOrds := "";
        RefusedSnoc(input[..used - 1], line, squares);
        assert input[..used - 1] + [line] == input[..used];
      }
      if targetCoOrds != "" {
        return Some(targetCoOrds), used;
      }
    }
  }

  /**
   * PromptForShot: ReadShot on the enemy's grid.  The enemy lookup gives the
   * same answer for every line, so it is made once; when the player's enemy
   * index is outside the game every line is refused.
   */
  method PromptForShot(player: Player, game: Game, input: seq<string>) returns (target: Option<string>, used: nat)
    requires GetEnemyPlayer(player, game).Ok? ==> GetEnemyPlayer(player, game).value.grid.Valid()
    ensures used <= |input|
    ensures GetEnemyPlayer(player, game).Err? ==> target.None? && used == |input|
    ensures GetEnemyPlayer(player, game).Ok? && target.Some? ==>
              var squares := GetEnemyPlayer(player, game).value.grid.squares;
              1 <= used && target.value == ToUpper(input[used - 1])
              && ShotAccepted(input[used - 1], squares) && Refused(input[..used - 1], squares)
              && OnGrid(target.value)
              && target.value in squares && !HaveAlreadyShot(target.value, squares)
    ensures GetEnemyPlayer(player, game).Ok? && target.None? ==>
              used == |input| && Refused(input, GetEnemyPlayer(player, game).value.grid.squares)
  {
    var enemyPlayer := GetEnemyPlayer(player, game);
    if enemyPlayer.Err? {
      return None, |input|;
    }
    target, used := ReadShot(enemyPlayer.value.grid.squares, input);
  }

  /**
   * The foreach loop of CheckIfHit: every ship of the fleet is told of the
   * hit, and a ship takes it exactly when its list holds the square.
   */
  method ShipsHit(ships: seq<Ship>, target: string)
    requires Distinct(Names(ships)) && forall j :: 0 <= j < |ships| ==> ships[j].Valid()
    modifies ships
    ensures forall j :: 0 <= j < |ships| ==>
              ships[j].Valid() && ships[j].coords == old(ships[j].coords)
              && ships[j].State() == if target in ships[j].coords then Struck(old(ships[j].State()), ships[j].Size()) else old(ships[j].State())
  {
    var i := 0;
    while i < |ships|
      invariant 0 <= i <= |ships|
      invariant forall j :: 0 <= j < |ships| ==> ships[j].Valid() && ships[j].coords == old(ships[j].coords)
      invariant forall j :: 0 <= j < i ==>
                  ships[j].State() == if target in ships[j].coords then Struck(old(ships[j].State()), ships[j].Size()) else old(ships[j].State())
      invariant forall j :: i <= j < |ships| ==> ships[j].State() == old(ships[j].State())
    {
      assert forall j :: 0 <= j < |ships| && j != i ==> Names(ships)[j] != Names(ships)[i];
      ships[i].ShipHitAt(target);
      i := i + 1;
    }
  }

  /**
   * CheckIfHit: the enemy's square becomes Hit when it held a ship and Miss
   * otherwise, and on a hit every enemy ship whose list holds the square
   * takes the hit.  Only the enemy's grid and ships change, and the enemy
   * stays valid.
   */
  method CheckIfHit(target: string, player: Player, game: Game)
    requires GetEnemyPlayer(player, game).Ok?
    requires GetEnemyPlayer(player, game).value.Valid()
    requires target in GetEnemyPlayer(player, game).value.grid.squares
    modifies GetEnemyPlayer(player, game).value.grid, GetEnemyPlayer(player, game).value.ships
    ensures GetEnemyPlayer(player, game).value.Valid()
    ensures var enemy := GetEnemyPlayer(player, game).value;
            var wasShip := old(enemy.grid.squares[target].content.ShipCell?);
            enemy.grid.squares == old(enemy.grid.squares)[target := if wasShip then NewHit(target) else NewMiss(target)]
    ensures var enemy := GetEnemyPlayer(player, game).value;
            var wasShip := old(enemy.grid.squares[target].content.ShipCell?);
            forall j :: 0 <= j < |enemy.ships| ==>
              enemy.ships[j].coords == old(enemy.ships[j].coords)
              && enemy.ships[j].State() == if wasShip && target in enemy.ships[j].coords
                                           then Struck(old(enemy.ships[j].State()), enemy.ships[j].Size())
                                           else old(enemy.ships[j].State())
  {
    var enemyPlayer := GetEnemyPlayer(player, game).value;
    if IsShipThere(target, enemyPlayer.grid.squares) {
      enemyPlayer.grid.SetGridSquareMode(target, HitCell);
      ShipsHit(enemyPlayer.ships, target);
    } else {
      enemyPlayer.grid.SetGridSquareMode(target, MissCell);
    }
  }

  /**
   * WhoHasWon: the player's name once every ship of a full enemy fleet is
   * sunk, and the empty string until then.
   */
  method WhoHasWon(player: Player, game: Game) returns (winnerName: string)
    requires GetEnemyPlayer(player, game).Ok?
    ensures winnerName == "" || winnerName == player.name
    ensures var enemy := GetEnemyPlayer(player, game).value;
            player.name != "" && |enemy.ships| == NumShips ==>
              (winnerName != "" <==> FleetSunk(enemy.ships))
  {
    winnerName := "";
    var enemyPlayer := GetEnemyPlayer(player, game).value;
    var sunk := enemyPlayer.SunkShips();
    if sunk == NumShips {
      winnerName := player.name;
    }
    AllSunk(enemyPlayer.ships);
  }

  /** A grid's squares once CheckIfHit has marked `c`: a hit where a ship was, a miss elsewhere. */
  function Marked(squares: map<string, Square>, c: string): map<string, Square>
    requires c in squares
  {
    squares[c := if squares[c].content.ShipCell? then NewHit(c) else NewMiss(c)]
  }

  /** The square CheckIfHit marks counts one more shot, and one more hit when it held a ship. */
  lemma ScoreAfterShot(before: map<string, Square>, c: string)
    requires c in before && !HaveAlreadyShot(c, before)
    ensures Score(Marked(before, c)).1 == Score(before).1 + 1
    ensures Score(Marked(before, c)).0 == Score(before).0 + if before[c].content.ShipCell? then 1 else 0
  {
    if before[c].content.ShipCell? {
      ScoreAfterHit(before, c);
    } else {
      ScoreAfterMiss(before, c);
    }
  }

  /**
   * The shot of one turn: PromptForShot, then CheckIfHit on the square it
   * returns.  The shot marks one square of the enemy's grid that had not
   * been shot at; ok is false, and nothing changes, when the lines run out.
   */
  method Shoot(player: Player, game: Game, input: seq<string>) returns (used: nat, ok: bool, ghost shot: string)
    requires GetEnemyPlayer(player, game).Ok? && GetEnemyPlayer(player, game).value.Valid()
    modifies GetEnemyPlayer(player, game).value.grid, GetEnemyPlayer(player, game).value.ships
    ensures GetEnemyPlayer(player, game).value.Valid() && used <= |input|
    ensures !ok ==> used == |input| && unchanged(GetEnemyPlayer(player, game).value.grid)
    ensures var before := old(GetEnemyPlayer(player, game).value.grid.squares);
            ok ==> 1 <= used && shot == ToUpper(input[used - 1]) && shot in before && !HaveAlreadyShot(shot, before)
                   && GetEnemyPlayer(player, game).value.grid.squares == Marked(before, shot)
  {
    var target, n := PromptForShot(player, game, input);
    used := n;
    if target.None? {
      return used, false, "";
    }
    shot := target.value;
    CheckIfHit(target.value, player, game);
    ok := true;
  }

  /**
   * One turn of RunTheGame for `player`, whose enemy RunTheGame has looked
   * up: Shoot, then WhoHasWon.  The shot marks one fresh square of the
   * enemy's grid; the player's name comes back exactly when that turn
   * leaves every ship of a full enemy fleet sunk.
   */
  method TakeTurn(player: Player, enemy: Player, game: Game, input: seq<string>) returns (winnerName: string, used: nat, ok: bool, ghost shot: string)
    requires GetEnemyPlayer(player, game) == Ok(enemy) && enemy.Valid() && Apart(player, enemy)
    modifies enemy.grid, enemy.ships
    ensures enemy.Valid() && used <= |input|
    ensures unchanged(game, player, enemy, player.grid) && forall s | s in player.ships :: unchanged(s)
    ensures !ok ==> used == |input| && winnerName == "" && unchanged(enemy.grid)
    ensures ok ==> 1 <= used && shot in old(enemy.grid.squares) && !HaveAlreadyShot(shot, old(enemy.grid.squares))
                   && enemy.grid.squares == Marked(old(enemy.grid.squares), shot)
    ensures winnerName == "" || winnerName == player.name
    ensures ok && player.name != "" && |enemy.ships| == NumShips ==> (winnerName != "" <==> FleetSunk(enemy.ships))
  {
    used, ok, shot := Shoot(player, game, input);
    if !ok {
      return "", used, ok, shot;
    }
    winnerName := WhoHasWon(player, game);
  }

  /**
   * TakeTurn for the player at position `k` of a game ready to be played:
   * its enemy is the other player, an accepted shot is one more shot on
   * the enemy's grid, the game stays ready, and a winner is the shooter,
   * named exactly when the enemy's fleet is sunk.
   */
  method PlayTurn(game: Game, k: int, p0: Player, p1: Player, input: seq<string>) returns (winnerName: string, used: nat, ok: bool)
    requires game.Ready() && game.players == [p0, p1] && 0 <= k < NumPlayers
    modifies (if k == 0 then p1 else p0).grid, (if k == 0 then p1 else p0).ships
    ensures game.Ready() && unchanged(game, p0, p1)
    ensures used <= |input|
    ensures !ok ==> used == |input| && winnerName == ""
    ensures ok ==> 1 <= used
    ensures Score(p1.grid.squares).1 == old(Score(p1.grid.squares).1) + if ok && k == 0 then 1 else 0
    ensures Score(p0.grid.squares).1 == old(Score(p0.grid.squares).1) + if ok && k == 1 then 1 else 0
    ensures winnerName != "" && k == 0 ==> winnerName == p0.name && FleetSunk(p1.ships)
    ensures winnerName != "" && k == 1 ==> winnerName == p1.name && FleetSunk(p0.ships)
    ensures ok && winnerName == "" ==> !FleetSunk((if k == 0 then p1 else p0).ships)
  {
    var shooter, enemy := p0, p1;
    if k == 1 {
      shooter, enemy := p1, p0;
    }
    ghost var shot;
    winnerName, used, ok, shot := TakeTurn(shooter, enemy, game, input);
    game.TurnKeptReady(k);
    if ok {
      ScoreAfterShot(old(enemy.grid.squares), shot);
    }
  }

  /** One line of DisplayResults: a player's name, hits and shots. */
  datatype ScoreLine = ScoreLine(name: string, hits: int, shots: int)

  /** What DisplayResults shows: the winner, then one score line per player. */
  datatype Results = Results(winner: string, lines: seq<ScoreLine>)

  /** The score line of the player at `j`: their name and the score on their enemy's grid. */
  ghost function LineOf(game: Game, j: int): ScoreLine
    requires 0 <= j < |game.players| && GetEnemyPlayer(game.players[j], game).Ok?
    reads game, game.players[j], GetEnemyPlayer(game.players[j], game).value
    reads GetEnemyPlayer(game.players[j], game).value.grid
  {
    var score := Score(GetEnemyPlayer(game.players[j], game).value.grid.squares);
    ScoreLine(game.players[j].name, score.0, score.1)
  }

  /**
   * DisplayResults: the winner's name, then for every player in turn order
   * the hits and shots recorded on that player's enemy's grid.  The enemy
   * lookup throws when a player's enemy index is outside the game.
   */
  method DisplayResults(winnerName: string, game: Game) returns (r: Result<Results>)
    ensures r.Ok? <==> forall k :: 0 <= k < |game.players| ==> GetEnemyPlayer(game.players[k], game).Ok?
    ensures r.Err? ==> r.error == IndexOutOfRange
    ensures r.Ok? ==>
              r.value.winner == winnerName && |r.value.lines| == |game.players|
              && forall k :: 0 <= k < |game.players| ==>
                   var score := Score(GetEnemyPlayer(game.players[k], game).value.grid.squares);
                   r.value.lines[k] == ScoreLine(game.players[k].name, score.0, score.1)
                   && 0 <= r.value.lines[k].hits <= r.value.lines[k].shots
  {
    var lines: seq<ScoreLine> := [];
    for k := 0 to |game.players|
      invariant |lines| == k
      invariant forall j :: 0 <= j < k ==> old(GetEnemyPlayer(game.players[j], game)).Ok?
      invariant forall j :: 0 <= j < k ==> lines[j] == old(LineOf(game, j))
    {
      var enemyPlayer := GetEnemyPlayer(game.players[k], game);
      assert enemyPlayer == old(GetEnemyPlayer(game.players[k], game));
      if enemyPlayer.Err? {
        return Err(enemyPlayer.error);
      }
      ghost var squares := enemyPlayer.value.grid.squares;
      assert squares == old(enemyPlayer.value.grid.squares);
      var numHits, numShots := CalculateScore(enemyPlayer.value);
      assert (numHits, numShots) == Score(squares);
      lines := lines + [ScoreLine(game.players[k].name, numHits, numShots)];
    }
    return Ok(Results(winnerName, lines));
  }

  /**
   * One round of RunTheGame's do-while loop: the foreach over the players in
   * turn order, a player taking a turn only while there is no winner.
   */
  method PlayRound(game: Game, p0: Player, p1: Player, input: seq<string>) returns (winnerName: string, used: nat, ok: bool, ghost w: int)
    requires game.Ready() && game.players == [p0, p1]
    modifies p0.grid, p1.grid, p0.ships, p1.ships
    ensures game.Ready() && unchanged(game, p0, p1)
    ensures used <= |input|
    ensures !ok ==> used == |input| && winnerName == ""
    ensures ok ==> 1 <= used
    ensures winnerName != "" ==> w == 0 || w == 1
    ensures winnerName != "" && w == 0 ==> winnerName == p0.name && FleetSunk(p1.ships)
    ensures winnerName != "" && w == 1 ==> winnerName == p1.name && FleetSunk(p0.ships)
    ensures var by0, by1 := Score(p1.grid.squares).1 - old(Score(p1.grid.squares).1), Score(p0.grid.squares).1 - old(Score(p0.grid.squares).1);
            if ok then by0 == 1 && by1 == (if winnerName != "" && w == 0 then 0 else 1) else by1 <= by0 <= by1 + 1
  {
    winnerName, used, ok, w := "", 0, true, 0;
    ghost var start0, start1 := Score(p1.grid.squares).1, Score(p0.grid.squares).1;
    for k := 0 to NumPlayers
      invariant unchanged(game, p0, p1)
      invariant game.Ready() && used <= |input|
      invariant 0 < k ==> 0 < used
      invariant winnerName != "" ==> 0 <= w < k
      invariant winnerName != "" && w == 0 ==> winnerName == p0.name && FleetSunk(p1.ships)
      invariant winnerName != "" && w == 1 ==> winnerName == p1.name && FleetSunk(p0.ships)
      invariant Score(p1.grid.squares).1 == start0 + if 0 < k then 1 else 0
      invariant Score(p0.grid.squares).1 == start1 + if 1 < k && (winnerName == "" || w == 1) then 1 else 0
    {
      if winnerName == "" {
        var n;
        winnerName, n, ok := PlayTurn(game, k, p0, p1, input[used..]);
        used := used + n;
        if !ok {
          return "", used, false, w;
        }
        w := k;
      }
    }
  }

  /**
   * RunTheGame's do-while loop on a game ready to be played, whose players
   * are `p0` and `p1`: rounds until one of them produces a winner, or until
   * the lines run out.  The winner sank the last ship of the other fleet,
   * and the shot counts differ by the winner's last shot only.
   */
  method PlayUntilWon(game: Game, p0: Player, p1: Player, input: seq<string>) returns (winnerName: string, used: nat, ghost w: int)
    requires game.Ready() && game.players == [p0, p1]
    modifies p0.grid, p1.grid, p0.ships, p1.ships
    ensures game.Ready() && used <= |input| && unchanged(game, p0, p1)
    ensures winnerName == "" ==> used == |input|
    ensures winnerName != "" ==> w == 0 || w == 1
    ensures winnerName != "" && w == 0 ==> winnerName == p0.name && FleetSunk(p1.ships)
    ensures winnerName != "" && w == 1 ==> winnerName == p1.name && FleetSunk(p0.ships)
    ensures var by0, by1 := Score(p1.grid.squares).1 - old(Score(p1.grid.squares).1), Score(p0.grid.squares).1 - old(Score(p0.grid.squares).1);
            if winnerName != "" then by0 == by1 + (if w == 0 then 1 else 0) else by1 <= by0 <= by1 + 1
  {
    winnerName, used, w := "", 0, 0;
    ghost var start0, start1 := Score(p1.grid.squares).1, Score(p0.grid.squares).1;
    while true
      invariant unchanged(game, p0, p1)
      invariant game.Ready() && used <= |input| && winnerName == ""
      invariant Score(p1.grid.squares).1 - start0 == Score(p0.grid.squares).1 - start1
      decreases |input| - used
    {
      var n, ok;
      winnerName, n, ok, w := PlayRound(game, p0, p1, input[used..]);
      used := used + n;
      if !ok || winnerName != "" {
        return;
      }
    }
  }

  /**
   * RunTheGame on a game ready to be played with two full fleets: rounds
   * until a winner is found, then DisplayResults.  The winner is the player
   * whose shot sank the last ship of the other fleet, and the shot counts
   * differ by the winner's last shot only: player 0 has fired one more shot
   * than player 1 exactly when player 0 won.  When the lines run out first
   * the game stops with no winner.
   */
  method RunTheGame(game: Game, input: seq<string>) returns (winnerName: string, used: nat, results: Option<Results>, ghost w: int)
    requires game.Ready()
    modifies game.players[0].grid, game.players[1].grid
    modifies game.players[0].ships, game.players[1].ships
    ensures game.Ready() && used <= |input|
    ensures winnerName == "" ==> used == |input| && results.None?
    ensures winnerName != "" ==>
              (w == 0 || w == 1) && winnerName == game.players[w].name && FleetSunk(game.players[1 - w].ships)
    ensures var by0 := Score(game.players[1].grid.squares).1 - old(Score(game.players[1].grid.squares).1);
            var by1 := Score(game.players[0].grid.squares).1 - old(Score(game.players[0].grid.squares).1);
            if winnerName != "" then by0 == by1 + (if w == 0 then 1 else 0) else by1 <= by0 <= by1 + 1
    ensures winnerName != "" ==>
              results.Some? && results.value.winner == winnerName && |results.value.lines| == NumPlayers
              && forall k :: 0 <= k < NumPlayers ==>
                   var score := Score(game.players[1 - k].grid.squares);
                   results.value.lines[k] == ScoreLine(game.players[k].name, score.0, score.1)
  {
    var p0, p1 := game.players[0], game.players[1];
    winnerName, used, w := PlayUntilWon(game, p0, p1, input);
    results := None;
    if winnerName != "" {
      label played:
      results := Announce(winnerName, game);
      game.KeptReady@played();
    }
  }

  /** DisplayResults at the end of a game ready to be played: both players' score lines. */
  method Announce(winnerName: string, game: Game) returns (results: Option<Results>)
    requires game.Ready()
    ensures results.Some? && results.value.winner == winnerName && |results.value.lines| == NumPlayers
    ensures forall k :: 0 <= k < NumPlayers ==>
              var score := Score(game.players[1 - k].grid.squares);
              results.value.lines[k] == ScoreLine(game.players[k].name, score.0, score.1)
  {
    EnemyIsOther(game, 0);
    EnemyIsOther(game, 1);
    var report := DisplayResults(winnerName, game);
    results := Some(report.value);
  }
}
