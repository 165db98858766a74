/**
 * The rules of play of the list-based generation: each player names
 * themselves and places NumShips one-square ships, then the players shoot
 * in turn until one has hit NumShips times, and every player's hit rate is
 * reported.  Console input is a sequence of lines; a method that reads
 * returns how many lines it used and stops when they run out.  Screen
 * output, including the drawn grids, is not modelled.
 */
module OldRules {
  import opened Outcomes
  import opened Text
  import opened Lists
  import opened OldConfig
  import opened OldValidation
  import opened OldPlayers

  /**
   * The do-while loop of SetupGame for one player: names are read until
   * the Player constructor accepts one, that is until a name is not empty.
   * None when the lines run out first.
   */
  method ReadPlayer(position: int, input: seq<string>) returns (player: Option<Player>, used: nat)
    ensures used <= |input|
    ensures player.Some? ==>
              1 <= used && player.value.name == input[used - 1] && player.value.name != ""
              && (forall k :: 0 <= k < used - 1 ==> input[k] == "")
              && fresh(player.value) && player.value.enemy == GetNextPlayer(position)
              && player.value.shipLocations == [] && player.value.shotsMissed == [] && player.value.shotsHit == []
    ensures player.None? ==> used == |input| && forall k :: 0 <= k < |input| ==> input[k] == ""
  {
    used := 0;
    while used < |input|
      invariant used <= |input| && forall k :: 0 <= k < used ==> input[k] == ""
    {
      var playerName := input[used];
      used := used + 1;
      var newPlayer := NewPlayer(playerName, position);
      if newPlayer.Ok? {
        return Some(newPlayer.value), used;
      }
    }
    return None, used;
  }

  /**
   * A line the ship-location setter accepts for the next ship: upper-cased,
   * it is a coordinate of the grid where the player has no ship yet.
   */
  predicate ShipAccepted(line: string, shipLocations: seq<string>)
  {
    ValidShipLocation(ToUpper(line), shipLocations).Ok?
  }

  /**
   * The do-while loop of GetShipLocations for one ship: lines are read,
   * upper-cased and stored through the setter at the next index until one
   * is accepted; the getter then reads the stored location back.  The ship
   * is stored in canonical form; every line before it was refused.
   */
  method ReadShipLocation(player: Player, index: int, input: seq<string>) returns (ok: bool, used: nat)
    requires index == |player.shipLocations|
    modifies player`shipLocations
    ensures used <= |input|
    ensures ok ==> 1 <= used && ShipAccepted(input[used - 1], old(player.shipLocations))
                   && player.shipLocations == old(player.shipLocations) + [ValidShipLocation(ToUpper(input[used - 1]), old(player.shipLocations)).value]
    ensures ok ==> forall k :: 0 <= k < used - 1 ==> !ShipAccepted(input[k], old(player.shipLocations))
    ensures !ok ==> used == |input| && player.shipLocations == old(player.shipLocations)
                    && forall k :: 0 <= k < |input| ==> !ShipAccepted(input[k], old(player.shipLocations))
  {
    used := 0;
    while used < |input|
      invariant used <= |input| && player.shipLocations == old(player.shipLocations)
      invariant forall k :: 0 <= k < used ==> !ShipAccepted(input[k], player.shipLocations)
    {
      var shipCoOrds := ToUpper(input[used]);
      used := used + 1;
      var stored := player.SetShipLocation(index, shipCoOrds);
      if stored.Pass? {
        var got := player.ShipLocation(index);
        assert got.Ok?;
        shipCoOrds := got.value;
      } else {
        shipCoOrds := "";
      }
      if shipCoOrds != "" {
        return true, used;
      }
    }
    return false, used;
  }

  /**
   * GetShipLocations: one location per ship, for ships 1 to NumShips in
   * turn.  When the input lasts the player has NumShips different
   * coordinates of the grid as ship locations.
   */
  method GetShipLocations(player: Player, input: seq<string>) returns (ok: bool, used: nat)
    requires player.shipLocations == []
    modifies player`shipLocations
    ensures used <= |input|
    ensures ok ==> |player.shipLocations| == NumShips && Distinct(player.shipLocations)
                   && forall k :: 0 <= k < |player.shipLocations| ==> IsCoordinate(player.shipLocations[k])
  {
    used := 0;
    for shipNum := 1 to NumShips + 1
      invariant used <= |input| && |player.shipLocations| == shipNum - 1 && Distinct(player.shipLocations)
      invariant forall k :: 0 <= k < |player.shipLocations| ==> IsCoordinate(player.shipLocations[k])
    {
      var n;
      ok, n := ReadShipLocation(player, shipNum - 1, input[used..]);
      used := used + n;
      if !ok {
        return;
      }
    }
    ok := true;
  }

  /**
   * One pass of the player loop of SetupGame: the player numbered
   * `playerNum` (from 1) is read and added, attacking the next position,
   * then places their ships.
   */
  method SetUpPlayer(list: PlayersList, playerNum: int, input: seq<string>) returns (ok: bool, used: nat)
    requires |list.players| == playerNum - 1
    modifies list
    ensures used <= |input|
    ensures ok ==> |list.players| == playerNum && list.players[..playerNum - 1] == old(list.players)
    ensures ok ==> var p := list.players[playerNum - 1];
                   fresh(p) && p.Armed(playerNum - 1) && p.shotsMissed == [] && p.shotsHit == []
  {
    var newPlayer, n := ReadPlayer(|list.players|, input);
    used := n;
    if newPlayer.None? {
      return false, used;
    }
    list.players := list.players + [newPlayer.value];
    var m;
    ok, m := GetShipLocations(list.players[playerNum - 1], input[used..]);
    used := used + m;
  }

  /**
   * SetupGame on an empty list of players: each of the two players in turn
   * is read, added and places their ships.  When the input lasts, the game
   * is ready to be played and nobody has shot yet.
   */
  method SetupGame(list: PlayersList, input: seq<string>) returns (ok: bool, used: nat)
    requires list.players == []
    modifies list
    ensures used <= |input|
    ensures ok ==> list.Ready()
    ensures ok ==> forall k :: 0 <= k < NumPlayers ==> list.players[k].shotsMissed == [] && list.players[k].shotsHit == []
  {
    used := 0;
    for playerNum := 1 to NumPlayers + 1
      invariant |list.players| == playerNum - 1 && used <= |input|
      invariant forall j :: 0 <= j < playerNum - 1 ==>
                  fresh(list.players[j]) && list.players[j].Armed(j)
                  && list.players[j].shotsMissed == [] && list.players[j].shotsHit == []
      invariant playerNum == NumPlayers + 1 ==> list.players[0] != list.players[1]
    {
      var n;
      ok, n := SetUpPlayer(list, playerNum, input[used..]);
      used := used + n;
      if !ok {
        return;
      }
    }
    ok := true;
  }

  /**
   * A line PromptForShot accepts: upper-cased, it is a coordinate of the
   * grid the player has not shot at yet.
   */
  predicate ShotAccepted(line: string, shotsMissed: seq<string>, shotsHit: seq<string>)
  {
    ValidShotTaken(ToUpper(line), shotsMissed, shotsHit) == Ok(true)
  }

  /**
   * PromptForShot: lines are read and upper-cased until ValidShotTaken
   * accepts one against the player's own shots.  The target is a coordinate
   * of the grid in canonical form that the player has not shot at; every
   * line before it was refused.  None when the lines run out first.
   */
  method PromptForShot(player: Player, input: seq<string>) returns (target: Option<string>, used: nat)
    ensures used <= |input|
    ensures target.Some? ==>
              1 <= used && target.value == ToUpper(input[used - 1])
              && ShotAccepted(input[used - 1], player.shotsMissed, player.shotsHit)
              && IsCoordinate(target.value) && target.value !in player.shotsMissed && target.value !in player.shotsHit
              && forall k :: 0 <= k < used - 1 ==> !ShotAccepted(input[k], player.shotsMissed, player.shotsHit)
    ensures target.None? ==>
              used == |input| && forall k :: 0 <= k < |input| ==> !ShotAccepted(input[k], player.shotsMissed, player.shotsHit)
  {
    used := 0;
    while used < |input|
      invariant used <= |input|
      invariant forall k :: 0 <= k < used ==> !ShotAccepted(input[k], player.shotsMissed, player.shotsHit)
    {
      var targetCoOrds := ToUpper(input[used]);
      used := used + 1;
      var valid := ValidShotTaken(targetCoOrds, player.shotsMissed, player.shotsHit);
      if valid.Err? || !valid.value {
        targetCoOrds := "";
      }
      if targetCoOrds != "" {
        ToUpperIsUpper(input[used - 1]);
        UpperIsCanonical(targetCoOrds);
        return Some(targetCoOrds), used;
      }
    }
    return None, used;
  }

  /**
   * CheckIfHit: the target is looked for among the ship locations of the
   * player's enemy and stored, through the setter at the next index, as a
   * hit when it is there and as a miss otherwise.  The setter validates it
   * again against the player's shots; an enemy index outside the list
   * throws.
   */
  method CheckIfHit(target: string, player: Player, list: PlayersList) returns (out: Outcome)
    modifies player`shotsHit, player`shotsMissed
    ensures out.Pass? <==> 0 <= player.enemy < |list.players| && ValidShotTaken(target, old(player.shotsMissed), old(player.shotsHit)).Ok?
    ensures !(0 <= player.enemy < |list.players|) ==> out == Fail(IndexOutOfRange)
    ensures out.Fail? ==> player.shotsHit == old(player.shotsHit) && player.shotsMissed == old(player.shotsMissed)
    ensures out.Pass? && target in list.players[player.enemy].shipLocations ==>
              player.shotsHit == old(player.shotsHit) + [target] && player.shotsMissed == old(player.shotsMissed)
    ensures out.Pass? && target !in list.players[player.enemy].shipLocations ==>
              player.shotsMissed == old(player.shotsMissed) + [target] && player.shotsHit == old(player.shotsHit)
  {
    if !(0 <= player.enemy < |list.players|) {
      return Fail(IndexOutOfRange);
    }
    var enemyPlayer := list.players[player.enemy];
    if IsShipThere(target, enemyPlayer.shipLocations) {
      out := player.SetShotHit(|player.shotsHit|, target);
    } else {
      out := player.SetShotMissed(|player.shotsMissed|, target);
    }
  }

  /** WhoHasWon: the player's name once they have hit NumShips times, otherwise "". */
  function WhoHasWon(player: Player): (winnerName: string)
    reads player
    ensures winnerName == "" || winnerName == player.name
    ensures player.name != "" ==> (winnerName != "" <==> |player.shotsHit| >= NumShips)
  {
    if |player.shotsHit| >= NumShips then player.name else ""
  }

  /** Shots a player has taken: misses and hits. */
  function Shots(player: Player): (n: nat)
    reads player
    ensures n >= |player.shotsHit|
  {
    |player.shotsMissed| + |player.shotsHit|
  }

  /**
   * One turn of RunTheGame's foreach for the player at `k`: a shot is read,
   * recorded as a hit or a miss against the other player, and WhoHasWon
   * asked.  The game stays ready, one shot is added, and the player wins
   * exactly when every ship location of the other player has been hit.
   */
  method TakeTurn(list: PlayersList, k: int, shooter: Player, enemy: Player, input: seq<string>)
    returns (winnerName: string, used: nat, ok: bool, ghost shot: string)
    requires list.Ready() && 0 <= k < NumPlayers && list.players[k] == shooter && list.players[1 - k] == enemy
    modifies shooter`shotsHit, shooter`shotsMissed
    ensures list.Ready() && used <= |input|
    ensures !ok ==> used == |input| && winnerName == ""
                    && shooter.shotsHit == old(shooter.shotsHit) && shooter.shotsMissed == old(shooter.shotsMissed)
    ensures ok ==> 1 <= used && IsCoordinate(shot) && shot !in old(shooter.shotsMissed) && shot !in old(shooter.shotsHit)
    ensures ok && shot in enemy.shipLocations ==>
              shooter.shotsHit == old(shooter.shotsHit) + [shot] && shooter.shotsMissed == old(shooter.shotsMissed)
    ensures ok && shot !in enemy.shipLocations ==>
              shooter.shotsMissed == old(shooter.shotsMissed) + [shot] && shooter.shotsHit == old(shooter.shotsHit)
    ensures winnerName == "" || winnerName == shooter.name
    ensures ok ==> (winnerName != "" <==> forall c :: c in enemy.shipLocations ==> c in shooter.shotsHit)
  {
    NextPlayerSwaps(k);
    var target;
    target, used := PromptForShot(shooter, input);
    shot := "";
    if target.None? {
      return "", used, false, shot;
    }
    shot := target.value;
    ToUpperIsUpper(input[used - 1]);
    UpperShotsStayDistinct(shooter.shotsMissed, shooter.shotsHit, |shooter.shotsMissed|, shot);
    UpperShotsStayDistinct(shooter.shotsMissed, shooter.shotsHit, |shooter.shotsHit|, shot);
    var out := CheckIfHit(target.value, shooter, list);
    assert out.Pass?;
    ok := true;
    HitsCountShips(shooter, enemy);
    winnerName := WhoHasWon(shooter);
  }

  /**
   * One round of RunTheGame's do-while loop: the foreach over the players
   * in turn order, a player taking a turn only while there is no winner.
   * A winner has hit every ship location of the other player, and once
   * player 0 has won player 1 does not shoot.
   */
  method PlayRound(list: PlayersList, p0: Player, p1: Player, input: seq<string>)
    returns (winnerName: string, used: nat, ok: bool, ghost w: int)
    requires list.Ready() && list.players == [p0, p1]
    modifies p0`shotsHit, p0`shotsMissed, p1`shotsHit, p1`shotsMissed
    ensures list.Ready() && used <= |input|
    ensures !ok ==> used == |input| && winnerName == ""
    ensures ok ==> 1 <= used
    ensures winnerName != "" ==> w == 0 || w == 1
    ensures winnerName != "" && w == 0 ==> winnerName == p0.name && forall c :: c in p1.shipLocations ==> c in p0.shotsHit
    ensures winnerName != "" && w == 1 ==> winnerName == p1.name && forall c :: c in p0.shipLocations ==> c in p1.shotsHit
    ensures ok && winnerName == "" ==> WhoHasWon(p0) == "" && WhoHasWon(p1) == ""
    ensures var by0, by1 := Shots(p0) - old(Shots(p0)), Shots(p1) - old(Shots(p1));
            if ok then by0 == 1 && by1 == (if winnerName != "" && w == 0 then 0 else 1) else by1 <= by0 <= 1 && by1 == 0
  {
    winnerName, used, ok, w := "", 0, true, 0;
    ghost var start0, start1 := Shots(p0), Shots(p1);
    for k := 0 to NumPlayers
      invariant list.Ready() && used <= |input|
      invariant 0 < k ==> 0 < used
      invariant winnerName != "" ==> 0 <= w < k
      invariant winnerName != "" && w == 0 ==> winnerName == p0.name && forall c :: c in p1.shipLocations ==> c in p0.shotsHit
      invariant winnerName != "" && w == 1 ==> winnerName == p1.name && forall c :: c in p0.shipLocations ==> c in p1.shotsHit
      invariant winnerName == "" && 0 < k ==> WhoHasWon(p0) == ""
      invariant winnerName == "" && 1 < k ==> WhoHasWon(p1) == ""
      invariant Shots(p0) == start0 + if 0 < k then 1 else 0
      invariant Shots(p1) == start1 + if 1 < k && (winnerName == "" || w == 1) then 1 else 0
    {
      if winnerName == "" {
        var n;
        ghost var shot;
        winnerName, n, ok, shot := TakeTurn(list, k, list.players[k], list.players[1 - k], input[used..]);
        used := used + n;
        if !ok {
          return "", used, false, w;
        }
        w := k;
        HitsCountShips(list.players[k], list.players[1 - k]);
      }
    }
  }

  /**
   * RunTheGame's do-while loop on a game ready to be played, whose players
   * are `p0` and `p1`: rounds until one of them produces a winner, or until
   * the lines run out.
   */
  method PlayUntilWon(list: PlayersList, p0: Player, p1: Player, input: seq<string>)
    returns (winnerName: string, used: nat, ghost w: int)
    requires list.Ready() && list.players == [p0, p1]
    modifies p0`shotsHit, p0`shotsMissed, p1`shotsHit, p1`shotsMissed
    ensures list.Ready() && used <= |input|
    ensures winnerName == "" ==> used == |input|
    ensures winnerName != "" ==> w == 0 || w == 1
    ensures winnerName != "" && w == 0 ==> winnerName == p0.name && forall c :: c in p1.shipLocations ==> c in p0.shotsHit
    ensures winnerName != "" && w == 1 ==> winnerName == p1.name && forall c :: c in p0.shipLocations ==> c in p1.shotsHit
    ensures var by0, by1 := Shots(p0) - old(Shots(p0)), Shots(p1) - old(Shots(p1));
            if winnerName != "" then by0 == by1 + (if w == 0 then 1 else 0) else by1 <= by0 <= by1 + 1
  {
    winnerName, used, w := "", 0, 0;
    ghost var start0, start1 := Shots(p0), Shots(p1);
    while true
      invariant list.Ready() && used <= |input| && winnerName == ""
      invariant Shots(p0) - start0 == Shots(p1) - start1
      decreases |input| - used
    {
      var n, ok;
      winnerName, n, ok, w := PlayRound(list, p0, p1, input[used..]);
      used := used + n;
      if !ok || winnerName != "" {
        return;
      }
    }
  }

  /** One line of DisplayResults: a player's name, hits and shots. */
  datatype ScoreLine = ScoreLine(name: string, hits: int, shots: int)

  /**
   * DisplayResults: the winner's name, as AnnounceWinner shows it, then for
   * every player in turn order the name, the number of hits and the number
   * of shots, misses and hits together.
   */
  method DisplayResults(winnerName: string, players: seq<Player>) returns (winner: string, lines: seq<ScoreLine>)
    ensures winner == winnerName
    ensures |lines| == |players|
    ensures forall k :: 0 <= k < |players| ==>
              lines[k] == ScoreLine(players[k].name, |players[k].shotsHit|, Shots(players[k]))
              && 0 <= lines[k].hits <= lines[k].shots
  {
    winner := winnerName;
    lines := [];
    for k := 0 to |players|
      invariant |lines| == k
      invariant forall j :: 0 <= j < k ==> lines[j] == ScoreLine(players[j].name, |players[j].shotsHit|, Shots(players[j]))
    {
      var player := players[k];
      var numHits := |player.shotsHit|;
      var numShots := |player.shotsMissed| + numHits;
      lines := lines + [ScoreLine(player.name, numHits, numShots)];
    }
  }

  /**
   * RunTheGame on a game ready to be played: rounds until a winner is
   * found, then DisplayResults.  The winner has hit every ship location of
   * the other player, so their score line shows exactly NumShips hits, and
   * the shot counts differ by the winner's last shot only.  When the lines
   * run out first the game stops with no winner.
   */
  method RunTheGame(list: PlayersList, input: seq<string>)
    returns (winnerName: string, used: nat, results: seq<ScoreLine>, ghost w: int)
    requires list.Ready()
    modifies list.players
    ensures list.Ready() && used <= |input|
    ensures forall k :: 0 <= k < NumPlayers ==> list.players[k].shipLocations == old(list.players[k].shipLocations)
    ensures winnerName == "" ==> used == |input| && results == []
    ensures winnerName != "" ==>
              (w == 0 || w == 1) && winnerName == list.players[w].name
              && forall c :: c in list.players[1 - w].shipLocations ==> c in list.players[w].shotsHit
    ensures var by0 := Shots(list.players[0]) - old(Shots(list.players[0]));
            var by1 := Shots(list.players[1]) - old(Shots(list.players[1]));
            if winnerName != "" then by0 == by1 + (if w == 0 then 1 else 0) else by1 <= by0 <= by1 + 1
    ensures winnerName != "" ==>
              |results| == NumPlayers && results[w].hits == NumShips
              && forall k :: 0 <= k < NumPlayers ==>
                   results[k] == ScoreLine(list.players[k].name, |list.players[k].shotsHit|, Shots(list.players[k]))
  {
    var p0, p1 := list.players[0], list.players[1];
    winnerName, used, w := PlayUntilWon(list, p0, p1, input);
    results := [];
    if winnerName != "" {
      HitsCountShips(list.players[w], list.players[1 - w]);
      var announced;
      announced, results := DisplayResults(winnerName, list.players);
    }
  }
}
