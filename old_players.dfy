/**
 * Players of the list-based generation: a player has a name, the index of
 * the player they attack and three lists of coordinates, their ship
 * locations, the shots they missed and the shots they hit.  The lists are
 * read and written by index through get/set pairs that validate first.
 */
module OldPlayers {
  import opened Outcomes
  import opened Lists
  import Text
  import opened OldConfig
  import opened OldValidation

  /**
   * PlayersList.GetNextPlayer: the index after `i`, wrapping round to 0
   * after the last player.
   */
  function GetNextPlayer(i: int): (n: int)
    ensures 0 <= i < NumPlayers ==> 0 <= n < NumPlayers && n != i
    ensures n == 0 <==> i + 1 == NumPlayers || i + 1 == 0
  {
    var next := i + 1;
    if next == NumPlayers then 0 else next
  }

  /** With two players the turn order swaps them: applying it twice gives the player back. */
  lemma NextPlayerSwaps(i: int)
    requires 0 <= i < NumPlayers
    ensures GetNextPlayer(GetNextPlayer(i)) == i
    ensures GetNextPlayer(i) == 1 - i
  {
  }

  /**
   * The getter half of a get/set pair: entry `i`, `tooFar` when the list has
   * no entry `i`, and the .NET index error for a negative index.
   */
  function Entry(list: seq<string>, i: int, tooFar: GameError): (r: Result<string>)
    ensures r.Ok? <==> 0 <= i < |list|
    ensures r.Ok? ==> r.value == list[i]
    ensures i >= |list| ==> r == Err(tooFar)
    ensures i < 0 ==> r == Err(IndexOutOfRange)
  {
    if i >= |list| then Err(tooFar)
    else if i < 0 then Err(IndexOutOfRange)
    else Ok(list[i])
  }

  /**
   * The setter half of a get/set pair, once the value has been validated:
   * appended when `i` is past the end of the list, written over entry `i`
   * otherwise; a negative index throws.
   */
  function Stored(list: seq<string>, i: int, c: string): (r: Result<seq<string>>)
    ensures r.Ok? <==> i >= 0
    ensures r.Ok? ==> |r.value| == (if i >= |list| then |list| + 1 else |list|)
                      && r.value[if i >= |list| then |list| else i] == c
    ensures r.Ok? ==> forall k :: 0 <= k < |list| && k != i ==> r.value[k] == list[k]
    ensures r.Err? ==> r.error == IndexOutOfRange
  {
    if i >= |list| then Ok(list + [c])
    else if i < 0 then Err(IndexOutOfRange)
    else Ok(list[i := c])
  }

  /** Storing a value that is not in a list without repetitions keeps it without repetitions. */
  lemma StoredKeepsDistinct(list: seq<string>, i: int, c: string)
    requires Distinct(list) && c !in list
    ensures Stored(list, i, c).Ok? ==> Distinct(Stored(list, i, c).value)
  {
    if 0 <= i < |list| {
      var after := list[i := c];
      forall j, k | 0 <= j < k < |after| ensures after[j] != after[k] {
        if j != i && k != i {
          assert after[j] == list[j] && after[k] == list[k];
        }
      }
    }
  }

  /** Storing a coordinate into a list of coordinates keeps it a list of coordinates. */
  lemma StoredKeepsCoordinates(list: seq<string>, i: int, c: string)
    requires IsCoordinate(c) && forall k :: 0 <= k < |list| ==> IsCoordinate(list[k])
    ensures Stored(list, i, c).Ok? ==>
              forall k :: 0 <= k < |Stored(list, i, c).value| ==> IsCoordinate(Stored(list, i, c).value[k])
  {
  }

  class Player {
    /** PlayerName: read-only, set by the constructor. */
    const name: string
    /** EnemyPlayer: the index of the player this one attacks. */
    var enemy: int
    /** ShipLocations: one coordinate per ship. */
    var shipLocations: seq<string>
    /** ShotsMissed: this player's shots that hit nothing. */
    var shotsMissed: seq<string>
    /** ShotsHit: this player's shots that hit a ship. */
    var shotsHit: seq<string>

    /** Player(name): the name and three empty lists. */
    constructor Named(name: string)
      requires name != ""
      ensures this.name == name && enemy == 0
      ensures shipLocations == [] && shotsMissed == [] && shotsHit == []
    {
      this.name := name;
      enemy := 0;
      shipLocations, shotsMissed, shotsHit := [], [], [];
    }

    /** Player(name, position): as Player(name), attacking the player after `position`. */
    constructor (name: string, position: int)
      requires name != ""
      ensures this.name == name && enemy == GetNextPlayer(position)
      ensures shipLocations == [] && shotsMissed == [] && shotsHit == []
    {
      this.name := name;
      enemy := GetNextPlayer(position);
      shipLocations, shotsMissed, shotsHit := [], [], [];
    }

    /** The EnemyPlayer setter: an index beyond the players is rejected, any other is stored. */
    method SetEnemyPlayer(value: int) returns (out: Outcome)
      modifies this`enemy
      ensures value >= NumPlayers <==> out == Fail(TooManyPlayers)
      ensures out.Pass? ==> enemy == value
      ensures out.Fail? ==> enemy == old(enemy)
    {
      if value >= NumPlayers {
        return Fail(TooManyPlayers);
      }
      enemy := value;
      return Pass;
    }

    /** ShipLocation(i): the location of ship `i`; TooManyShips when there is no such ship. */
    method ShipLocation(i: int) returns (r: Result<string>)
      ensures r.Ok? <==> 0 <= i < |shipLocations|
      ensures r.Ok? ==> r.value == shipLocations[i]
      ensures i >= |shipLocations| ==> r == Err(TooManyShips(i))
    {
      r := Entry(shipLocations, i, TooManyShips(i));
    }

    /**
     * ShipLocation(i, c): the location is validated against this player's
     * ships and its canonical form stored at `i`, or appended.  A list of
     * distinct coordinates stays one.
     */
    method SetShipLocation(i: int, c: string) returns (out: Outcome)
      modifies this`shipLocations
      ensures var v := ValidShipLocation(c, old(shipLocations));
              v.Err? ==> out == Fail(v.error) && shipLocations == old(shipLocations)
      ensures var v := ValidShipLocation(c, old(shipLocations));
              v.Ok? ==> match Stored(old(shipLocations), i, v.value)
                        case Ok(list) => out == Pass && shipLocations == list
                        case Err(e) => out == Fail(e) && shipLocations == old(shipLocations)
      ensures out.Pass? ==> ValidShipLocation(c, old(shipLocations)).Ok?
      ensures Distinct(old(shipLocations)) ==> Distinct(shipLocations)
    {
      var validated := ValidShipLocation(c, shipLocations);
      if validated.Err? {
        return Fail(validated.error);
      }
      var coord := validated.value;
      out := Pass;
      if coord != "" {
        assert coord !in shipLocations;
        if Distinct(shipLocations) {
          StoredKeepsDistinct(shipLocations, i, coord);
        }
        if i >= |shipLocations| {
          shipLocations := shipLocations + [coord];
        } else if i < 0 {
          out := Fail(IndexOutOfRange);
        } else {
          shipLocations := shipLocations[i := coord];
        }
      }
    }

    /** ShotMissed(i): shot `i` that missed; TooManyShots when there is no such shot. */
    method ShotMissed(i: int) returns (r: Result<string>)
      ensures r.Ok? <==> 0 <= i < |shotsMissed|
      ensures r.Ok? ==> r.value == shotsMissed[i]
      ensures i >= |shotsMissed| ==> r == Err(TooManyShots(i))
    {
      r := Entry(shotsMissed, i, TooManyShots(i));
    }

    /**
     * ShotMissed(i, c): the shot is validated against both of this player's
     * shot lists, then stored as given, not in its canonical form.
     */
    method SetShotMissed(i: int, c: string) returns (out: Outcome)
      modifies this`shotsMissed
      ensures var v := ValidShotTaken(c, old(shotsMissed), shotsHit);
              v.Err? ==> out == Fail(v.error) && shotsMissed == old(shotsMissed)
      ensures ValidShotTaken(c, old(shotsMissed), shotsHit).Ok? ==>
                match Stored(old(shotsMissed), i, c)
                case Ok(list) => out == Pass && shotsMissed == list
                case Err(e) => out == Fail(e) && shotsMissed == old(shotsMissed)
    {
      var validated := ValidShotTaken(c, shotsMissed, shotsHit);
      if validated.Err? {
        return Fail(validated.error);
      }
      out := Pass;
      if validated.value {
        if i >= |shotsMissed| {
          shotsMissed := shotsMissed + [c];
        } else if i < 0 {
          out := Fail(IndexOutOfRange);
        } else {
          shotsMissed := shotsMissed[i := c];
        }
      }
    }

    /** ShotHit(i): shot `i` that hit; TooManyShots when there is no such shot. */
    method ShotHit(i: int) returns (r: Result<string>)
      ensures r.Ok? <==> 0 <= i < |shotsHit|
      ensures r.Ok? ==> r.value == shotsHit[i]
      ensures i >= |shotsHit| ==> r == Err(TooManyShots(i))
    {
      r := Entry(shotsHit, i, TooManyShots(i));
    }

    /** ShotHit(i, c): as ShotMissed(i, c), into the list of hits. */
    method SetShotHit(i: int, c: string) returns (out: Outcome)
      modifies this`shotsHit
      ensures var v := ValidShotTaken(c, shotsMissed, old(shotsHit));
              v.Err? ==> out == Fail(v.error) && shotsHit == old(shotsHit)
      ensures ValidShotTaken(c, shotsMissed, old(shotsHit)).Ok? ==>
                match Stored(old(shotsHit), i, c)
                case Ok(list) => out == Pass && shotsHit == list
                case Err(e) => out == Fail(e) && shotsHit == old(shotsHit)
    {
      var validated := ValidShotTaken(c, shotsMissed, shotsHit);
      if validated.Err? {
        return Fail(validated.error);
      }
      out := Pass;
      if validated.value {
        if i >= |shotsHit| {
          shotsHit := shotsHit + [c];
        } else if i < 0 {
          out := Fail(IndexOutOfRange);
        } else {
          shotsHit := shotsHit[i := c];
        }
      }
    }

    /**
     * The player at `position` once SetupGame has placed their fleet: named,
     * attacking the next player, with NumShips different coordinates of
     * the grid as ship locations.
     */
    predicate Armed(position: int)
      reads this
    {
      name != "" && enemy == GetNextPlayer(position)
      && |shipLocations| == NumShips && Distinct(shipLocations)
      && forall k :: 0 <= k < |shipLocations| ==> IsCoordinate(shipLocations[k])
    }
  }

  /** Player(name, position): a blank name is rejected. */
  method NewPlayer(name: string, position: int) returns (r: Result<Player>)
    ensures name == "" <==> r.Err?
    ensures r.Err? ==> r.error == BlankName
    ensures r.Ok? ==> fresh(r.value) && r.value.name == name && r.value.enemy == GetNextPlayer(position)
                      && r.value.shipLocations == [] && r.value.shotsMissed == [] && r.value.shotsHit == []
  {
    if name == "" {
      return Err(BlankName);
    }
    var player := new Player(name, position);
    return Ok(player);
  }

  /**
   * The check on a lower-case shot is made on its canonical form, but the
   * shot is stored as given: "a1" passes the check twice and is stored twice.
   */
  lemma RawShotRepeats()
    ensures ValidShotTaken("a1", [], []) == Ok(true)
    ensures Stored([], 0, "a1") == Ok(["a1"])
    ensures ValidShotTaken("a1", ["a1"], []) == Ok(true)
    ensures Stored(["a1"], 1, "a1") == Ok(["a1", "a1"]) && !Distinct(["a1", "a1"])
  {
    LowerCaseRow();
    assert ValidCoOrdinates("a1") == Ok("A1") by {
      assert !Text.IsWhiteSpace("a1"[0]);
      assert "a1"[..1] == "a" && "a1"[1..] == "1";
      assert Text.ToUpper("a") == "A" by { assert Text.ToUpper("a")[0] == 'A'; }
      assert "A" + "1" == "A1";
    }
    assert "A1" != "a1" by { assert "A1"[0] != "a1"[0]; }
    assert [] + ["a1"] == ["a1"];
    assert ["a1"] + ["a1"] == ["a1", "a1"];
    assert ["a1", "a1"][0] == ["a1", "a1"][1];
  }

  /** A player whose shots are all upper-case: validated shots are stored in canonical form. */
  lemma UpperShotsStayDistinct(missed: seq<string>, hit: seq<string>, i: int, c: string)
    requires Text.IsUpper(c) && ValidShotTaken(c, missed, hit) == Ok(true)
    requires Distinct(missed + hit)
    ensures Stored(missed, i, c).Ok? && i >= |missed| ==> Distinct(Stored(missed, i, c).value + hit)
    ensures Stored(hit, i, c).Ok? && i >= |hit| ==> Distinct(missed + Stored(hit, i, c).value)
  {
    UpperIsCanonical(c);
    assert c !in missed && c !in hit;
    if i >= |missed| {
      var after := missed + [c] + hit;
      assert Stored(missed, i, c).value + hit == after;
      forall j, k | 0 <= j < k < |after| ensures after[j] != after[k] {
        if j != |missed| && k != |missed| {
          var j', k' := if j < |missed| then j else j - 1, if k < |missed| then k else k - 1;
          assert after[j] == (missed + hit)[j'] && after[k] == (missed + hit)[k'];
        } else if j == |missed| {
          assert after[k] in hit;
        } else {
          assert after[j] in missed;
        }
      }
    }
    if i >= |hit| {
      assert missed + Stored(hit, i, c).value == (missed + hit) + [c];
      assert c !in missed + hit;
    }
  }

  /**
   * The shots `shooter` has taken at `target` so far: never the same
   * coordinate twice, every hit one of the target's ship locations and no
   * miss one of them.
   */
  predicate Fair(shooter: Player, target: Player)
    reads shooter, target
  {
    Distinct(shooter.shotsMissed + shooter.shotsHit)
    && (forall k :: 0 <= k < |shooter.shotsHit| ==> shooter.shotsHit[k] in target.shipLocations)
    && (forall k :: 0 <= k < |shooter.shotsMissed| ==> shooter.shotsMissed[k] !in target.shipLocations)
  }

  /**
   * A player's hits are at most the number of ships, and they reach it
   * exactly when every one of the target's ship locations has been hit.
   */
  lemma {:induction false} HitsCountShips(shooter: Player, target: Player)
    requires Fair(shooter, target) && |target.shipLocations| == NumShips && Distinct(target.shipLocations)
    ensures |shooter.shotsHit| <= NumShips
    ensures |shooter.shotsHit| >= NumShips <==> forall c :: c in target.shipLocations ==> c in shooter.shotsHit
  {
    var hits, ships := shooter.shotsHit, target.shipLocations;
    DistinctSplit(shooter.shotsMissed, hits);
    DistinctIncluded(hits, ships);
    if forall c :: c in ships ==> c in hits {
      DistinctIncluded(ships, hits);
    }
  }

  class PlayersList {
    /** Players: the players in turn order. */
    var players: seq<Player>

    /** A new list has no players. */
    constructor()
      ensures players == []
    {
      players := [];
    }

    /**
     * A game that can be played: two different players, each armed at
     * their position, whose shots so far are fair to the other.
     */
    predicate Ready()
      reads this, players
    {
      |players| == NumPlayers && players[0] != players[1]
      && players[0].Armed(0) && players[1].Armed(1)
      && Fair(players[0], players[1]) && Fair(players[1], players[0])
    }
  }
}
