/**
 * Players and the game: a player has a name, the index of the player they
 * attack, a grid and a fleet; the game holds the list of players and fixes
 * the turn order.
 */
module LitePlayers {
  import opened Outcomes
  import opened Lists
  import opened LiteEnums
  import opened LiteConfig
  import opened LiteCodec
  import opened LiteSquares
  import opened LiteGrid
  import opened LiteShips

  /**
   * GetNextPlayer: the index after `i`, wrapping round to 0 after the last
   * player.  On the players' indices it is the rotation i -> (i + 1) mod NumPlayers.
   */
  function GetNextPlayer(i: int): (n: int)
    ensures 0 <= i < NumPlayers ==> 0 <= n < NumPlayers && n == (i + 1) % NumPlayers
    ensures 0 <= i < NumPlayers ==> n != i
    ensures n == 0 <==> i + 1 == NumPlayers || i + 1 == 0
  {
    var next := i + 1;
    if next == NumPlayers then 0 else next
  }

  /** With two players the turn order swaps them: applying it twice gives the player back. */
  lemma NextPlayerSwaps(i: int)
    requires 0 <= i < NumPlayers
    ensures GetNextPlayer(GetNextPlayer(i)) == i
    ensures GetNextPlayer(i) == 1 - i
  {
  }

  /** The names of a fleet, in order. */
  function Names(ships: seq<Ship>): (names: seq<string>)
    ensures |names| == |ships| && forall i :: 0 <= i < |ships| ==> names[i] == ships[i].name
  {
    seq(|ships|, i requires 0 <= i < |ships| => ships[i].name)
  }

  /** The number of sunk ships of a fleet. */
  function CountSunk(ships: seq<Ship>): (n: nat)
    reads ships
    ensures n <= |ships|
  {
    if ships == [] then 0
    else CountSunk(ships[..|ships| - 1]) + (if ships[|ships| - 1].status == Sunk then 1 else 0)
  }

  /** Every ship of the fleet is sunk. */
  predicate FleetSunk(ships: seq<Ship>)
    reads ships
  {
    forall i :: 0 <= i < |ships| ==> ships[i].status == Sunk
  }

  /** Every ship of a fleet is sunk exactly when the sunk count is the fleet size. */
  lemma {:induction false} AllSunk(ships: seq<Ship>)
    ensures CountSunk(ships) == |ships| <==> FleetSunk(ships)
  {
    if ships != [] {
      var init := ships[..|ships| - 1];
      AllSunk(init);
      assert forall i :: 0 <= i < |init| ==> init[i] == ships[i];
    }
  }

  class Player {
    /** PlayerName: read-only, set when the player is created. */
    const name: string
    /** EnemyPlayer: the index of the player this one attacks. */
    var enemy: int
    /** PlayersGrid */
    const grid: Grid
    /** PlayersShips */
    var ships: seq<Ship>

    /** A well-formed grid and a fleet of valid ships with distinct names. */
    ghost predicate Valid()
      reads this, grid, ships
    {
      grid.Valid()
      && (forall i :: 0 <= i < |ships| ==> ships[i].Valid())
      && Distinct(Names(ships))
    }

    /** A valid, named player at position `position` of the game, attacking the next one. */
    ghost predicate Ready(position: int)
      reads this, grid, ships
    {
      Valid() && name != "" && enemy == GetNextPlayer(position) && |ships| == NumShips
    }

    /** Player(name): the name, an all-empty grid and no ships. */
    constructor Named(name: string)
      requires name != ""
      ensures this.name == name && enemy == 0 && ships == [] && fresh(grid)
      ensures forall c :: c in grid.squares ==> grid.squares[c] == NewSquare(c)
      ensures Valid()
    {
      this.name := name;
      enemy := 0;
      grid := new Grid();
      ships := [];
    }

    /** Player(name, position): as Player(name), attacking the player after `position`. */
    constructor (name: string, position: int)
      requires name != ""
      ensures this.name == name && enemy == GetNextPlayer(position) && ships == [] && fresh(grid)
      ensures forall c :: c in grid.squares ==> grid.squares[c] == NewSquare(c)
      ensures Valid()
    {
      this.name := name;
      enemy := GetNextPlayer(position);
      grid := new Grid();
      ships := [];
    }

    /** The EnemyPlayer setter: an index beyond the players is rejected, any other is stored. */
    method SetEnemyPlayer(value: int) returns (out: Outcome)
      modifies this
      ensures out.Fail? <==> value >= NumPlayers
      ensures out.Fail? ==> out.error == TooManyPlayers && enemy == old(enemy)
      ensures out.Pass? ==> enemy == value
      ensures ships == old(ships)
    {
      if value >= NumPlayers {
        return Fail(TooManyPlayers);
      }
      enemy := value;
      return Pass;
    }

    /** SunkShips: counts the player's ships whose status is Sunk. */
    method SunkShips() returns (n: int)
      ensures n == CountSunk(ships) && 0 <= n <= |ships|
    {
      n := 0;
      var i := 0;
      while i < |ships|
        invariant 0 <= i <= |ships|
        invariant n == CountSunk(ships[..i])
      {
        assert ships[..i + 1][..i] == ships[..i];
        if ships[i].status == Sunk {
          n := n + 1;
        }
        i := i + 1;
      }
      assert ships[..i] == ships;
    }

    /**
     * AddShip (a reconstruction from its call sites): records a coordinate
     * in the ship's list and puts the ship in that square of the grid.
     */
    method AddShip(ship: Ship, coord: string) returns (out: Outcome)
      requires grid.Valid()
      modifies ship`coords, grid
      ensures out.Pass? <==> ValidCoOrdinates(coord).Ok?
      ensures out.Pass? ==>
                var c := ValidCoOrdinates(coord).value;
                ship.coords == old(ship.coords) + [c]
                && grid.squares == old(grid.squares)[c := Square(c, ShipCell(ship.name))]
      ensures out.Fail? ==> out.error == ValidCoOrdinates(coord).error
                            && ship.coords == old(ship.coords) && grid.squares == old(grid.squares)
      ensures grid.Valid()
    {
      out := ship.AddCoOrdinate(coord);
      if out.Pass? {
        var c := ValidCoOrdinates(coord).value;
        grid.SetGridSquareMode(c, ShipCell(ship.name));
      }
    }

    /** The loop of AddShipSquare: the position of the last ship of the fleet with the given name, or -1. */
    method FindShip(name: string) returns (existing: int)
      ensures existing == LastIndexOf(Names(ships), name)
      ensures existing == -1 <==> name !in Names(ships)
      ensures existing != -1 ==> 0 <= existing < |ships| && ships[existing].name == name
    {
      existing := -1;
      var i := 0;
      while i < |ships|
        invariant 0 <= i <= |ships|
        invariant existing == LastIndexOf(Names(ships)[..i], name)
      {
        assert Names(ships)[..i + 1][..i] == Names(ships)[..i];
        if ships[i].name == name {
          existing := i;
        }
        i := i + 1;
      }
      assert Names(ships)[..i] == Names(ships);
    }

    /**
     * AddShipSquare: looks for the last ship of the fleet with the same name.
     * Without one, the ship joins the fleet; with one, the given ship's first
     * coordinate is added to that ship's list unless it is already there.
     */
    method AddShipSquare(ship: Ship) returns (out: Outcome)
      modifies this`ships, ships`coords
      ensures ship.name !in Names(old(ships)) ==> ships == old(ships) + [ship] && out == Pass
      ensures ship.name in Names(old(ships)) ==> ships == old(ships)
      ensures ship.name in Names(old(ships)) ==> (out.Fail? <==> old(ship.coords) == [])
      ensures out.Fail? ==> out == Fail(IndexOutOfRange)
      ensures ship.name in Names(old(ships)) && old(ship.coords) != [] ==>
                var t := old(ships)[LastIndexOf(Names(old(ships)), ship.name)];
                var c := old(ship.coords)[0];
                t.coords == if c in old(t.coords) then old(t.coords) else old(t.coords) + [c]
      ensures forall s :: s in old(ships) && s.name != ship.name ==> s.coords == old(s.coords)
      ensures Distinct(Names(old(ships))) ==> Distinct(Names(ships))
      ensures old(Valid()) && old(ship.Valid()) ==> Valid()
    {
      var existing := FindShip(ship.name);
      if existing == -1 {
        ships := ships + [ship];
        assert Names(ships) == Names(old(ships)) + [ship.name];
        out := Pass;
      } else if |ship.coords| == 0 {
        out := Fail(IndexOutOfRange);
      } else {
        var testShip := ships[existing];
        var newCoOrds := ship.coords[0];
        if newCoOrds !in testShip.coords {
          testShip.coords := testShip.coords + [newCoOrds];
        }
        out := Pass;
      }
    }
  }

  /** Player(name, position): a blank name is rejected. */
  method NewPlayer(name: string, position: int) returns (r: Result<Player>)
    ensures name == "" <==> r.Err?
    ensures r.Err? ==> r.error == BlankName
    ensures r.Ok? ==> fresh(r.value) && fresh(r.value.grid) && r.value.Valid()
                      && r.value.name == name && r.value.enemy == GetNextPlayer(position)
                      && r.value.ships == []
    ensures r.Ok? ==> forall c :: c in r.value.grid.squares ==> r.value.grid.squares[c] == NewSquare(c)
  {
    if name == "" {
      return Err(BlankName);
    }
    var player := new Player(name, position);
    return Ok(player);
  }

  /** Two players share no object: different players, grids and ships. */
  ghost predicate Apart(p: Player, q: Player)
    reads p, q
  {
    p != q && p.grid != q.grid && forall s :: s in p.ships ==> s !in q.ships
  }

  class Game {
    /** Players: the players in turn order. */
    var players: seq<Player>

    /** A new game has no players. */
    constructor()
      ensures players == []
    {
      players := [];
    }

    /**
     * A turn of the player at position `k` keeps the game ready: the game
     * and both players kept their fields, nothing of the shooter changed,
     * and the enemy is still valid.
     */
    twostate lemma TurnKeptReady(k: int)
      requires old(Ready()) && 0 <= k < NumPlayers
      requires unchanged(this) && unchanged(players[0], players[1])
      requires unchanged(players[k].grid) && forall s | s in players[k].ships :: unchanged(s)
      requires players[1 - k].Valid()
      ensures Ready()
    {
      var shooter := players[k];
      assert forall i :: 0 <= i < |shooter.ships| ==> shooter.ships[i] in shooter.ships;
    }

    /** A game none of whose objects changed is as ready as it was. */
    twostate lemma KeptReady()
      requires old(Ready()) && unchanged(this) && unchanged(players[0], players[1], players[0].grid, players[1].grid)
      requires forall s | s in players[0].ships :: unchanged(s)
      requires forall s | s in players[1].ships :: unchanged(s)
      ensures Ready()
    {
      assert forall i :: 0 <= i < |players[0].ships| ==> players[0].ships[i] in players[0].ships;
      assert forall i :: 0 <= i < |players[1].ships| ==> players[1].ships[i] in players[1].ships;
    }

    /**
     * A game ready to be played: two valid, named players, each attacking
     * the next one, sharing no objects.
     */
    ghost predicate Ready()
      reads this, players
      reads if |players| == NumPlayers then {players[0], players[1], players[0].grid, players[1].grid} else {}
      reads if |players| == NumPlayers then players[0].ships else []
      reads if |players| == NumPlayers then players[1].ships else []
    {
      |players| == NumPlayers
      && players[0].Ready(0) && players[1].Ready(1)
      && Apart(players[0], players[1])
    }
  }
}
