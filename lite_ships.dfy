/**
 * Ships: a named ship with a facing, the coordinates it occupies, a hit
 * counter and a status that goes from Safe to Sunk once, when the counter
 * reaches the ship's size.
 */
module LiteShips {
  import opened Outcomes
  import opened Text
  import opened LiteEnums
  import opened LiteConfig
  import opened LiteCodec

  /** The part of a ship that shots change: the hit counter and the status. */
  datatype Damage = Damage(hits: int, status: ShipStatus)

  /** A new ship has taken no hits and is afloat. */
  const Undamaged := Damage(0, Safe)

  /**
   * ShipHit(): one more hit; the ship sinks when the counter reaches its
   * size.  A sunk ship is never made safe again.
   */
  function Struck(d: Damage, size: nat): (r: Damage)
    ensures r.hits == d.hits + 1
    ensures d.status == Sunk ==> r.status == Sunk
    ensures r.status == Sunk <==> d.status == Sunk || r.hits == size
  {
    var hits := d.hits + 1;
    Damage(hits, if hits == size then Sunk else d.status)
  }

  /** The damage of a ship that has been hit `n` times since it was built. */
  function StruckTimes(n: nat, size: nat): Damage
  {
    if n == 0 then Undamaged else Struck(StruckTimes(n - 1, size), size)
  }

  /** The hit counter and the status agree: sunk exactly when at least `size` hits were taken. */
  predicate Consistent(d: Damage, size: nat)
  {
    d.hits >= 0 && (d.status == Sunk <==> d.hits >= size)
  }

  /** A hit keeps the counter and the status in agreement. */
  lemma StruckConsistent(d: Damage, size: nat)
    requires size >= 1 && Consistent(d, size)
    ensures Consistent(Struck(d, size), size)
  {
  }

  /** From a new ship, after n hits the counter is n and the ship is sunk iff n >= size. */
  lemma {:induction false} SunkAfterHits(n: nat, size: nat)
    requires size >= 1
    ensures StruckTimes(n, size).hits == n
    ensures StruckTimes(n, size).status == Sunk <==> n >= size
    ensures Consistent(StruckTimes(n, size), size)
  {
    if n > 0 {
      SunkAfterHits(n - 1, size);
      StruckConsistent(StruckTimes(n - 1, size), size);
    }
  }

  class Ship {
    /** ShipName: a ship's name is a key of the ship table. */
    const name: string
    var facing: Orientation
    var coords: seq<string>
    var hits: int
    var status: ShipStatus

    function State(): Damage
      reads this
    {
      Damage(hits, status)
    }

    /** Size: the number of squares the ship table gives the ship's name. */
    function Size(): (n: nat)
      requires name in ShipsList
      ensures n == ShipsList[name] && n >= 1
    {
      ShipSizes();
      ShipsList[name]
    }

    /** The ship's name is in the ship table and its damage is consistent. */
    ghost predicate Valid()
      reads this
    {
      name in ShipsList && Consistent(State(), Size())
    }

    /** A new ship: the given name, facing Down, no coordinates, no hits, Safe. */
    constructor(name: string)
      requires name != ""
      ensures this.name == name && facing == Down && coords == [] && State() == Undamaged
      ensures name in ShipsList ==> Valid()
    {
      this.name := name;
      facing := Down;
      coords := [];
      hits := 0;
      status := Safe;
    }

    /** AddCoOrdinate: validates the coordinate and appends its canonical form. */
    method AddCoOrdinate(coord: string) returns (out: Outcome)
      modifies this`coords
      ensures ValidCoOrdinates(coord).Ok? <==> out.Pass?
      ensures out.Pass? ==> coords == old(coords) + [ValidCoOrdinates(coord).value]
      ensures out.Fail? ==> coords == old(coords) && out.error == ValidCoOrdinates(coord).error
    {
      var valid := ValidCoOrdinates(coord);
      if valid.Err? {
        return Fail(valid.error);
      }
      coords := coords + [valid.value];
      return Pass;
    }

    /**
     * Assigning CoOrdinates: the list is cleared, then each new coordinate is
     * validated and appended in turn; an invalid one stops the assignment and
     * leaves the canonical forms of the ones before it.
     */
    method SetCoOrdinates(values: seq<string>) returns (out: Outcome)
      modifies this`coords
      ensures out.Pass? <==> forall k :: 0 <= k < |values| ==> ValidCoOrdinates(values[k]).Ok?
      ensures |coords| <= |values|
      ensures forall k :: 0 <= k < |coords| ==> ValidCoOrdinates(values[k]) == Ok(coords[k])
      ensures out.Pass? ==> |coords| == |values|
      ensures out.Fail? ==> |coords| < |values| && ValidCoOrdinates(values[|coords|]) == Err(out.error)
    {
      coords := [];
      var i := 0;
      while i < |values|
        invariant 0 <= i <= |values| && |coords| == i
        invariant forall k :: 0 <= k < i ==> ValidCoOrdinates(values[k]) == Ok(coords[k])
      {
        var valid := ValidCoOrdinates(values[i]);
        if valid.Err? {
          return Fail(valid.error);
        }
        coords := coords + [valid.value];
        i := i + 1;
      }
      return Pass;
    }

    /**
     * The Status setter: any status may be set, whatever the counter says,
     * so it can leave the ship not Valid.
     */
    method SetStatus(value: ShipStatus)
      modifies this`status
      ensures status == value
    {
      status := value;
    }

    /**
     * ShipHit(): counts a hit and sinks the ship when the counter reaches its
     * size.  A ship whose counter and status agreed still has them agree.
     */
    method ShipHit()
      requires name in ShipsList
      modifies this
      ensures State() == Struck(old(State()), Size())
      ensures coords == old(coords) && facing == old(facing)
      ensures old(Valid()) ==> Valid()
    {
      if Valid() {
        StruckConsistent(State(), Size());
      }
      hits := hits + 1;
      if hits == Size() {
        status := Sunk;
      }
    }

    /** ShipHit(target): a hit on one of the ship's squares counts; any other shot changes nothing. */
    method ShipHitAt(target: string)
      requires name in ShipsList
      modifies this
      ensures State() == if target in old(coords) then Struck(old(State()), Size()) else old(State())
      ensures coords == old(coords) && facing == old(facing)
      ensures old(Valid()) ==> Valid()
    {
      if target in coords {
        ShipHit();
      }
    }
  }

  /** Ships(name): a blank name is rejected, any other gives a new ship. */
  method NewShip(name: string) returns (r: Result<Ship>)
    ensures name == "" <==> r.Err?
    ensures r.Err? ==> r.error == BlankName
    ensures r.Ok? ==> fresh(r.value) && r.value.name == name && r.value.facing == Down
                      && r.value.coords == [] && r.value.State() == Undamaged
  {
    if name == "" {
      return Err(BlankName);
    }
    var ship := new Ship(name);
    return Ok(ship);
  }
}
