/**
 * Grid management: placing the extra squares of a ship, taking a failed
 * ship off the grid, finding a player's enemy and scoring a grid.
 */
module LiteManagement {
  import opened Outcomes
  import opened Text
  import opened Lists
  import opened LiteEnums
  import opened LiteConfig
  import opened LiteCodec
  import opened LiteSquares
  import opened LiteGrid
  import opened LiteShips
  import opened LitePlayers
  import opened LiteValidation

  /** The position of a label on its axis as CurrentIndex finds it: the last match, or 0 when absent. */
  function LabelIndex(element: string, labels: seq<string>): (r: int)
    ensures 0 <= r && (|labels| > 0 ==> r < |labels|)
    ensures element in labels ==> labels[r] == element && forall k :: r < k < |labels| ==> labels[k] != element
    ensures element !in labels ==> r == 0
  {
    var last := LastIndexOf(labels, element);
    if last == -1 then 0 else last
  }

  /** CurrentIndex: scans the whole list, remembering the position of each match. */
  method CurrentIndex(element: string, labels: seq<string>) returns (currentIndex: int)
    ensures currentIndex == LabelIndex(element, labels)
  {
    currentIndex := 0;
    var count := 0;
    while count < |labels|
      invariant 0 <= count <= |labels|
      invariant currentIndex == LabelIndex(element, labels[..count])
    {
      assert labels[..count + 1][..count] == labels[..count];
      if labels[count] == element {
        currentIndex := count;
      }
      count := count + 1;
    }
    assert labels[..count] == labels;
  }

  /** Down and Up move along the rows, Left and Right along the columns. */
  function AxisLabels(facing: Orientation): seq<string>
  {
    if facing == Down || facing == Up then ValidYLabels else ValidXLabels
  }

  /** One upper-case character that is not white space. */
  predicate Tag(l: string)
  {
    |l| == 1 && IsUpper(l) && !IsWhiteSpace(l[0])
  }

  /** Labels that are all tags: the first one is, and so are the rest. */
  predicate Tags(labels: seq<string>)
    decreases |labels|
  {
    labels == [] || (Tag(labels[0]) && Tags(labels[1..]))
  }

  /** Tags holds exactly when every label is a tag. */
  lemma {:induction false} TagsIff(labels: seq<string>)
    ensures Tags(labels) <==> forall l :: l in labels ==> Tag(l)
    decreases |labels|
  {
    if labels != [] {
      var rest := labels[1..];
      TagsIff(rest);
      assert labels == [labels[0]] + rest;
    }
  }

  /** The label at any position of a run of tags is a tag. */
  lemma TagAt(labels: seq<string>, k: int)
    requires Tags(labels) && 0 <= k < |labels|
    ensures Tag(labels[k])
  {
    TagsIff(labels);
    assert labels[k] in labels;
  }

  /** An axis to walk along: labels that are tags, and a prow whose row and column are upper case. */
  predicate Axis(labels: seq<string>, y: string, x: string)
  {
    Tags(labels) && IsUpper(y) && IsUpper(x)
  }

  /** The row labels are tags. */
  lemma RowTags()
    ensures Tags(ValidYLabels)
  {
    assert Tags(ValidYLabels[4..]);
    assert Tags(ValidYLabels[3..]);
    assert Tags(ValidYLabels[2..]);
    assert Tags(ValidYLabels[1..]);
  }

  /** The column labels are tags. */
  lemma ColumnTags()
    ensures Tags(ValidXLabels)
  {
    assert Tags(ValidXLabels[4..]);
    assert Tags(ValidXLabels[3..]);
    assert Tags(ValidXLabels[2..]);
    assert Tags(ValidXLabels[1..]);
  }

  /** The configured labels of both axes are tags, none repeated. */
  lemma AxisTags(facing: Orientation)
    ensures Tags(AxisLabels(facing)) && Distinct(AxisLabels(facing))
  {
    LabelsDistinct();
    if facing == Down || facing == Up {
      RowTags();
    } else {
      ColumnTags();
    }
  }

  /**
   * The coordinate at position `k` of the axis `labels`: that label followed
   * by the prow's column (Down, Up), or the prow's row followed by that label
   * (Left, Right).
   */
  function StepCoord(facing: Orientation, labels: seq<string>, y: string, x: string, k: int): string
    requires 0 <= k < |labels|
  {
    if facing == Down || facing == Up then labels[k] + x else y + labels[k]
  }

  /** From a prow on the grid, every position of the facing's axis is a square of the grid. */
  lemma StepCoordOnGrid(facing: Orientation, y: string, x: string, k: int)
    requires 0 <= k < |AxisLabels(facing)| && y in ValidYLabels && x in ValidXLabels
    ensures OnGrid(StepCoord(facing, AxisLabels(facing), y, x, k))
  {
    var c := StepCoord(facing, AxisLabels(facing), y, x, k);
    LabelShapes();
    assert AxisLabels(facing)[k] in AxisLabels(facing);
    CoordinateInAll(c);
    OnGridIsAllCoords(c);
  }

  /** Different positions of an axis without repeated labels give different coordinates. */
  lemma StepCoordInjective(facing: Orientation, labels: seq<string>, y: string, x: string, k: int, k': int)
    requires Distinct(labels) && 0 <= k < |labels| && 0 <= k' < |labels| && k != k'
    ensures StepCoord(facing, labels, y, x, k) != StepCoord(facing, labels, y, x, k')
  {
    var c, c' := StepCoord(facing, labels, y, x, k), StepCoord(facing, labels, y, x, k');
    assert labels[k] != labels[k'];
    if facing == Down || facing == Up {
      assert c[..|c| - |x|] == labels[k] && c'[..|c'| - |x|] == labels[k'];
    } else {
      assert c[|y|..] == labels[k] && c'[|y|..] == labels[k'];
    }
  }

  /** A tag followed or preceded by an upper-case part is upper case and not blank. */
  lemma StepCoordUpper(facing: Orientation, labels: seq<string>, y: string, x: string, k: int)
    requires Axis(labels, y, x) && 0 <= k < |labels|
    ensures IsUpper(StepCoord(facing, labels, y, x, k)) && !IsNullOrWhiteSpace(StepCoord(facing, labels, y, x, k))
  {
    var tag := labels[k];
    TagAt(labels, k);
    if facing == Down || facing == Up {
      UpperAppend(tag, x);
      assert StepCoord(facing, labels, y, x, k)[0] == tag[0];
    } else {
      UpperAppend(y, tag);
      assert StepCoord(facing, labels, y, x, k)[|y|] == tag[0];
    }
  }

  /** The outcome of placing a ship's squares: the grid dictionary, the ship's coordinate list and the outcome. */
  datatype Placement = Placement(squares: map<string, Square>, coords: seq<string>, outcome: Outcome)

  /**
   * One extra square, on an upper-case coordinate: a coordinate that is not
   * a square of the grid is refused as ValidCoOrdinates refuses it, a square
   * holding a ship as ValidShipLocation refuses it, and any other square is
   * given to the ship and appended to its list.
   */
  function GiveSquare(squares: map<string, Square>, coords: seq<string>, name: string, c: string): (r: Placement)
    ensures r.outcome.Fail? <==> c !in squares || squares[c].content.ShipCell?
  {
    if c !in squares then Placement(squares, coords, Fail(InvalidCoordinate("D3")))
    else if squares[c].content.ShipCell? then Placement(squares, coords, Fail(AlreadyFilledAt(c)))
    else Placement(squares[c := Square(c, ShipCell(name))], coords + [c], Pass)
  }

  /**
   * On an upper-case, non-blank coordinate, GiveSquare agrees with
   * ValidShipLocation followed by AddShip: it succeeds exactly when
   * ValidShipLocation accepts the coordinate, and fails with its error.
   */
  lemma GiveSquareIsValidShipLocation(squares: map<string, Square>, coords: seq<string>, name: string, c: string)
    requires (forall d :: d in squares <==> OnGrid(d)) && IsUpper(c) && !IsNullOrWhiteSpace(c)
    ensures GiveSquare(squares, coords, name, c).outcome.Pass? <==> ValidShipLocation(c, squares).Ok?
    ensures ValidShipLocation(c, squares).Ok? ==>
              ValidShipLocation(c, squares).value == c
              && GiveSquare(squares, coords, name, c) == Placement(squares[c := Square(c, ShipCell(name))], coords + [c], Pass)
    ensures ValidShipLocation(c, squares).Err? ==>
              GiveSquare(squares, coords, name, c) == Placement(squares, coords, Fail(ValidShipLocation(c, squares).error))
  {
    ToUpperFixesUpper(c);
    AllCoordsAreCoordinates(c);
    OnGridIsAllCoords(c);
  }

  /**
   * The `count` extra squares from position `start` of the axis `labels` on,
   * in increasing order: a position off the axis stops with TooCloseToEdge,
   * a square that is refused stops with its error, and any other square is
   * given to the ship.  Squares given before a failure stay given.
   */
  function Place(squares: map<string, Square>, coords: seq<string>, name: string,
                 facing: Orientation, labels: seq<string>, y: string, x: string, start: int, count: nat): Placement
    decreases count
  {
    if count == 0 then Placement(squares, coords, Pass)
    else if start < 0 || start >= |labels| then Placement(squares, coords, Fail(TooCloseToEdge))
    else
      var p := GiveSquare(squares, coords, name, StepCoord(facing, labels, y, x, start));
      if p.outcome.Fail? then p else Place(p.squares, p.coords, name, facing, labels, y, x, start + 1, count - 1)
  }

  /** The first extra square's position: after the prow for Down and Right, the farthest one for Left and Up. */
  function FirstExtra(facing: Orientation, current: int, size: nat): int
  {
    if facing == Down || facing == Right then current + 1 else current - (size - 1)
  }

  /**
   * AddLargeShipExtraSquares as a function of the grid and the ship's list:
   * the prow is split, its position on the axis of the facing looked up and
   * the size - 1 extra squares placed.
   */
  function ExtraSquares(squares: map<string, Square>, coords: seq<string>, prow: string,
                        facing: Orientation, name: string, size: nat): Placement
    requires size >= 1
  {
    match SplitCoOrdinates(prow)
    case Err(e) => Placement(squares, coords, Fail(e))
    case Ok((x, y)) =>
      var labels := AxisLabels(facing);
      var current := LabelIndex(if facing == Down || facing == Up then y else x, labels);
      Place(squares, coords, name, facing, labels, y, x, FirstExtra(facing, current, size), size - 1)
  }

  /** Nothing left to place: the run succeeds and changes nothing. */
  lemma PlaceDone(squares: map<string, Square>, coords: seq<string>, name: string,
                  facing: Orientation, labels: seq<string>, y: string, x: string, start: int)
    ensures Place(squares, coords, name, facing, labels, y, x, start, 0) == Placement(squares, coords, Pass)
  {
  }

  /** A position off the axis stops the run before anything is placed. */
  lemma PlaceOffAxis(squares: map<string, Square>, coords: seq<string>, name: string,
                     facing: Orientation, labels: seq<string>, y: string, x: string, start: int, count: nat)
    requires count >= 1 && (start < 0 || start >= |labels|)
    ensures Place(squares, coords, name, facing, labels, y, x, start, count)
            == Placement(squares, coords, Fail(TooCloseToEdge))
  {
  }

  /** A square that is refused stops the run with GiveSquare's outcome. */
  lemma PlaceStepFail(squares: map<string, Square>, coords: seq<string>, name: string,
                      facing: Orientation, labels: seq<string>, y: string, x: string, start: int, count: nat, c: string)
    requires count >= 1 && 0 <= start < |labels| && c == StepCoord(facing, labels, y, x, start)
    requires GiveSquare(squares, coords, name, c).outcome.Fail?
    ensures Place(squares, coords, name, facing, labels, y, x, start, count) == GiveSquare(squares, coords, name, c)
  {
  }

  /** A square that is given lets the run go on from the next position. */
  lemma PlaceStepPass(squares: map<string, Square>, coords: seq<string>, name: string,
                      facing: Orientation, labels: seq<string>, y: string, x: string, start: int, count: nat, c: string)
    requires count >= 1 && 0 <= start < |labels| && c == StepCoord(facing, labels, y, x, start)
    requires GiveSquare(squares, coords, name, c).outcome.Pass?
    ensures var p := GiveSquare(squares, coords, name, c);
            Place(squares, coords, name, facing, labels, y, x, start, count)
            == Place(p.squares, p.coords, name, facing, labels, y, x, start + 1, count - 1)
  {
  }

  /** Placing changes no key of the grid: the grid keeps its squares. */
  lemma {:induction false} PlaceKeepsKeys(squares: map<string, Square>, coords: seq<string>, name: string,
                                          facing: Orientation, labels: seq<string>, y: string, x: string, start: int, count: nat)
    ensures Place(squares, coords, name, facing, labels, y, x, start, count).squares.Keys == squares.Keys
    decreases count
  {
    if count > 0 && 0 <= start < |labels| {
      var p := GiveSquare(squares, coords, name, StepCoord(facing, labels, y, x, start));
      if p.outcome.Pass? {
        PlaceKeepsKeys(p.squares, p.coords, name, facing, labels, y, x, start + 1, count - 1);
      }
    }
  }

  /** Placing only ever appends to the ship's list: the coordinates it had stay first. */
  lemma {:induction false} PlaceAppends(squares: map<string, Square>, coords: seq<string>, name: string,
                                        facing: Orientation, labels: seq<string>, y: string, x: string, start: int, count: nat)
    ensures coords <= Place(squares, coords, name, facing, labels, y, x, start, count).coords
    decreases count
  {
    if count > 0 && 0 <= start < |labels| {
      var p := GiveSquare(squares, coords, name, StepCoord(facing, labels, y, x, start));
      if p.outcome.Pass? {
        PlaceAppends(p.squares, p.coords, name, facing, labels, y, x, start + 1, count - 1);
        assert coords <= p.coords;
      }
    }
  }

  /** The run of positions lies on the axis. */
  predicate OnAxis(labels: seq<string>, start: int, count: nat)
  {
    count == 0 || (0 <= start && start + count <= |labels|)
  }

  /** The coordinates of a run of positions on the axis, in order. */
  function Cells(facing: Orientation, labels: seq<string>, y: string, x: string, start: int, count: nat): (cells: seq<string>)
    requires OnAxis(labels, start, count)
    ensures |cells| == count
    decreases count
  {
    if count == 0 then [] else [StepCoord(facing, labels, y, x, start)] + Cells(facing, labels, y, x, start + 1, count - 1)
  }

  /** The grid with the given squares given to the named ship. */
  function Mark(squares: map<string, Square>, cells: seq<string>, name: string): (m: map<string, Square>)
    ensures m.Keys == squares.Keys
    ensures forall c :: c in squares && c !in cells ==> m[c] == squares[c]
  {
    map c | c in squares :: if c in cells then Square(c, ShipCell(name)) else squares[c]
  }

  /** The run of positions is free: on the axis, and each of its squares is on the grid and holds no ship. */
  predicate Free(squares: map<string, Square>, facing: Orientation, labels: seq<string>, y: string, x: string,
                 start: int, count: nat)
  {
    OnAxis(labels, start, count)
    && forall k :: start <= k < start + count ==>
         StepCoord(facing, labels, y, x, k) in squares && !squares[StepCoord(facing, labels, y, x, k)].content.ShipCell?
  }

  /** A run is free exactly when its first position is and the rest of the run is. */
  lemma FreeCons(squares: map<string, Square>, facing: Orientation, labels: seq<string>, y: string, x: string,
                 start: int, count: nat)
    requires count >= 1
    ensures Free(squares, facing, labels, y, x, start, count) <==>
              0 <= start < |labels|
              && StepCoord(facing, labels, y, x, start) in squares
              && !squares[StepCoord(facing, labels, y, x, start)].content.ShipCell?
              && Free(squares, facing, labels, y, x, start + 1, count - 1)
  {
  }

  /** Giving a ship the square of a position before a run leaves the run as free as before. */
  lemma FreeAfterGiving(squares: map<string, Square>, facing: Orientation, labels: seq<string>, y: string, x: string,
                        k: int, start: int, count: nat, name: string)
    requires Distinct(labels) && 0 <= k < |labels| && k < start && StepCoord(facing, labels, y, x, k) in squares
    ensures var c := StepCoord(facing, labels, y, x, k);
            Free(squares[c := Square(c, ShipCell(name))], facing, labels, y, x, start, count)
            <==> Free(squares, facing, labels, y, x, start, count)
  {
    var c := StepCoord(facing, labels, y, x, k);
    if OnAxis(labels, start, count) {
      forall j | start <= j < start + count
        ensures StepCoord(facing, labels, y, x, j) != c
      {
        StepCoordInjective(facing, labels, y, x, k, j);
      }
    }
  }

  /** Giving one square and then the others is giving them all. */
  lemma MarkCons(squares: map<string, Square>, c: string, cells: seq<string>, name: string)
    requires c in squares
    ensures Mark(squares[c := Square(c, ShipCell(name))], cells, name)
            == Mark(squares, [c] + cells, name)
  {
    var m, m' := Mark(squares[c := Square(c, ShipCell(name))], cells, name), Mark(squares, [c] + cells, name);
    forall d | d in m
      ensures m[d] == m'[d]
    {
    }
  }

  /** On an axis without repeated labels, placing a run of extra squares succeeds exactly when the run is free. */
  lemma {:induction false} PlaceSucceedsIffFree(squares: map<string, Square>, coords: seq<string>, name: string,
                                                facing: Orientation, labels: seq<string>, y: string, x: string,
                                                start: int, count: nat)
    requires Distinct(labels)
    ensures Place(squares, coords, name, facing, labels, y, x, start, count).outcome.Pass?
            <==> Free(squares, facing, labels, y, x, start, count)
    decreases count
  {
    if count > 0 {
      FreeCons(squares, facing, labels, y, x, start, count);
      if 0 <= start < |labels| {
        var c := StepCoord(facing, labels, y, x, start);
        if c in squares && !squares[c].content.ShipCell? {
          PlaceStepPass(squares, coords, name, facing, labels, y, x, start, count, c);
          PlaceSucceedsIffFree(squares[c := Square(c, ShipCell(name))], coords + [c], name, facing, labels, y, x,
                               start + 1, count - 1);
          FreeAfterGiving(squares, facing, labels, y, x, start, start + 1, count - 1, name);
        }
      }
    }
  }

  /** When the run is free, the ship's list gains its squares, in order. */
  lemma {:induction false} PlacedCoords(squares: map<string, Square>, coords: seq<string>, name: string,
                                        facing: Orientation, labels: seq<string>, y: string, x: string,
                                        start: int, count: nat)
    requires Distinct(labels) && Free(squares, facing, labels, y, x, start, count)
    ensures Place(squares, coords, name, facing, labels, y, x, start, count).coords
            == coords + Cells(facing, labels, y, x, start, count)
    decreases count
  {
    if count > 0 {
      FreeCons(squares, facing, labels, y, x, start, count);
      var c := StepCoord(facing, labels, y, x, start);
      PlaceStepPass(squares, coords, name, facing, labels, y, x, start, count, c);
      FreeAfterGiving(squares, facing, labels, y, x, start, start + 1, count - 1, name);
      PlacedCoords(squares[c := Square(c, ShipCell(name))], coords + [c], name, facing, labels, y, x,
                   start + 1, count - 1);
      AppendAssoc(coords, [c], Cells(facing, labels, y, x, start + 1, count - 1));
    }
  }

  /** When the run is free, its squares go to the ship and nothing else of the grid changes. */
  lemma {:induction false} PlacedSquares(squares: map<string, Square>, coords: seq<string>, name: string,
                                         facing: Orientation, labels: seq<string>, y: string, x: string,
                                         start: int, count: nat)
    requires Distinct(labels) && Free(squares, facing, labels, y, x, start, count)
    ensures Place(squares, coords, name, facing, labels, y, x, start, count).squares
            == Mark(squares, Cells(facing, labels, y, x, start, count), name)
    decreases count
  {
    if count == 0 {
      assert Mark(squares, [], name) == squares;
    } else {
      FreeCons(squares, facing, labels, y, x, start, count);
      var c := StepCoord(facing, labels, y, x, start);
      PlaceStepPass(squares, coords, name, facing, labels, y, x, start, count, c);
      FreeAfterGiving(squares, facing, labels, y, x, start, start + 1, count - 1, name);
      PlacedSquares(squares[c := Square(c, ShipCell(name))], coords + [c], name, facing, labels, y, x,
                    start + 1, count - 1);
      MarkCons(squares, c, Cells(facing, labels, y, x, start + 1, count - 1), name);
    }
  }

  /**
   * Left and Up check the farthest square first: when the ship does not fit
   * before the edge, nothing is placed.
   */
  lemma LeftUpEdgeFailsFirst(squares: map<string, Square>, coords: seq<string>, name: string,
                             facing: Orientation, labels: seq<string>, y: string, x: string, current: int, size: nat)
    requires (facing == Left || facing == Up) && size >= 2 && FirstExtra(facing, current, size) < 0
    ensures Place(squares, coords, name, facing, labels, y, x, FirstExtra(facing, current, size), size - 1)
            == Placement(squares, coords, Fail(TooCloseToEdge))
  {
  }

  /**
   * Down and Right check the nearest square first: a three-square ship
   * pointing down from row D is given square E1 before the edge stops it.
   */
  lemma DownEdgeFailsAfterPlacing(squares: map<string, Square>, name: string)
    requires "E1" in squares && !squares["E1"].content.ShipCell?
    ensures LabelIndex("D", AxisLabels(Down)) == 3 && FirstExtra(Down, 3, 3) == 4
    ensures Place(squares, [], name, Down, AxisLabels(Down), "D", "1", 4, 2)
            == Placement(squares["E1" := Square("E1", ShipCell(name))], ["E1"], Fail(TooCloseToEdge))
  {
    LabelsDistinct();
    assert ValidYLabels[3] == "D";
    assert StepCoord(Down, AxisLabels(Down), "D", "1", 4) == "E1";
  }

  /** A one-square ship has no extra squares: placing them changes nothing. */
  lemma SingleSquareAddsNothing(squares: map<string, Square>, coords: seq<string>, prow: string,
                                facing: Orientation, name: string)
    requires !IsNullOrWhiteSpace(prow)
    ensures ExtraSquares(squares, coords, prow, facing, name, 1) == Placement(squares, coords, Pass)
  {
  }

  /** One extra square of AddLargeShipExtraSquares: ValidShipLocation, then AddShip. */
  method PlaceSquare(coord: string, ship: Ship, player: Player) returns (out: Outcome)
    requires player.grid.Valid() && IsUpper(coord) && !IsNullOrWhiteSpace(coord)
    modifies player.grid, ship`coords
    ensures Placement(player.grid.squares, ship.coords, out)
            == GiveSquare(old(player.grid.squares), old(ship.coords), ship.name, coord)
    ensures player.grid.Valid()
  {
    GiveSquareIsValidShipLocation(player.grid.squares, ship.coords, ship.name, coord);
    var location := ValidShipLocation(coord, player.grid.squares);
    if location.Err? {
      out := Fail(location.error);
    } else {
      CanonicalIsFixedPoint(location.value);
      out := player.AddShip(ship, location.value);
    }
  }

  /**
   * The square at position `k` of the axis, inside one of the four loops:
   * a position off the axis fails with TooCloseToEdge before anything is
   * placed; otherwise the coordinate is built from the label and the prow's
   * other part and placed as PlaceSquare places it.  The run from `k` on
   * goes on from `k + 1` or stops here.
   */
  method PlaceAt(ship: Ship, player: Player, facing: Orientation, labels: seq<string>, y: string, x: string,
                 k: int, ghost count: nat) returns (out: Outcome)
    requires Axis(labels, y, x) && count >= 1
    requires player.grid.Valid()
    modifies player.grid, ship`coords
    ensures Place(old(player.grid.squares), old(ship.coords), ship.name, facing, labels, y, x, k, count)
            == if out.Fail? then Placement(player.grid.squares, ship.coords, out)
               else Place(player.grid.squares, ship.coords, ship.name, facing, labels, y, x, k + 1, count - 1)
    ensures player.grid.Valid()
  {
    if k < 0 || k >= |labels| {
      PlaceOffAxis(player.grid.squares, ship.coords, ship.name, facing, labels, y, x, k, count);
      return Fail(TooCloseToEdge);
    }
    var coord := if facing == Down || facing == Up then labels[k] + x else y + labels[k];
    StepCoordUpper(facing, labels, y, x, k);
    ghost var squares, coords := player.grid.squares, ship.coords;
    out := PlaceSquare(coord, ship, player);
    if out.Fail? {
      PlaceStepFail(squares, coords, ship.name, facing, labels, y, x, k, count, coord);
    } else {
      PlaceStepPass(squares, coords, ship.name, facing, labels, y, x, k, count, coord);
    }
  }

  /** The Down and Right loops: the positions after the prow's, nearest first. */
  method PlaceForward(ship: Ship, player: Player, facing: Orientation, labels: seq<string>, y: string, x: string,
                      currentIndex: int, size: nat) returns (out: Outcome)
    requires (facing == Down || facing == Right) && Axis(labels, y, x) && size >= 1
    requires player.grid.Valid()
    modifies player.grid, ship`coords
    ensures Placement(player.grid.squares, ship.coords, out)
            == Place(old(player.grid.squares), old(ship.coords), ship.name, facing, labels, y, x,
                     FirstExtra(facing, currentIndex, size), size - 1)
    ensures player.grid.Valid()
  {
    var i := 1;
    // the position and the number of squares left, as Place counts them
    ghost var pos, rem := FirstExtra(facing, currentIndex, size), size - 1;
    ghost var goal := Place(player.grid.squares, ship.coords, ship.name, facing, labels, y, x, pos, rem);
    while i < size
      invariant 1 <= i <= size && pos == currentIndex + i && rem == size - i
      invariant player.grid.Valid()
      invariant goal == Place(player.grid.squares, ship.coords, ship.name, facing, labels, y, x, pos, rem)
    {
      out := PlaceAt(ship, player, facing, labels, y, x, currentIndex + i, rem);
      if out.Fail? {
        return;
      }
      i := i + 1;
      pos, rem := pos + 1, rem - 1;
    }
    assert rem == 0;
    PlaceDone(player.grid.squares, ship.coords, ship.name, facing, labels, y, x, pos);
    out := Pass;
  }

  /** The Left and Up loops: the positions before the prow's, farthest first. */
  method PlaceBackward(ship: Ship, player: Player, facing: Orientation, labels: seq<string>, y: string, x: string,
                       currentIndex: int, size: nat) returns (out: Outcome)
    requires (facing == Left || facing == Up) && Axis(labels, y, x) && size >= 1
    requires player.grid.Valid()
    modifies player.grid, ship`coords
    ensures Placement(player.grid.squares, ship.coords, out)
            == Place(old(player.grid.squares), old(ship.coords), ship.name, facing, labels, y, x,
                     FirstExtra(facing, currentIndex, size), size - 1)
    ensures player.grid.Valid()
  {
    var i := size - 1;
    // the position and the number of squares left, as Place counts them
    ghost var pos, rem := FirstExtra(facing, currentIndex, size), size - 1;
    ghost var goal := Place(player.grid.squares, ship.coords, ship.name, facing, labels, y, x, pos, rem);
    while i > 0
      invariant 0 <= i <= size - 1 && pos == currentIndex - i && rem == i
      invariant player.grid.Valid()
      invariant goal == Place(player.grid.squares, ship.coords, ship.name, facing, labels, y, x, pos, rem)
    {
      out := PlaceAt(ship, player, facing, labels, y, x, currentIndex - i, rem);
      if out.Fail? {
        return;
      }
      i := i - 1;
      pos, rem := pos + 1, rem - 1;
    }
    assert rem == 0;
    PlaceDone(player.grid.squares, ship.coords, ship.name, facing, labels, y, x, pos);
    out := Pass;
  }

  /** Both parts of a split coordinate are upper case. */
  lemma SplitIsUpper(prow: string)
    ensures SplitCoOrdinates(prow).Ok? ==>
              IsUpper(SplitCoOrdinates(prow).value.0) && IsUpper(SplitCoOrdinates(prow).value.1)
  {
    ToUpperIsUpper(prow);
  }

  /** On a prow that splits, ExtraSquares places the run that starts at the first extra position. */
  lemma ExtraSquaresOfSplit(squares: map<string, Square>, coords: seq<string>, prow: string,
                            facing: Orientation, name: string, size: nat, x: string, y: string)
    requires size >= 1 && SplitCoOrdinates(prow) == Ok((x, y))
    ensures ExtraSquares(squares, coords, prow, facing, name, size)
            == Place(squares, coords, name, facing, AxisLabels(facing), y, x,
                     FirstExtra(facing, LabelIndex(if facing == Down || facing == Up then y else x, AxisLabels(facing)), size),
                     size - 1)
  {
  }

  /**
   * AddLargeShipExtraSquares: the prow is split, its position found on the
   * axis of the ship's facing, and the loop for that facing adds the extra
   * squares, failing at the edge of the grid or on a square that is taken.
   */
  method AddLargeShipExtraSquares(prow: string, ship: Ship, player: Player) returns (out: Outcome)
    requires player.grid.Valid() && ship.name in ShipsList
    modifies player.grid, ship`coords
    ensures Placement(player.grid.squares, ship.coords, out)
            == ExtraSquares(old(player.grid.squares), old(ship.coords), prow, ship.facing, ship.name, ship.Size())
    ensures player.grid.Valid()
  {
    var split := SplitCoOrdinates(prow);
    if split.Err? {
      return Fail(split.error);
    }
    var (xAxis, yAxis) := split.value;
    var size := ship.Size();
    var facing := ship.facing;
    var labels := AxisLabels(facing);
    ExtraSquaresOfSplit(player.grid.squares, ship.coords, prow, facing, ship.name, size, xAxis, yAxis);
    SplitIsUpper(prow);
    AxisTags(facing);
    match facing
    case Down =>
      var currentIndex := CurrentIndex(yAxis, labels);
      out := PlaceForward(ship, player, facing, labels, yAxis, xAxis, currentIndex, size);
    case Left =>
      var currentIndex := CurrentIndex(xAxis, labels);
      out := PlaceBackward(ship, player, facing, labels, yAxis, xAxis, currentIndex, size);
    case Right =>
      var currentIndex := CurrentIndex(xAxis, labels);
      out := PlaceForward(ship, player, facing, labels, yAxis, xAxis, currentIndex, size);
    case Up =>
      var currentIndex := CurrentIndex(yAxis, labels);
      out := PlaceBackward(ship, player, facing, labels, yAxis, xAxis, currentIndex, size);
  }

  /** The grid with the named ship's squares among `within` emptied again. */
  function ClearedWithin(squares: map<string, Square>, name: string, within: set<string>): (m: map<string, Square>)
    ensures m.Keys == squares.Keys
  {
    map c | c in squares :: if c in within && squares[c].content == ShipCell(name) then NewSquare(c) else squares[c]
  }

  /**
   * RemoveShip as a function of the grid: no square holds the ship any
   * more, each of its squares is a new empty square and every other square
   * is unchanged.
   */
  function Cleared(squares: map<string, Square>, name: string): (m: map<string, Square>)
    ensures m.Keys == squares.Keys
    ensures forall c :: c in m ==> m[c].content != ShipCell(name)
    ensures forall c :: c in squares && squares[c].content != ShipCell(name) ==> m[c] == squares[c]
  {
    map c | c in squares :: if squares[c].content == ShipCell(name) then NewSquare(c) else squares[c]
  }

  /** One more square visited: emptied when it still holds the ship. */
  lemma ClearStep(squares: map<string, Square>, name: string, within: set<string>, c: string)
    requires c in squares
    ensures var cur := ClearedWithin(squares, name, within);
            (if cur[c].content == ShipCell(name) then cur[c := NewSquare(c)] else cur)
            == ClearedWithin(squares, name, within + {c})
  {
    var cur, next := ClearedWithin(squares, name, within), ClearedWithin(squares, name, within + {c});
    var stepped := if cur[c].content == ShipCell(name) then cur[c := NewSquare(c)] else cur;
    forall d | d in squares
      ensures stepped[d] == next[d]
    {
    }
  }

  /** No square visited yet: nothing is removed. */
  lemma ClearedNowhere(squares: map<string, Square>, name: string, within: set<string>)
    requires within == {}
    ensures ClearedWithin(squares, name, within) == squares
  {
  }

  /** Every square visited: the whole ship is removed. */
  lemma ClearedEverywhere(squares: map<string, Square>, name: string, within: set<string>)
    requires squares.Keys <= within
    ensures ClearedWithin(squares, name, within) == Cleared(squares, name)
  {
  }

  /**
   * Removing a ship undoes placing it: squares that were new and empty and
   * were given to a ship that held no other square become new and empty again.
   */
  lemma {:induction false} ClearUndoesMark(squares: map<string, Square>, cells: seq<string>, name: string)
    requires forall c :: c in cells ==> c in squares && squares[c] == NewSquare(c)
    requires forall c :: c in squares ==> squares[c].content != ShipCell(name)
    ensures Cleared(Mark(squares, cells, name), name) == squares
  {
    var m := Cleared(Mark(squares, cells, name), name);
    forall c | c in squares
      ensures m[c] == squares[c]
    {
    }
  }

  /** A row label followed by a column label is a square of the grid. */
  lemma LabelsOnGrid(y: string, x: string)
    requires y in ValidYLabels && x in ValidXLabels
    ensures OnGrid(y + x)
  {
    assert y + x in AllCoords();
    OnGridIsAllCoords(y + x);
  }

  /** The rows visited so far, then one more. */
  lemma ColumnStep(ys: seq<string>, x: string, j: int, within: set<string>)
    requires 0 <= j < |ys|
    ensures within + Column(ys[..j], x) + {ys[j] + x} == within + Column(ys[..j + 1], x)
  {
    assert ys[..j + 1] == ys[..j] + [ys[j]];
    ColumnSnoc(ys[..j], ys[j], x);
  }

  /** The inner loop of RemoveShip: the squares of the column `x`, one row label after the other. */
  method RemoveFromColumn(ship: Ship, player: Player, ys: seq<string>, x: string,
                          ghost before: map<string, Square>, ghost within: set<string>)
    requires forall y :: y in ys ==> y + x in before
    requires player.grid.squares == ClearedWithin(before, ship.name, within)
    modifies player.grid
    ensures player.grid.squares == ClearedWithin(before, ship.name, within + Column(ys, x))
  {
    var j := 0;
    while j < |ys|
      invariant 0 <= j <= |ys|
      invariant player.grid.squares == ClearedWithin(before, ship.name, within + Column(ys[..j], x))
    {
      var locationY := ys[j];
      var coOrdinate := locationY + x;
      ClearStep(before, ship.name, within + Column(ys[..j], x), coOrdinate);
      if player.grid.squares[coOrdinate].content == ShipCell(ship.name) {
        player.grid.squares := player.grid.squares[coOrdinate := NewSquare(coOrdinate)];
      }
      ColumnStep(ys, x, j, within);
      j := j + 1;
    }
    assert ys[..j] == ys;
  }

  /** Each square of a column built from the grid's labels is a key of a valid grid's dictionary. */
  lemma ColumnOnGrid(squares: map<string, Square>, ys: seq<string>, x: string)
    requires forall c :: c in squares <==> OnGrid(c)
    requires ys == ValidYLabels && x in ValidXLabels
    ensures forall y :: y in ys ==> y + x in squares
  {
    forall y | y in ys
      ensures y + x in squares
    {
      LabelsOnGrid(y, x);
    }
  }

  /** The columns visited so far, then one more. */
  lemma BlockStep(ys: seq<string>, xs: seq<string>, i: int)
    requires 0 <= i < |xs|
    ensures Block(ys, xs[..i]) + Column(ys, xs[i]) == Block(ys, xs[..i + 1])
  {
    assert xs[..i + 1] == xs[..i] + [xs[i]];
    BlockSnoc(ys, xs[..i], xs[i]);
  }

  /** Every column visited: the whole ship is removed, and the grid stays valid. */
  lemma ClearedAllColumns(squares: map<string, Square>, name: string)
    requires (forall c :: c in squares <==> OnGrid(c)) && forall c :: c in squares ==> squares[c].coord == c
    ensures ClearedWithin(squares, name, Block(ValidYLabels, ValidXLabels)) == Cleared(squares, name)
    ensures var m := Cleared(squares, name);
            (forall c :: c in m <==> OnGrid(c)) && forall c :: c in m ==> m[c].coord == c
  {
    forall c | c in squares
      ensures c in Block(ValidYLabels, ValidXLabels)
    {
      OnGridIsAllCoords(c);
    }
    ClearedEverywhere(squares, name, Block(ValidYLabels, ValidXLabels));
  }

  /**
   * RemoveShip: walks the column labels and, for each, the row labels; a
   * square holding the ship is replaced by a new empty square.  The ship's
   * own list of coordinates is left as it is.
   */
  method RemoveShip(ship: Ship, player: Player)
    requires player.grid.Valid()
    modifies player.grid
    ensures player.grid.squares == Cleared(old(player.grid.squares), ship.name)
    ensures player.grid.Valid()
  {
    ghost var before := player.grid.squares;
    ClearedNowhere(before, ship.name, Block(ValidYLabels, ValidXLabels[..0]));
    var i := 0;
    while i < |ValidXLabels|
      invariant 0 <= i <= |ValidXLabels|
      invariant player.grid.squares == ClearedWithin(before, ship.name, Block(ValidYLabels, ValidXLabels[..i]))
    {
      ColumnOnGrid(before, ValidYLabels, ValidXLabels[i]);
      RemoveFromColumn(ship, player, ValidYLabels, ValidXLabels[i], before, Block(ValidYLabels, ValidXLabels[..i]));
      BlockStep(ValidYLabels, ValidXLabels, i);
      i := i + 1;
    }
    assert ValidXLabels[..i] == ValidXLabels;
    ClearedAllColumns(before, ship.name);
  }

  /** GetEnemyPlayer: the player at the current player's enemy index; an index outside the list fails. */
  function GetEnemyPlayer(player: Player, game: Game): (r: Result<Player>)
    reads player, game
    ensures r.Ok? <==> 0 <= player.enemy < |game.players|
    ensures r.Err? ==> r.error == IndexOutOfRange
  {
    if 0 <= player.enemy < |game.players| then Ok(game.players[player.enemy]) else Err(IndexOutOfRange)
  }

  /** In a game ready to be played, each player's enemy is the other player. */
  lemma EnemyIsOther(game: Game, i: int)
    requires game.Ready() && 0 <= i < NumPlayers
    ensures GetEnemyPlayer(game.players[i], game) == Ok(game.players[1 - i])
    ensures game.players[1 - i] != game.players[i]
  {
    NextPlayerSwaps(i);
  }

  /** The squares of a grid that have been hit. */
  function HitSquares(squares: map<string, Square>): set<string>
  {
    set c | c in squares && squares[c].content == HitCell
  }

  /** The squares of a grid that have been missed. */
  function MissSquares(squares: map<string, Square>): set<string>
  {
    set c | c in squares && squares[c].content == MissCell
  }

  /**
   * The score of a grid: the number of hits on it and the number of shots
   * taken at it, a hit counting as a shot too.  Each shot is a square, so
   * neither exceeds the number of squares.
   */
  function Score(squares: map<string, Square>): (s: (int, int))
    ensures 0 <= s.0 <= s.1 <= |squares|
  {
    var hits, misses := HitSquares(squares), MissSquares(squares);
    assert hits !! misses && hits + misses <= squares.Keys;
    SubsetCard(hits + misses, squares.Keys);
    (|hits|, |hits| + |misses|)
  }

  /** On a grid, at most 25 shots can have been taken. */
  lemma ScoreOnGrid(squares: map<string, Square>)
    requires forall c :: c in squares <==> OnGrid(c)
    ensures Score(squares).0 <= Score(squares).1 <= GridXWidth * GridYWidth == 25
  {
    forall c
      ensures c in squares.Keys <==> c in AllCoords()
    {
      OnGridIsAllCoords(c);
    }
    assert squares.Keys == AllCoords();
    AllCoordsCount();
  }

  lemma {:induction false} SubsetCard<T>(a: set<T>, b: set<T>)
    requires a <= b
    ensures |a| <= |b|
  {
    if a != {} {
      var e :| e in a;
      SubsetCard(a - {e}, b - {e});
    }
  }

  /** The hit squares among `seen`. */
  function HitsWithin(squares: map<string, Square>, seen: set<string>): set<string>
  {
    set c | c in seen && c in squares && squares[c].content == HitCell
  }

  /** The missed squares among `seen`. */
  function MissesWithin(squares: map<string, Square>, seen: set<string>): set<string>
  {
    set c | c in seen && c in squares && squares[c].content == MissCell
  }

  /** One more square counted: a hit adds to the hits, a miss to the misses, any other square to neither. */
  lemma ScoreStep(squares: map<string, Square>, seen: set<string>, c: string)
    requires c in squares && c !in seen
    ensures |HitsWithin(squares, seen + {c})| == |HitsWithin(squares, seen)| + if squares[c].content == HitCell then 1 else 0
    ensures |MissesWithin(squares, seen + {c})| == |MissesWithin(squares, seen)| + if squares[c].content == MissCell then 1 else 0
  {
    if squares[c].content == HitCell {
      assert HitsWithin(squares, seen + {c}) == HitsWithin(squares, seen) + {c};
      assert MissesWithin(squares, seen + {c}) == MissesWithin(squares, seen);
    } else if squares[c].content == MissCell {
      assert HitsWithin(squares, seen + {c}) == HitsWithin(squares, seen);
      assert MissesWithin(squares, seen + {c}) == MissesWithin(squares, seen) + {c};
    } else {
      assert HitsWithin(squares, seen + {c}) == HitsWithin(squares, seen);
      assert MissesWithin(squares, seen + {c}) == MissesWithin(squares, seen);
    }
  }

  /** All squares counted: the score of the grid. */
  lemma ScoreEverywhere(squares: map<string, Square>, seen: set<string>)
    requires seen == squares.Keys
    ensures Score(squares) == (|HitsWithin(squares, seen)|, |HitsWithin(squares, seen)| + |MissesWithin(squares, seen)|)
  {
    assert HitsWithin(squares, seen) == HitSquares(squares);
    assert MissesWithin(squares, seen) == MissSquares(squares);
  }

  /**
   * CalculateScore: every square of the grid is visited once; a square
   * showing the hit marker in play counts a hit and a shot, one showing the
   * miss marker a shot.
   */
  method CalculateScore(player: Player) returns (numHits: int, numShots: int)
    ensures (numHits, numShots) == Score(player.grid.squares)
  {
    var squares := player.grid.squares;
    numHits, numShots := 0, 0;
    var remaining := squares.Keys;
    ghost var seen: set<string> := {};
    while remaining != {}
      invariant remaining <= squares.Keys && seen == squares.Keys - remaining
      invariant numHits == |HitsWithin(squares, seen)|
      invariant numShots == numHits + |MissesWithin(squares, seen)|
      decreases remaining
    {
      var c :| c in remaining;
      ScoreStep(squares, seen, c);
      var square := squares[c];
      PlayMarkersClassify(square);
      if square.GetStatus(Play) == HitMarker {
        numHits := numHits + 1;
        numShots := numShots + 1;
      } else if square.GetStatus(Play) == MissMarker {
        numShots := numShots + 1;
      }
      remaining := remaining - {c};
      seen := seen + {c};
    }
    ScoreEverywhere(squares, seen);
  }

  /** A shot that hits a square not shot at before counts one more hit and one more shot. */
  lemma ScoreAfterHit(squares: map<string, Square>, c: string)
    requires c in squares && squares[c].content != HitCell && squares[c].content != MissCell
    ensures Score(squares[c := NewHit(c)]).0 == Score(squares).0 + 1
    ensures Score(squares[c := NewHit(c)]).1 == Score(squares).1 + 1
  {
    var after := squares[c := NewHit(c)];
    assert HitSquares(after) == HitSquares(squares) + {c};
    assert MissSquares(after) == MissSquares(squares);
  }

  /** A shot that misses a square not shot at before counts one more shot and no hit. */
  lemma ScoreAfterMiss(squares: map<string, Square>, c: string)
    requires c in squares && squares[c].content != HitCell && squares[c].content != MissCell
    ensures Score(squares[c := NewMiss(c)]).0 == Score(squares).0
    ensures Score(squares[c := NewMiss(c)]).1 == Score(squares).1 + 1
  {
    var after := squares[c := NewMiss(c)];
    assert HitSquares(after) == HitSquares(squares);
    assert MissSquares(after) == MissSquares(squares) + {c};
  }

  /** The ship's list names exactly the squares of the grid that hold the ship. */
  predicate Aligned(squares: map<string, Square>, coords: seq<string>, name: string)
  {
    (forall c :: c in coords ==> c in squares && squares[c].content == ShipCell(name))
    && forall c :: c in squares && squares[c].content == ShipCell(name) ==> c in coords
  }

  /** A grid during setup: every square is either a new empty square or holds a ship. */
  predicate SetupGrid(squares: map<string, Square>)
  {
    forall c :: c in squares ==> squares[c] == NewSquare(c) || squares[c].content.ShipCell?
  }

  /** `after` differs from `before` only in squares that held no ship and now hold the named one. */
  predicate OnlyGives(before: map<string, Square>, after: map<string, Square>, name: string)
  {
    after.Keys == before.Keys
    && forall c :: c in before ==>
         after[c] == before[c] || (!before[c].content.ShipCell? && after[c] == Square(c, ShipCell(name)))
  }

  lemma OnlyGivesTrans(a: map<string, Square>, b: map<string, Square>, c: map<string, Square>, name: string)
    requires OnlyGives(a, b, name) && OnlyGives(b, c, name)
    ensures OnlyGives(a, c, name)
  {
  }

  /**
   * Placing the extra squares only gives free squares to the ship, and a
   * ship whose list matched the grid still matches it, whether the run
   * succeeds or stops half-way.
   */
  lemma {:induction false} PlaceOnlyGives(squares: map<string, Square>, coords: seq<string>, name: string,
                                          facing: Orientation, labels: seq<string>, y: string, x: string,
                                          start: int, count: nat)
    requires Aligned(squares, coords, name)
    ensures var p := Place(squares, coords, name, facing, labels, y, x, start, count);
            OnlyGives(squares, p.squares, name) && Aligned(p.squares, p.coords, name)
    decreases count
  {
    if count > 0 && 0 <= start < |labels| {
      var c := StepCoord(facing, labels, y, x, start);
      var p := GiveSquare(squares, coords, name, c);
      if p.outcome.Pass? {
        GiveOnlyGives(squares, coords, name, c);
        assert p.squares == squares[c := Square(c, ShipCell(name))] && p.coords == coords + [c];
        var rest := Place(p.squares, p.coords, name, facing, labels, y, x, start + 1, count - 1);
        PlaceOnlyGives(p.squares, p.coords, name, facing, labels, y, x, start + 1, count - 1);
        OnlyGivesTrans(squares, p.squares, rest.squares, name);
        assert Place(squares, coords, name, facing, labels, y, x, start, count) == rest;
      } else {
        assert p.squares == squares && p.coords == coords;
      }
    }
  }

  /**
   * SaveShip as a function of the grid and the ship's list: the prow is
   * checked by ValidShipLocation and given to the ship, then the extra
   * squares are placed.
   */
  function SaveSquares(squares: map<string, Square>, coords: seq<string>, prow: string,
                       facing: Orientation, name: string, size: nat): Placement
    requires (forall c :: OnGrid(c) ==> c in squares) && size >= 1
  {
    match ValidShipLocation(prow, squares)
    case Err(e) => Placement(squares, coords, Fail(e))
    case Ok(c) => ExtraSquares(squares[c := Square(c, ShipCell(name))], coords + [c], prow, facing, name, size)
  }

  /** Giving one free square to the ship keeps its list matching the grid. */
  lemma GiveOnlyGives(squares: map<string, Square>, coords: seq<string>, name: string, c: string)
    requires c in squares && !squares[c].content.ShipCell? && Aligned(squares, coords, name)
    ensures OnlyGives(squares, squares[c := Square(c, ShipCell(name))], name)
    ensures Aligned(squares[c := Square(c, ShipCell(name))], coords + [c], name)
  {
  }

  /** Placing the extra squares only gives free squares to the ship and keeps its list matching the grid. */
  lemma ExtraOnlyGives(squares: map<string, Square>, coords: seq<string>, prow: string,
                       facing: Orientation, name: string, size: nat)
    requires size >= 1 && Aligned(squares, coords, name)
    ensures var p := ExtraSquares(squares, coords, prow, facing, name, size);
            OnlyGives(squares, p.squares, name) && Aligned(p.squares, p.coords, name)
  {
    var split := SplitCoOrdinates(prow);
    if split.Ok? {
      var (x, y) := split.value;
      ExtraSquaresOfSplit(squares, coords, prow, facing, name, size, x, y);
      SplitOnlyGives(squares, coords, name, facing, size, x, y);
    }
  }

  /** The extra squares placed from a split prow only give free squares to the ship. */
  lemma SplitOnlyGives(squares: map<string, Square>, coords: seq<string>, name: string,
                       facing: Orientation, size: nat, x: string, y: string)
    requires size >= 1 && Aligned(squares, coords, name)
    ensures var p := Place(squares, coords, name, facing, AxisLabels(facing), y, x,
                           FirstExtra(facing, LabelIndex(if facing == Down || facing == Up then y else x, AxisLabels(facing)), size),
                           size - 1);
            OnlyGives(squares, p.squares, name) && Aligned(p.squares, p.coords, name)
  {
    var labels := AxisLabels(facing);
    var start := FirstExtra(facing, LabelIndex(if facing == Down || facing == Up then y else x, labels), size);
    PlaceOnlyGives(squares, coords, name, facing, labels, y, x, start, size - 1);
  }

  /** Saving a ship only gives free squares to it and keeps its list matching the grid. */
  lemma SaveOnlyGives(squares: map<string, Square>, coords: seq<string>, prow: string,
                      facing: Orientation, name: string, size: nat)
    requires (forall c :: OnGrid(c) ==> c in squares) && size >= 1
    requires Aligned(squares, coords, name)
    ensures var p := SaveSquares(squares, coords, prow, facing, name, size);
            OnlyGives(squares, p.squares, name) && Aligned(p.squares, p.coords, name)
  {
    var location := ValidShipLocation(prow, squares);
    if location.Ok? {
      var c := location.value;
      var given := squares[c := Square(c, ShipCell(name))];
      GiveOnlyGives(squares, coords, name, c);
      ExtraOnlyGives(given, coords + [c], prow, facing, name, size);
      OnlyGivesTrans(squares, given, ExtraSquares(given, coords + [c], prow, facing, name, size).squares, name);
    }
  }

  /**
   * The ship's list may begin with stale entries, coordinates of the grid
   * that no longer hold the ship; from some point on it names exactly the
   * squares that hold it.
   */
  ghost predicate Settled(squares: map<string, Square>, coords: seq<string>, name: string)
  {
    (forall c :: c in coords ==> c in squares)
    && exists k :: 0 <= k <= |coords| && Aligned(squares, coords[k..], name)
  }

  /**
   * The grid and the outcome of a run of extra squares do not depend on the
   * list the ship starts with; the squares given are appended after it.
   */
  lemma {:induction false} PlaceAfterStale(squares: map<string, Square>, stale: seq<string>, coords: seq<string>, name: string,
                                           facing: Orientation, labels: seq<string>, y: string, x: string, start: int, count: nat)
    ensures var q := Place(squares, coords, name, facing, labels, y, x, start, count);
            Place(squares, stale + coords, name, facing, labels, y, x, start, count) == Placement(q.squares, stale + q.coords, q.outcome)
    decreases count
  {
    if count > 0 && 0 <= start < |labels| {
      var c := StepCoord(facing, labels, y, x, start);
      var p := GiveSquare(squares, coords, name, c);
      if p.outcome.Pass? {
        assert (stale + coords) + [c] == stale + (coords + [c]);
        PlaceAfterStale(p.squares, stale, p.coords, name, facing, labels, y, x, start + 1, count - 1);
      }
    }
  }

  /** The same for the extra squares of AddLargeShipExtraSquares. */
  lemma ExtraAfterStale(squares: map<string, Square>, stale: seq<string>, coords: seq<string>, prow: string,
                        facing: Orientation, name: string, size: nat)
    requires size >= 1
    ensures var q := ExtraSquares(squares, coords, prow, facing, name, size);
            ExtraSquares(squares, stale + coords, prow, facing, name, size) == Placement(q.squares, stale + q.coords, q.outcome)
  {
    var split := SplitCoOrdinates(prow);
    if split.Ok? {
      var (x, y) := split.value;
      var labels := AxisLabels(facing);
      var current := LabelIndex(if facing == Down || facing == Up then y else x, labels);
      PlaceAfterStale(squares, stale, coords, name, facing, labels, y, x, FirstExtra(facing, current, size), size - 1);
    }
  }

  /**
   * SaveShip on a ship whose list already holds entries does to the grid
   * what it does on an empty list, with the same outcome, and appends the
   * squares it gives after those entries.
   */
  lemma SaveAfterStale(squares: map<string, Square>, stale: seq<string>, prow: string,
                       facing: Orientation, name: string, size: nat)
    requires (forall c :: OnGrid(c) ==> c in squares) && size >= 1
    ensures var q := SaveSquares(squares, [], prow, facing, name, size);
            SaveSquares(squares, stale, prow, facing, name, size) == Placement(q.squares, stale + q.coords, q.outcome)
  {
    var location := ValidShipLocation(prow, squares);
    if location.Ok? {
      var c := location.value;
      assert [] + [c] == [c];
      ExtraAfterStale(squares[c := Square(c, ShipCell(name))], stale, [c], prow, facing, name, size);
    } else {
      assert stale + [] == stale;
    }
  }

  /** A ship's settled list stays settled when squares are given to another ship. */
  lemma OthersStaySettled(before: map<string, Square>, after: map<string, Square>, name: string,
                          coords: seq<string>, other: string)
    requires OnlyGives(before, after, name) && other != name && Settled(before, coords, other)
    ensures Settled(after, coords, other)
  {
    var k :| 0 <= k <= |coords| && Aligned(before, coords[k..], other);
    OthersStayAligned(before, after, name, coords[k..], other);
  }

  /** A ship whose list matches the grid keeps matching it when squares are given to another ship. */
  lemma OthersStayAligned(before: map<string, Square>, after: map<string, Square>, name: string,
                          coords: seq<string>, other: string)
    requires OnlyGives(before, after, name) && other != name && Aligned(before, coords, other)
    ensures Aligned(after, coords, other)
  {
  }

  /** Removing a ship leaves every other ship's list matching the grid. */
  lemma ClearKeepsOthersAligned(squares: map<string, Square>, name: string, coords: seq<string>, other: string)
    requires other != name && Aligned(squares, coords, other)
    ensures Aligned(Cleared(squares, name), coords, other)
  {
  }

  /** A setup grid stays one when squares are given to a ship or a ship is removed. */
  lemma SetupGridKept(before: map<string, Square>, after: map<string, Square>, name: string)
    requires SetupGrid(before)
    ensures OnlyGives(before, after, name) ==> SetupGrid(after)
    ensures SetupGrid(Cleared(before, name))
  {
  }

  /**
   * The rollback of a failed placement during setup: removing the ship
   * after squares were given to it gives back the grid from before, as long
   * as the grid held none of its squares then.
   */
  lemma RemovalRestoresGrid(before: map<string, Square>, after: map<string, Square>, name: string)
    requires SetupGrid(before) && forall c :: c in before ==> before[c].content != ShipCell(name)
    requires OnlyGives(before, after, name)
    ensures Cleared(after, name) == before
  {
    var m := Cleared(after, name);
    forall c | c in before
      ensures m[c] == before[c]
    {
    }
  }

  /**
   * RemoveShip as written leaves the ship's list as it is: a Carrier whose
   * prow is E1, facing Down, is given E1 before the edge stops it, and
   * after the removal its list still names E1, which no longer holds it.
   */
  lemma StaleCoordinatesAfterRemoval(squares: map<string, Square>)
    requires forall c :: OnGrid(c) ==> c in squares
    requires "E1" in squares && squares["E1"] == NewSquare("E1")
    ensures var p := SaveSquares(squares, [], "E1", Down, "Carrier", 2);
            p.outcome == Fail(TooCloseToEdge) && p.coords == ["E1"]
            && !Aligned(Cleared(p.squares, "Carrier"), p.coords, "Carrier")
  {
    assert OnGrid("E1");
    CanonicalIsFixedPoint("E1");
    OnGridIsAllCoords("E1");
    var given := squares["E1" := Square("E1", ShipCell("Carrier"))];
    assert ValidShipLocation("E1", squares) == Ok("E1");
    assert SplitCoOrdinates("E1") == Ok(("1", "E"));
    ExtraSquaresOfSplit(given, ["E1"], "E1", Down, "Carrier", 2, "1", "E");
    assert LabelIndex("E", AxisLabels(Down)) == 4;
    assert Cleared(given, "Carrier")["E1"] == NewSquare("E1");
  }

  /**
   * The AddShipSquare step of SaveShip: a ship that already has its prow
   * joins the fleet unless a ship of its name is there.  Names stay unique,
   * and the ship's own list does not change: when it is already in the
   * fleet, its first square is already in its list.
   */
  method JoinFleet(ship: Ship, player: Player)
    requires Distinct(Names(player.ships)) && |ship.coords| > 0
    modifies player`ships, player.ships`coords
    ensures player.ships == if ship.name in Names(old(player.ships)) then old(player.ships) else old(player.ships) + [ship]
    ensures ship.coords == old(ship.coords)
    ensures forall s :: s in old(player.ships) && s.name != ship.name ==> s.coords == old(s.coords)
    ensures Distinct(Names(player.ships))
  {
    if ship in player.ships {
      var i :| 0 <= i < |player.ships| && player.ships[i] == ship;
      LastIndexOfDistinct(Names(player.ships), i);
    }
    var joined := player.AddShipSquare(ship);
  }

  /** The prow of SaveShip: AddShip on the checked prow, then AddShipSquare. */
  method SaveProw(c: string, ship: Ship, player: Player)
    requires player.grid.Valid() && OnGrid(c) && !player.grid.squares[c].content.ShipCell?
    requires Distinct(Names(player.ships))
    modifies player.grid, ship`coords, player`ships, player.ships`coords
    ensures player.grid.squares == old(player.grid.squares)[c := Square(c, ShipCell(ship.name))]
    ensures ship.coords == old(ship.coords) + [c]
    ensures player.ships == if ship.name in Names(old(player.ships)) then old(player.ships) else old(player.ships) + [ship]
    ensures forall s :: s in old(player.ships) && s.name != ship.name ==> s.coords == old(s.coords)
    ensures Distinct(Names(player.ships))
    ensures player.grid.Valid()
  {
    CanonicalIsFixedPoint(c);
    OnGridIsAllCoords(c);
    var out := player.AddShip(ship, c);
    JoinFleet(ship, player);
  }

  /**
   * SaveShip (its definition is not part of the source files; this is a
   * reconstruction from its call site): the prow is checked with
   * ValidShipLocation, the facing is recorded, the prow is given to the
   * ship with AddShip, the ship joins the fleet with AddShipSquare, and
   * AddLargeShipExtraSquares places the rest of it.
   */
  method SaveShip(prow: string, facing: Orientation, ship: Ship, player: Player) returns (out: Outcome)
    requires player.grid.Valid() && ship.name in ShipsList && Distinct(Names(player.ships))
    modifies player.grid, ship`coords, ship`facing, player`ships, player.ships`coords
    ensures Placement(player.grid.squares, ship.coords, out)
            == SaveSquares(old(player.grid.squares), old(ship.coords), prow, facing, ship.name, ship.Size())
    ensures ValidShipLocation(prow, old(player.grid.squares)).Err? ==> player.ships == old(player.ships) && ship.facing == old(ship.facing)
    ensures ValidShipLocation(prow, old(player.grid.squares)).Ok? ==>
              ship.facing == facing
              && player.ships == if ship.name in Names(old(player.ships)) then old(player.ships) else old(player.ships) + [ship]
    ensures forall s :: s in old(player.ships) && s.name != ship.name ==> s.coords == old(s.coords)
    ensures Distinct(Names(player.ships))
    ensures player.grid.Valid()
  {
    var location := ValidShipLocation(prow, player.grid.squares);
    if location.Err? {
      return Fail(location.error);
    }
    ship.facing := facing;
    SaveProw(location.value, ship, player);
    out := AddLargeShipExtraSquares(prow, ship, player);
  }

  /**
   * The rollback as the retry loop evidently intends it: RemoveShip, and
   * the ship's own list emptied too, so that the list and the grid agree.
   */
  method ResetShip(ship: Ship, player: Player)
    requires player.grid.Valid()
    modifies player.grid, ship`coords
    ensures player.grid.squares == Cleared(old(player.grid.squares), ship.name) && ship.coords == []
    ensures Aligned(player.grid.squares, ship.coords, ship.name)
    ensures player.grid.Valid()
  {
    RemoveShip(ship, player);
    ship.coords := [];
  }
}
