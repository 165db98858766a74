/**
 * The player's grid: a dictionary from canonical coordinate to square,
 * filled with empty squares when the grid is built and updated in place
 * while ships are placed and shots are taken.
 */
module LiteGrid {
  import opened LiteEnums
  import opened LiteConfig
  import opened LiteCodec
  import opened LiteSquares
  import opened Lists

  class Grid {
    /** GridSquareList: coordinate to square. */
    var squares: map<string, Square>

    /** Exactly one square per coordinate of the grid, each holding its own key. */
    ghost predicate Valid()
      reads this
    {
      (forall c :: c in squares <==> OnGrid(c))
      && forall c :: c in squares ==> squares[c].coord == c
    }

    /**
     * The constructor walks the column labels and, for each, the row labels,
     * adding an empty square under row + column.  Adding a key twice would
     * fail, so every key is checked to be new before it is added.
     */
    constructor()
      ensures Valid()
      ensures forall c :: c in squares ==> squares[c] == NewSquare(c)
      ensures |squares| == GridXWidth * GridYWidth
    {
      squares := map[];
      new;
      var i := 0;
      while i < |ValidXLabels|
        invariant 0 <= i <= |ValidXLabels|
        invariant squares.Keys == Block(ValidYLabels, ValidXLabels[..i])
        invariant forall c :: c in squares ==> squares[c] == NewSquare(c)
      {
        var locationX := ValidXLabels[i];
        var j := 0;
        while j < |ValidYLabels|
          invariant 0 <= j <= |ValidYLabels|
          invariant squares.Keys == Block(ValidYLabels, ValidXLabels[..i]) + Column(ValidYLabels[..j], locationX)
          invariant forall c :: c in squares ==> squares[c] == NewSquare(c)
        {
          var locationY := ValidYLabels[j];
          var coOrdinate := locationY + locationX;
          assert coOrdinate !in squares by {
            LabelShapes();
            LabelsDistinct();
            assert locationX !in ValidXLabels[..i];
            assert locationY !in ValidYLabels[..j];
            BlockColumnDisjoint(ValidYLabels, ValidXLabels[..i], locationX);
            ColumnFresh(ValidYLabels[..j], locationY, locationX);
          }
          squares := squares[coOrdinate := NewSquare(coOrdinate)];
          assert ValidYLabels[..j + 1] == ValidYLabels[..j] + [locationY];
          ColumnSnoc(ValidYLabels[..j], locationY, locationX);
          j := j + 1;
        }
        assert ValidXLabels[..i + 1] == ValidXLabels[..i] + [locationX];
        assert ValidYLabels[..j] == ValidYLabels;
        BlockSnoc(ValidYLabels, ValidXLabels[..i], locationX);
        i := i + 1;
      }
      assert ValidXLabels[..i] == ValidXLabels;
      assert squares.Keys == AllCoords();
      AllCoordsCount();
      forall c
        ensures c in squares <==> OnGrid(c)
      {
        OnGridIsAllCoords(c);
      }
    }

    /** The status of the square at a coordinate of the grid (the dictionary lookup). */
    function GetGridSquareMode(coord: string): GridStatus
      reads this
      requires coord in squares
    {
      squares[coord].Status()
    }

    /** Replaces the square at a coordinate of the grid by a new one with the given content. */
    method SetGridSquareMode(coord: string, content: Content)
      requires coord in squares
      modifies this
      ensures squares == old(squares)[coord := Square(coord, content)]
      ensures old(Valid()) ==> Valid()
    {
      squares := squares[coord := Square(coord, content)];
    }
  }

  /** The coordinates in the column of `x`, one per row label. */
  function Column(ys: seq<string>, x: string): set<string>
  {
    set y | y in ys :: y + x
  }

  /** The coordinates of the rows `ys` and the columns `xs`. */
  function Block(ys: seq<string>, xs: seq<string>): set<string>
  {
    set y, x | y in ys && x in xs :: y + x
  }

  lemma ColumnSnoc(ys: seq<string>, y: string, x: string)
    ensures Column(ys + [y], x) == Column(ys, x) + {y + x}
  {
  }

  lemma ColumnFresh(ys: seq<string>, y: string, x: string)
    requires y !in ys && |y| == 1 && forall y' :: y' in ys ==> |y'| == 1
    ensures y + x !in Column(ys, x)
  {
    forall y' | y' in ys
      ensures y' + x != y + x
    {
      assert (y' + x)[..1] == y' != y == (y + x)[..1];
    }
  }

  /** Row labels followed by a fixed column label: one coordinate per row label. */
  lemma {:induction false} ColumnCount(ys: seq<string>, x: string)
    requires Distinct(ys) && forall y :: y in ys ==> |y| == 1
    ensures |Column(ys, x)| == |ys|
  {
    if ys != [] {
      var last := ys[|ys| - 1];
      var init := ys[..|ys| - 1];
      assert ys == init + [last];
      assert Distinct(init) && last !in init;
      assert forall y :: y in init ==> y in ys;
      ColumnCount(init, x);
      ColumnSnoc(init, last, x);
      ColumnFresh(init, last, x);
    }
  }

  lemma BlockSnoc(ys: seq<string>, xs: seq<string>, x: string)
    ensures Block(ys, xs + [x]) == Block(ys, xs) + Column(ys, x)
  {
  }

  lemma BlockColumnDisjoint(ys: seq<string>, xs: seq<string>, x: string)
    requires x !in xs && forall y :: y in ys ==> |y| == 1
    ensures Block(ys, xs) !! Column(ys, x)
  {
    forall c | c in Block(ys, xs)
      ensures |c| >= 1 && c[1..] in xs
    {
      var y, x' :| y in ys && x' in xs && c == y + x';
      assert c[1..] == x';
    }
    forall c | c in Column(ys, x)
      ensures |c| >= 1 && c[1..] == x
    {
      var y :| y in ys && c == y + x;
      assert c[1..] == x;
    }
  }

  /** Adding a new column adds one coordinate per row label. */
  lemma BlockSnocCount(ys: seq<string>, xs: seq<string>, x: string)
    requires Distinct(ys) && x !in xs && forall y :: y in ys ==> |y| == 1
    ensures |Block(ys, xs + [x])| == |Block(ys, xs)| + |ys|
  {
    ColumnCount(ys, x);
    BlockSnoc(ys, xs, x);
    BlockColumnDisjoint(ys, xs, x);
  }

  /** Distinct one-character row labels and distinct column labels give |ys| * |xs| coordinates. */
  lemma {:induction false} CoordinateCount(ys: seq<string>, xs: seq<string>)
    requires Distinct(ys) && Distinct(xs) && forall y :: y in ys ==> |y| == 1
    ensures |Block(ys, xs)| == |ys| * |xs|
  {
    if xs != [] {
      var last := xs[|xs| - 1];
      var init := xs[..|xs| - 1];
      assert xs == init + [last];
      CoordinateCount(ys, init);
      BlockSnocCount(ys, init, last);
      MulSucc(|ys|, |init|);
    }
  }

  lemma MulSucc(a: int, b: int)
    ensures a * (b + 1) == a * b + a
  {
  }

  /** The grid has GridXWidth * GridYWidth = 25 coordinates. */
  lemma AllCoordsCount()
    ensures |AllCoords()| == GridXWidth * GridYWidth == 25
  {
    LabelFacts();
    LabelShapes();
    LabelsDistinct();
    CoordinateCount(ValidYLabels, ValidXLabels);
    assert AllCoords() == Block(ValidYLabels, ValidXLabels);
  }
}
