/**
 * Coordinate handling of the grid-and-fleet engine: `SplitCoOrdinates`
 * (GridManagement.cs) and `ValidCoOrdinates` (GridValidation.cs).  A canonical
 * coordinate is a row label followed by a column label, e.g. "D3".
 */
module LiteCodec {
  import opened Outcomes
  import opened Text
  import opened LiteConfig

  /** Every canonical coordinate of the grid: row label + column label. */
  function AllCoords(): set<string>
  {
    set y, x | y in ValidYLabels && x in ValidXLabels :: y + x
  }

  /**
   * The same set, character by character: a row letter A to E followed by a
   * column digit 1 to 5 (OnGridIsAllCoords).
   */
  predicate OnGrid(c: string)
  {
    |c| == 2 && 'A' <= c[0] <= 'E' && '1' <= c[1] <= '5'
  }

  /** `c` is a row label followed by a column label. */
  predicate IsCoordinate(c: string)
  {
    |c| >= 1 && c[..1] in ValidYLabels && c[1..] in ValidXLabels
  }

  /**
   * SplitCoOrdinates with a row part of `width` characters: the input is
   * upper-cased and split into (column part, row part).  The row part is
   * taken with a Substring, which fails on an input shorter than `width`.
   */
  function SplitWith(s: string, width: nat): (r: Result<(string, string)>)
    ensures IsNullOrWhiteSpace(s) <==> r == Err(BlankCoordinate)
    ensures r.Ok? <==> !IsNullOrWhiteSpace(s) && width <= |s|
    ensures r.Ok? ==> |r.value.1| == width && r.value.1 + r.value.0 == ToUpper(s)
  {
    if IsNullOrWhiteSpace(s) then Err(BlankCoordinate)
    else
      var u := ToUpper(s);
      if |u| < width then Err(IndexOutOfRange)
      else Ok((u[width..], u[..width]))
  }

  /**
   * The source's SplitCoOrdinates: fails on a blank input, otherwise
   * upper-cases it and splits off a one-character row part (two characters
   * only with more than 26 ships).
   */
  function SplitCoOrdinates(s: string): (r: Result<(string, string)>)
    ensures IsNullOrWhiteSpace(s) <==> r == Err(BlankCoordinate)
    ensures r.Ok? <==> !IsNullOrWhiteSpace(s)
    ensures r.Ok? ==> r.value.1 + r.value.0 == ToUpper(s)
    ensures r.Ok? ==> r.value.1 == ToUpper(s)[..1] && r.value.0 == ToUpper(s)[1..]
  {
    LabelFacts();
    SplitWith(s, RowLabelWidth)
  }

  /**
   * ValidCoOrdinates for a given row-part width: blank input fails first;
   * then the split parts (row part upper-cased once more) must be configured
   * labels, otherwise the error carries the format example for the width.
   */
  function ValidWith(s: string, width: nat): (r: Result<string>)
    ensures IsNullOrWhiteSpace(s) <==> r == Err(BlankCoordinate)
    ensures r.Err? && !IsNullOrWhiteSpace(s) && width <= |s| ==>
              r.error == InvalidCoordinate(if width > 1 then "AC24" else "D3")
    ensures r.Ok? <==> !IsNullOrWhiteSpace(s) && width <= |s|
                       && ToUpper(s)[..width] in ValidYLabels && ToUpper(s)[width..] in ValidXLabels
    ensures r.Ok? ==> r.value == ToUpper(s)
  {
    if IsNullOrWhiteSpace(s) then Err(BlankCoordinate)
    else
      match SplitWith(s, width)
      case Err(e) => Err(e)
      case Ok((x, y)) =>
        var example := if |y| > 1 then "AC24" else "D3";
        var y' := ToUpper(y);
        ToUpperSlices(s, width);
        ToUpperIsUpper(s[..width]);
        ToUpperFixesUpper(y);
        if x !in ValidXLabels || y' !in ValidYLabels then Err(InvalidCoordinate(example))
        else Ok(y' + x)
  }

  /**
   * The source's ValidCoOrdinates: the canonical, upper-cased form of a
   * coordinate on the grid, BlankCoordinate for blank input and
   * InvalidCoordinate("D3") for anything else.
   */
  function ValidCoOrdinates(s: string): (r: Result<string>)
    ensures IsNullOrWhiteSpace(s) <==> r == Err(BlankCoordinate)
    ensures r.Err? && !IsNullOrWhiteSpace(s) ==> r.error == InvalidCoordinate("D3")
    ensures r.Ok? <==> IsCoordinate(ToUpper(s))
    ensures r.Ok? ==> r.value == ToUpper(s) && OnGrid(r.value)
  {
    LabelFacts();
    var r := ValidWith(s, RowLabelWidth);
    if r.Ok? then CoordinateInAll(r.value); OnGridIsAllCoords(r.value); r
    else if IsNullOrWhiteSpace(s) then BlankIsNoCoordinate(s); r
    else r
  }

  lemma BlankIsNoCoordinate(s: string)
    requires IsNullOrWhiteSpace(s)
    ensures !IsCoordinate(ToUpper(s))
  {
    if |s| >= 1 {
      LabelShapes();
      assert ToUpper(s)[..1] == [s[0]];
    }
  }

  lemma CoordinateInAll(c: string)
    requires IsCoordinate(c)
    ensures c in AllCoords()
  {
    assert c == c[..1] + c[1..];
  }

  /** Membership in the coordinate set and the label test agree. */
  lemma AllCoordsAreCoordinates(c: string)
    ensures c in AllCoords() <==> IsCoordinate(c)
  {
    if c in AllCoords() {
      var y, x :| y in ValidYLabels && x in ValidXLabels && c == y + x;
      LabelShapes();
      assert c[..1] == y && c[1..] == x;
    } else if IsCoordinate(c) {
      CoordinateInAll(c);
    }
  }

  /** The character-level test and membership in the coordinate set agree. */
  lemma OnGridIsAllCoords(c: string)
    ensures OnGrid(c) <==> c in AllCoords()
  {
    AllCoordsAreCoordinates(c);
    if OnGrid(c) {
      assert c[..1] == [c[0]] && c[1..] == [c[1]];
      assert c[..1] in ValidYLabels && c[1..] in ValidXLabels;
    }
  }

  /** Round trip: a row label followed by a column label validates to itself. */
  lemma {:induction false} RoundTrip(y: string, x: string)
    requires y in ValidYLabels && x in ValidXLabels
    ensures ValidCoOrdinates(y + x) == Ok(y + x)
  {
    LabelShapes();
    var c := y + x;
    assert c[..1] == y && c[1..] == x;
    assert IsUpper(c);
    ToUpperFixesUpper(c);
  }

  /** Validating is idempotent on its own results. */
  lemma Idempotent(s: string)
    requires ValidCoOrdinates(s).Ok?
    ensures ValidCoOrdinates(ValidCoOrdinates(s).value) == ValidCoOrdinates(s)
  {
    var c := ValidCoOrdinates(s).value;
    AllCoordsAreCoordinates(c);
    assert c == c[..1] + c[1..];
    RoundTrip(c[..1], c[1..]);
  }

  /** A lower-case row letter comes back upper-cased. */
  lemma LowerCaseRow(y: string, x: string)
    requires y in ValidYLabels && x in ValidXLabels
    ensures ValidCoOrdinates(ToLower(y) + x) == Ok(y + x)
  {
    var s := ToLower(y) + x;
    assert |y| == 1 && 'A' <= y[0] <= 'Z' && |x| == 1 && '0' <= x[0] <= '9' by { LabelShapes(); }
    assert ToUpper(s) == y + x by {
      ToUpperAppend(ToLower(y), x);
      ToUpperToLower(y);
      ToUpperFixesUpper(x);
    }
    assert !IsNullOrWhiteSpace(s) by { assert !IsWhiteSpace(s[0]); }
    assert ToUpper(s)[..1] == y && ToUpper(s)[1..] == x;
  }

  /** The canonical coordinates are the canonical strings accepted by ValidCoOrdinates. */
  lemma CanonicalIsFixedPoint(c: string)
    ensures c in AllCoords() <==> ValidCoOrdinates(c) == Ok(c)
  {
    AllCoordsAreCoordinates(c);
    if c in AllCoords() {
      assert c == c[..1] + c[1..];
      RoundTrip(c[..1], c[1..]);
    }
  }

  /** "Z9" is not on the 5 by 5 grid. */
  lemma OffGridExample()
    ensures ValidCoOrdinates("Z9") == Err(InvalidCoordinate("D3"))
    ensures ValidCoOrdinates("") == Err(BlankCoordinate)
    ensures ValidCoOrdinates(" \t") == Err(BlankCoordinate)
  {
    assert !IsNullOrWhiteSpace("Z9") by { assert !IsWhiteSpace("Z9"[0]); }
    assert ToUpper("Z9") == "Z9";
    assert "Z9"[..1] == "Z";
  }
}
