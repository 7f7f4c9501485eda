/** The rectangle of src/naming.py on integer coordinates. Printing is modelled
    as the returned sequence of printed lines. */
module Geometry {
  import opened PyInt

  datatype Point = Point(x: int, y: int)

  datatype Rectangle = Rectangle(startingPoint: Point, width: int, height: int)

  /** `get_area`. */
  function Area(r: Rectangle): (a: int)
    ensures r.width >= 0 && r.height >= 0 ==> a >= 0
    ensures a == 0 <==> r.width == 0 || r.height == 0
  {
    r.width * r.height
  }

  /** The `top_right` end point of `print_coordinates`: an x coordinate. */
  function TopRight(r: Rectangle): int {
    r.startingPoint.x + r.width
  }

  /** The `bottom_left` end point of `print_coordinates`: a y coordinate. */
  function BottomLeft(r: Rectangle): int {
    r.startingPoint.y + r.height
  }

  /** The end points lie one width and one height away from the starting point,
      so together with it they span exactly the rectangle's area. */
  lemma EndPointsSpanRectangle(r: Rectangle)
    ensures TopRight(r) - r.startingPoint.x == r.width
    ensures BottomLeft(r) - r.startingPoint.y == r.height
    ensures Area(r) == (TopRight(r) - r.startingPoint.x) * (BottomLeft(r) - r.startingPoint.y)
  {
  }

  const StartXLabel := "Starting Point (X)): "
  const StartYLabel := "Starting Point (Y)): "
  const TopRightLabel := "End Point X-Axis (Top Right): "
  const BottomLeftLabel := "End Point Y-Axis (Bottom Left): "

  /** `line` is `caption` followed by text that `str()` prints and that reads
      back as the integer `v`. */
  ghost predicate Displays(line: string, caption: string, v: int) {
    && |caption| < |line|
    && line[..|caption|] == caption
    && IsCanonical(line[|caption|..])
    && Parse(line[|caption|..]) == v
  }

  /** A line displays `v` under `caption` exactly when it is `caption + str(v)`,
      so the read-back property fixes each printed line's text. */
  lemma DisplaysExactly(line: string, caption: string, v: int)
    ensures Displays(line, caption, v) <==> line == caption + Str(v)
  {
    if Displays(line, caption, v) {
      StrParse(line[|caption|..]);
      assert line == line[..|caption|] + line[|caption|..];
    }
    if line == caption + Str(v) {
      assert line[..|caption|] == caption;
      assert line[|caption|..] == Str(v);
      ParseStr(v);
    }
  }

  /** One printed line: `caption` followed by `str(v)`. */
  function CoordinateLine(caption: string, v: int): (line: string)
    ensures Displays(line, caption, v)
  {
    DisplaysExactly(caption + Str(v), caption, v);
    caption + Str(v)
  }

  /** `print_coordinates`: four lines, in order the starting x, the starting y,
      the top-right x and the bottom-left y, each readable back as its value. */
  function PrintCoordinates(r: Rectangle): (lines: seq<string>)
    ensures |lines| == 4
    ensures Displays(lines[0], StartXLabel, r.startingPoint.x)
    ensures Displays(lines[1], StartYLabel, r.startingPoint.y)
    ensures Displays(lines[2], TopRightLabel, r.startingPoint.x + r.width)
    ensures Displays(lines[3], BottomLeftLabel, r.startingPoint.y + r.height)
  {
    [ CoordinateLine(StartXLabel, r.startingPoint.x),
      CoordinateLine(StartYLabel, r.startingPoint.y),
      CoordinateLine(TopRightLabel, TopRight(r)),
      CoordinateLine(BottomLeftLabel, BottomLeft(r)) ]
  }

  /** `build_rectangle`. */
  function BuildRectangle(): Rectangle {
    Rectangle(Point(50, 100), 90, 10)
  }

  lemma BuiltRectangleFacts()
    ensures BuildRectangle().startingPoint == Point(50, 100)
    ensures BuildRectangle().width == 90 && BuildRectangle().height == 10
    ensures Area(BuildRectangle()) == 900
    ensures TopRight(BuildRectangle()) == 140
    ensures BottomLeft(BuildRectangle()) == 110
  {
  }

  /** What the module prints when it runs: the area, then the coordinates. */
  function ScriptOutput(): seq<string> {
    var rectangle := BuildRectangle();
    [Str(Area(rectangle))] + PrintCoordinates(rectangle)
  }

  /** The numerals the script prints, split out of ScriptOutputText only to keep
      each proof obligation small. */
  lemma ScriptNumerals()
    ensures Str(900) == "900" && Str(50) == "50" && Str(100) == "100"
    ensures Str(140) == "140" && Str(110) == "110"
  {
  }

  lemma ScriptOutputText()
    ensures ScriptOutput() ==
      [ "900",
        "Starting Point (X)): 50",
        "Starting Point (Y)): 100",
        "End Point X-Axis (Top Right): 140",
        "End Point Y-Axis (Bottom Left): 110" ]
  {
    ScriptNumerals();
    assert StartXLabel + "50" == "Starting Point (X)): 50";
    assert StartYLabel + "100" == "Starting Point (Y)): 100";
    assert TopRightLabel + "140" == "End Point X-Axis (Top Right): 140";
    assert BottomLeftLabel + "110" == "End Point Y-Axis (Bottom Left): 110";
  }
}
