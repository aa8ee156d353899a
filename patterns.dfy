/** The 24x24 tiles that fill patterns repeat (`createPatternCanvas` in
    components/canvas-area.tsx). A tile is modelled as the list of drawing
    commands issued on its 2D context, in order; pixels are not modelled. */
module Patterns {
  import opened Wrappers

  /** The fill patterns offered by the sidebar (`FillPattern`). */
  datatype FillPattern =
    | Solid | StripesH | StripesV | StripesD | Dots
    | Checkerboard | Hearts | Stars | Zigzag | Confetti

  /** One drawing command on the tile's 2D context. Coordinates are pixels. */
  datatype Draw =
    | FillRect(x: int, y: int, w: int, h: int, color: string)
    | Line(x0: int, y0: int, x1: int, y1: int, lineWidth: nat, color: string)
    | Dot(cx: int, cy: int, radius: nat, color: string)
    | Glyph(text: string, gx: int, gy: int)
    | Polyline(points: seq<(int, int)>, lineWidth: nat, color: string)
    | TiltedSquare(px: int, py: int, degrees: int, color: string)

  /** Side of the square tile. */
  const TileSize: int := 24
  const White: string := "#ffffff"

  /** `for (let y = 2; y < size; y += 8) fillRect(0, y, size, 4)`. */
  method HorizontalStripes(color: string) returns (marks: seq<Draw>)
    ensures marks == [FillRect(0, 2, 24, 4, color), FillRect(0, 10, 24, 4, color),
                      FillRect(0, 18, 24, 4, color)]
  {
    marks := [];
    var y := 2;
    while y < TileSize
      invariant 2 <= y <= TileSize + 8 && (y - 2) % 8 == 0
      invariant |marks| == (y - 2) / 8
      invariant forall k :: 0 <= k < |marks| ==> marks[k] == FillRect(0, 2 + 8 * k, TileSize, 4, color)
    {
      marks := marks + [FillRect(0, y, TileSize, 4, color)];
      y := y + 8;
    }
  }

  /** `for (let x = 2; x < size; x += 8) fillRect(x, 0, 4, size)`. */
  method VerticalStripes(color: string) returns (marks: seq<Draw>)
    ensures marks == [FillRect(2, 0, 4, 24, color), FillRect(10, 0, 4, 24, color),
                      FillRect(18, 0, 4, 24, color)]
  {
    marks := [];
    var x := 2;
    while x < TileSize
      invariant 2 <= x <= TileSize + 8 && (x - 2) % 8 == 0
      invariant |marks| == (x - 2) / 8
      invariant forall k :: 0 <= k < |marks| ==> marks[k] == FillRect(2 + 8 * k, 0, 4, TileSize, color)
    {
      marks := marks + [FillRect(x, 0, 4, TileSize, color)];
      x := x + 8;
    }
  }

  /** `for (let i = -size; i < size * 2; i += 8)` one diagonal line from (i, 0)
      to (i + size, size): nine lines, so the stripes cover the whole tile. */
  method DiagonalStripes(color: string) returns (marks: seq<Draw>)
    ensures |marks| == 9
    ensures forall k :: 0 <= k < 9 ==> marks[k] == Line(-24 + 8 * k, 0, 8 * k, 24, 4, color)
  {
    marks := [];
    var i := -TileSize;
    while i < TileSize * 2
      invariant -TileSize <= i <= TileSize * 2 && (i + TileSize) % 8 == 0
      invariant |marks| == (i + TileSize) / 8
      invariant forall k :: 0 <= k < |marks| ==> marks[k] == Line(-24 + 8 * k, 0, 8 * k, 24, 4, color)
    {
      marks := marks + [Line(i, 0, i + TileSize, TileSize, 4, color)];
      i := i + 8;
    }
  }

  /** Whether the checkerboard paints the 8x8 cell whose corner is (x, y). */
  predicate PaintedCell(x: int, y: int)
  {
    x in {0, 8, 16} && y in {0, 8, 16} && (x / 8 + y / 8) % 2 == 0
  }

  /** The cells a column of the checkerboard loop has painted before row y. */
  function ColumnCells(x: int, y: nat, color: string): seq<Draw>
    decreases y
  {
    if y < 8 then []
    else ColumnCells(x, y - 8, color) +
         (if (x / 8 + (y - 8) / 8) % 2 == 0 then [FillRect(x, y - 8, 8, 8, color)] else [])
  }

  /** The cells the checkerboard loop has painted in the columns before x. */
  function ColumnsBefore(x: nat, color: string): seq<Draw>
    decreases x
  {
    if x < 8 then [] else ColumnsBefore(x - 8, color) + ColumnCells(x - 8, 24, color)
  }

  /** The three columns of the checkerboard loop, unrolled. */
  lemma CheckerboardColumns(color: string)
    ensures ColumnsBefore(24, color) ==
      [FillRect(0, 0, 8, 8, color), FillRect(0, 16, 8, 8, color), FillRect(8, 8, 8, 8, color),
       FillRect(16, 0, 8, 8, color), FillRect(16, 16, 8, 8, color)]
  {
    assert ColumnCells(0, 24, color) == [FillRect(0, 0, 8, 8, color), FillRect(0, 16, 8, 8, color)] by {
      assert ColumnCells(0, 8, color) == [FillRect(0, 0, 8, 8, color)];
      assert ColumnCells(0, 16, color) == [FillRect(0, 0, 8, 8, color)];
    }
    assert ColumnCells(8, 24, color) == [FillRect(8, 8, 8, 8, color)] by {
      assert ColumnCells(8, 8, color) == [];
      assert ColumnCells(8, 16, color) == [FillRect(8, 8, 8, 8, color)];
    }
    assert ColumnCells(16, 24, color) == [FillRect(16, 0, 8, 8, color), FillRect(16, 16, 8, 8, color)] by {
      assert ColumnCells(16, 8, color) == [FillRect(16, 0, 8, 8, color)];
      assert ColumnCells(16, 16, color) == [FillRect(16, 0, 8, 8, color)];
    }
    assert ColumnsBefore(8, color) == ColumnCells(0, 24, color);
    assert ColumnsBefore(16, color) == ColumnCells(0, 24, color) + ColumnCells(8, 24, color);
  }

  /** One pass of the inner checkerboard loop extends the current column. */
  lemma CellStep(x: int, y: nat, color: string, done: seq<Draw>, before: seq<Draw>, after: seq<Draw>)
    requires before == done + ColumnCells(x, y, color)
    requires after == before + (if (x / 8 + y / 8) % 2 == 0 then [FillRect(x, y, 8, 8, color)] else [])
    ensures after == done + ColumnCells(x, y + 8, color)
  {
  }

  /** One pass of the outer checkerboard loop appends a whole column. */
  lemma ColumnStep(x: nat, color: string, marks: seq<Draw>)
    requires marks == ColumnsBefore(x, color) + ColumnCells(x, 24, color)
    ensures marks == ColumnsBefore(x + 8, color)
  {
  }

  /** The nested checkerboard loop: the five even cells, column by column. */
  method CheckerboardCells(color: string) returns (marks: seq<Draw>)
    ensures marks == [FillRect(0, 0, 8, 8, color), FillRect(0, 16, 8, 8, color),
                      FillRect(8, 8, 8, 8, color), FillRect(16, 0, 8, 8, color),
                      FillRect(16, 16, 8, 8, color)]
  {
    marks := [];
    var x := 0;
    while x < TileSize
      invariant 0 <= x <= TileSize && x % 8 == 0
      invariant marks == ColumnsBefore(x, color)
    {
      var y := 0;
      while y < TileSize
        invariant 0 <= y <= TileSize && y % 8 == 0
        invariant marks == ColumnsBefore(x, color) + ColumnCells(x, y, color)
      {
        ghost var before := marks;
        if (x / 8 + y / 8) % 2 == 0 {
          marks := marks + [FillRect(x, y, 8, 8, color)];
        }
        CellStep(x, y, color, ColumnsBefore(x, color), before, marks);
        y := y + 8;
      }
      ColumnStep(x, color, marks);
      x := x + 8;
    }
    CheckerboardColumns(color);
  }

  /** The checkerboard paints exactly the cells of even parity: five of the
      nine 8x8 cells. */
  lemma CheckerboardPaintsEvenCells(color: string, x: int, y: int)
    ensures FillRect(x, y, 8, 8, color) in [FillRect(0, 0, 8, 8, color), FillRect(0, 16, 8, 8, color),
                                           FillRect(8, 8, 8, 8, color), FillRect(16, 0, 8, 8, color),
                                           FillRect(16, 16, 8, 8, color)]
            <==> PaintedCell(x, y)
  {
  }

  /** One zigzag row: from (0, bottom), `for (let x = 0; x < size; x += 6)`
      a peak at (x + 3, top) and a trough at (x + 6, bottom). */
  method ZigzagRow(top: int, bottom: int) returns (points: seq<(int, int)>)
    ensures |points| == 9 && points[0] == (0, bottom)
    ensures forall k :: 0 <= k < 4 ==> points[2 * k + 1] == (6 * k + 3, top) && points[2 * k + 2] == (6 * k + 6, bottom)
    ensures points[8] == (TileSize, bottom)
  {
    points := [(0, bottom)];
    var x := 0;
    while x < TileSize
      invariant 0 <= x <= TileSize && x % 6 == 0
      invariant |points| == 1 + 2 * (x / 6) && points[0] == (0, bottom)
      invariant forall k :: 0 <= k < x / 6 ==> points[2 * k + 1] == (6 * k + 3, top) && points[2 * k + 2] == (6 * k + 6, bottom)
    {
      points := points + [(x + 3, top), (x + 6, bottom)];
      x := x + 6;
    }
    assert points[2 * 3 + 2] == (6 * 3 + 6, bottom);
  }

  const DotCenters: seq<(int, int)> := [(6, 6), (18, 6), (12, 12), (6, 18), (18, 18)]
  const ConfettiCorners: seq<(int, int)> := [(4, 4), (16, 3), (10, 12), (4, 18), (18, 16)]

  /** The confetti palette: the chosen color first, then five fixed ones. */
  function ConfettiColors(color: string): seq<string>
  {
    [color, "#ff69b4", "#a855f7", "#00e5ff", "#ffd700", "#7fff00"]
  }

  /** The vertices of one zigzag row: from (0, bottom), a peak at
      (6k + 3, top) and a trough at (6k + 6, bottom) for k = 0 to 3. */
  predicate ZigzagPoints(points: seq<(int, int)>, top: int, bottom: int)
  {
    |points| == 9 && points[0] == (0, bottom) &&
    forall k :: 0 <= k < 4 ==> points[2 * k + 1] == (6 * k + 3, top) && points[2 * k + 2] == (6 * k + 6, bottom)
  }

  /** The tile `createPatternCanvas` draws for a pattern in a color: a white
      square followed by that pattern's marks. The solid pattern has none. */
  predicate PatternTile(color: string, pattern: FillPattern, tile: seq<Draw>)
  {
    |tile| >= 1 && tile[0] == FillRect(0, 0, TileSize, TileSize, White) &&
    match pattern
    case Solid => false
    case StripesH =>
      tile[1..] == [FillRect(0, 2, 24, 4, color), FillRect(0, 10, 24, 4, color), FillRect(0, 18, 24, 4, color)]
    case StripesV =>
      tile[1..] == [FillRect(2, 0, 4, 24, color), FillRect(10, 0, 4, 24, color), FillRect(18, 0, 4, 24, color)]
    case StripesD =>
      |tile| == 10 && forall i :: 1 <= i < 10 ==> tile[i] == Line(-24 + 8 * (i - 1), 0, 8 * (i - 1), 24, 4, color)
    case Checkerboard =>
      tile[1..] == [FillRect(0, 0, 8, 8, color), FillRect(0, 16, 8, 8, color), FillRect(8, 8, 8, 8, color),
                    FillRect(16, 0, 8, 8, color), FillRect(16, 16, 8, 8, color)]
    case Dots =>
      |tile| == 6 && forall i :: 1 <= i < 6 ==> tile[i] == Dot(DotCenters[i - 1].0, DotCenters[i - 1].1, 3, color)
    case Hearts =>
      tile[1..] == [Glyph("\U{1F496}", 2, 14), Glyph("\U{1F496}", 14, 22)]
    case Stars =>
      tile[1..] == [Glyph("\U{2B50}", 2, 14), Glyph("\U{2B50}", 14, 22)]
    case Zigzag =>
      |tile| == 3 &&
      tile[1].Polyline? && tile[1].lineWidth == 3 && tile[1].color == color && ZigzagPoints(tile[1].points, 4, 8) &&
      tile[2].Polyline? && tile[2].lineWidth == 3 && tile[2].color == color && ZigzagPoints(tile[2].points, 16, 20)
    case Confetti =>
      |tile| == 6 && forall i :: 1 <= i < 6 ==>
        tile[i] == TiltedSquare(ConfettiCorners[i - 1].0, ConfettiCorners[i - 1].1, 30 * (i - 1),
                                ConfettiColors(color)[(i - 1) % 6])
  }

  /** A zigzag row is fixed by its top and bottom. */
  lemma ZigzagPointsExact(p: seq<(int, int)>, q: seq<(int, int)>, top: int, bottom: int)
    requires ZigzagPoints(p, top, bottom) && ZigzagPoints(q, top, bottom)
    ensures p == q
  {
    forall i | 0 <= i < 9
      ensures p[i] == q[i]
    {
      if i > 0 {
        var k := (i - 1) / 2;
        assert i == 2 * k + 1 || i == 2 * k + 2;
      }
    }
  }

  /** The pattern and the color determine the tile: no two different tiles
      fit the same pattern and color. */
  lemma PatternTileExact(color: string, pattern: FillPattern, t: seq<Draw>, u: seq<Draw>)
    requires PatternTile(color, pattern, t) && PatternTile(color, pattern, u)
    ensures t == u
  {
    match pattern
    case Zigzag =>
      ZigzagPointsExact(t[1].points, u[1].points, 4, 8);
      ZigzagPointsExact(t[2].points, u[2].points, 16, 20);
      assert t == [t[0], t[1], t[2]] && u == [u[0], u[1], u[2]];
    case StripesD =>
      assert forall i :: 0 <= i < |t| ==> t[i] == u[i];
    case Dots =>
      assert forall i :: 0 <= i < |t| ==> t[i] == u[i];
    case Confetti =>
      assert forall i :: 0 <= i < |t| ==> t[i] == u[i];
    case StripesH | StripesV | Checkerboard | Hearts | Stars =>
      assert t == [t[0]] + t[1..] && u == [u[0]] + u[1..];
    case Solid =>
  }

  /** `createPatternCanvas`: None for the solid pattern (no tile is needed) and
      when the 2D context is unavailable; otherwise the pattern's tile. */
  method CreatePatternCanvas(color: string, pattern: FillPattern, contextAvailable: bool)
    returns (tile: Option<seq<Draw>>)
    ensures tile.None? <==> pattern == Solid || !contextAvailable
    ensures tile.Some? ==> PatternTile(color, pattern, tile.value)
  {
    if pattern == Solid || !contextAvailable {
      return None;
    }
    var marks: seq<Draw>;
    match pattern {
      case StripesH => marks := HorizontalStripes(color);
      case StripesV => marks := VerticalStripes(color);
      case StripesD => marks := DiagonalStripes(color);
      case Dots =>
        marks := seq(5, k requires 0 <= k < 5 => Dot(DotCenters[k].0, DotCenters[k].1, 3, color));
      case Checkerboard => marks := CheckerboardCells(color);
      case Hearts => marks := [Glyph("\U{1F496}", 2, 14), Glyph("\U{1F496}", 14, 22)];
      case Stars => marks := [Glyph("\U{2B50}", 2, 14), Glyph("\U{2B50}", 14, 22)];
      case Zigzag =>
        var upper := ZigzagRow(4, 8);
        var lower := ZigzagRow(16, 20);
        marks := [Polyline(upper, 3, color), Polyline(lower, 3, color)];
      case Confetti =>
        marks := seq(5, k requires 0 <= k < 5 =>
          TiltedSquare(ConfettiCorners[k].0, ConfettiCorners[k].1, 30 * k, ConfettiColors(color)[k % 6]));
    }
    var drawn := [FillRect(0, 0, TileSize, TileSize, White)] + marks;
    assert drawn[1..] == marks;
    tile := Some(drawn);
  }
}
