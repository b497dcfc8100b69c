/**
  What the CPU renderers share: the colour of one pixel (map, count,
  colour), the row-major cursor that walks a window one pixel at a time,
  and the two surface operations they use, set_at and fill.

  A surface is an array2<Rgb> indexed [x, y], with Length0 the width and
  Length1 the height.
 */
module Raster {
  import opened Engine
  import opened Mapping

  /** The colour a CPU renderer draws at pixel (x, y) of a width x height window. */
  function PixelColour(x: int, y: int, width: int, height: int, quality: int): Rgb
    requires width != 0 && height != 0
  {
    Colour(EscapeTime(PixelToComplex(x, y, width, height), quality), quality)
  }

  /** One pixel of a CPU pass: map the pixel, run the escape loop, colour the count. */
  method RenderPixel(x: int, y: int, width: int, height: int, quality: int) returns (rgb: Rgb)
    requires width != 0 && height != 0
    ensures rgb == PixelColour(x, y, width, height, quality)
    ensures rgb != Black ==>
      var c := PixelToComplex(x, y, width, height);
      EscapeTime(c, quality) < quality && !InDisk(Orbit(c, EscapeTime(c, quality)))
  {
    var point := PixelToComplex(x, y, width, height);
    var iterations := CountIterations(point, quality);
    rgb := Colour(iterations, quality);
  }

  /** Pixel (i, j) comes before the cursor (x, y) in row-major order (x fastest, then y). */
  predicate Precedes(i: int, j: int, x: int, y: int)
  {
    j < y || (j == y && i < x)
  }

  /** The cursor step of every CPU pass: x + 1, wrapping to the next row when x reaches the width. */
  function Advance(x: int, y: int, width: int): (int, int)
  {
    if x + 1 >= width then (0, y + 1) else (x + 1, y)
  }

  /** The position of (x, y) in a row-major enumeration of rows of the given width. */
  function LinearIndex(x: int, y: int, width: int): int
  {
    y * width + x
  }

  /**
    Advancing the cursor marks exactly the pixel under it as passed, and
    keeps x within the row; from a column inside the row it moves one
    position along the row-major enumeration.
   */
  lemma AdvanceIsSuccessor(x: int, y: int, width: int)
    requires width > 0
    ensures forall i, j :: 0 <= i < width ==>
      (Precedes(i, j, Advance(x, y, width).0, Advance(x, y, width).1) <==> Precedes(i, j, x, y) || (i == x && j == y))
    ensures 0 <= x + 1 ==> 0 <= Advance(x, y, width).0 < width
    ensures x < width ==>
      LinearIndex(Advance(x, y, width).0, Advance(x, y, width).1, width) == LinearIndex(x, y, width) + 1
  {
    if x + 1 >= width && x < width {
      assert x == width - 1;
      assert (y + 1) * width == y * width + width;
    }
  }

  /** Within a row of the given width, row-major order is the order of linear indices. */
  lemma {:induction false} PrecedesIsIndexOrder(i: int, j: int, x: int, y: int, width: int)
    requires 0 <= i < width && 0 <= x < width
    ensures Precedes(i, j, x, y) <==> LinearIndex(i, j, width) < LinearIndex(x, y, width)
  {
    if j < y {
      RowsApart(j, y, width);
    } else if y < j {
      RowsApart(y, j, width);
    }
  }

  /** A lower row ends before a higher row starts. */
  lemma RowsApart(j: int, y: int, width: int)
    requires j < y && width > 0
    ensures j * width + width <= y * width
  {
    var d := y - j;
    assert y * width == j * width + d * width;
    assert d * width >= width by {
      assert d >= 1;
      assert d * width == width + (d - 1) * width;
    }
  }

  /**
    A cursor kept inside the window is at most width * height positions in,
    and reaches width * height exactly when it has passed the last row.
   */
  lemma CursorBound(x: int, y: int, width: int, height: int)
    requires 0 <= x < width && 0 <= y <= height && (y == height ==> x == 0)
    ensures 0 <= LinearIndex(x, y, width) <= width * height
    ensures LinearIndex(x, y, width) == width * height <==> y == height
  {
    if y < height {
      RowsApart(y, height, width);
    }
    assert 0 <= y * width;
  }

  /** Every pixel of a width x height window precedes the final cursor (0, height) and none precedes (0, 0). */
  lemma WholeWindowBetween(i: int, j: int, width: int, height: int)
    requires 0 <= i < width && 0 <= j < height
    ensures Precedes(i, j, 0, height) && !Precedes(i, j, 0, 0)
  {
  }

  /** pygame's set_at: a write inside the surface, ignored outside it. */
  method SetAt(surface: array2<Rgb>, x: int, y: int, colour: Rgb)
    modifies surface
    ensures forall i, j :: 0 <= i < surface.Length0 && 0 <= j < surface.Length1 ==>
      surface[i, j] == if i == x && j == y then colour else old(surface[i, j])
  {
    if 0 <= x < surface.Length0 && 0 <= y < surface.Length1 {
      surface[x, y] := colour;
    }
  }

  /** pygame's fill: every pixel of the surface gets the colour. */
  method Fill(surface: array2<Rgb>, colour: Rgb)
    modifies surface
    ensures forall i, j :: 0 <= i < surface.Length0 && 0 <= j < surface.Length1 ==> surface[i, j] == colour
  {
    for i := 0 to surface.Length0
      invariant forall i', j :: 0 <= i' < i && 0 <= j < surface.Length1 ==> surface[i', j] == colour
    {
      for j := 0 to surface.Length1
        invariant forall i', j' :: 0 <= i' < i && 0 <= j' < surface.Length1 ==> surface[i', j'] == colour
        invariant forall j' :: 0 <= j' < j ==> surface[i, j'] == colour
      {
        surface[i, j] := colour;
      }
    }
  }
}
