/**
  The pixel-to-complex-plane mapping used by the CPU renderers (main.py, and
  cpu_demo.py / benchmark.py through pixel_to_complex_cpu): centre the pixel,
  divide by the window size, scale by 4. There is no aspect-ratio correction,
  so each axis spans [-2, 2) whatever the window's shape.
 */
module Mapping {
  import opened Engine

  /** The complex point drawn at pixel (x, y) of a width x height window. */
  function PixelToComplex(x: int, y: int, width: int, height: int): (c: Complex)
    requires width != 0 && height != 0
    ensures c.re == 4.0 * (x as real) / (width as real) - 2.0
    ensures c.im == 4.0 * (y as real) / (height as real) - 2.0
  {
    var centredX := x as real - width as real / 2.0;
    var centredY := y as real - height as real / 2.0;
    CentredScale(x, width);
    CentredScale(y, height);
    Complex(centredX / width as real * 4.0, centredY / height as real * 4.0)
  }

  /** Centring then scaling is the affine map x -> 4x/w - 2. */
  lemma CentredScale(x: int, width: int)
    requires width != 0
    ensures (x as real - width as real / 2.0) / width as real * 4.0 == 4.0 * (x as real) / (width as real) - 2.0
  {
    var a, w := x as real, width as real;
    assert (a - w / 2.0) / w == a / w - (w / 2.0) / w;
    assert (w / 2.0) / w == 0.5;
    assert 4.0 * a / w == 4.0 * (a / w);
  }

  /** The inverse of the mapping: the (fractional) pixel position at which a point is drawn. */
  function ComplexToPixel(c: Complex, width: int, height: int): (real, real)
  {
    ((c.re + 2.0) * (width as real) / 4.0, (c.im + 2.0) * (height as real) / 4.0)
  }

  /** Mapping a pixel and mapping back gives the pixel again, so distinct pixels get distinct points. */
  lemma PixelRoundTrip(x: int, y: int, width: int, height: int)
    requires width != 0 && height != 0
    ensures ComplexToPixel(PixelToComplex(x, y, width, height), width, height) == (x as real, y as real)
  {
    var c := PixelToComplex(x, y, width, height);
    UnscaleInverts(x, width, c.re);
    UnscaleInverts(y, height, c.im);
    assert ComplexToPixel(c, width, height).0 == x as real;
    assert ComplexToPixel(c, width, height).1 == y as real;
  }

  lemma UnscaleInverts(x: int, width: int, r: real)
    requires width != 0 && r == 4.0 * (x as real) / (width as real) - 2.0
    ensures (r + 2.0) * (width as real) / 4.0 == x as real
  {
    var a, w := x as real, width as real;
    assert r + 2.0 == 4.0 * a / w;
    assert 4.0 * a / w * w == 4.0 * a;
  }

  /** The top-left pixel is drawn at -2 - 2i. */
  lemma CornerIsMinusTwo(width: int, height: int)
    requires width != 0 && height != 0
    ensures PixelToComplex(0, 0, width, height) == Complex(-2.0, -2.0)
  {
  }

  /** For an even-sized window the middle pixel is drawn at the origin. */
  lemma CentreIsOrigin(width: int, height: int)
    requires width > 0 && height > 0 && width % 2 == 0 && height % 2 == 0
    ensures PixelToComplex(width / 2, height / 2, width, height) == Zero
  {
    var c := PixelToComplex(width / 2, height / 2, width, height);
    assert (width / 2) as real * 2.0 == width as real;
    assert (height / 2) as real * 2.0 == height as real;
    assert c.re == 0.0;
    assert c.im == 0.0;
  }

  /** Every pixel of the window is drawn inside the square [-2, 2) x [-2, 2). */
  lemma PixelsInsideSquare(x: int, y: int, width: int, height: int)
    requires 0 <= x < width && 0 <= y < height
    ensures -2.0 <= PixelToComplex(x, y, width, height).re < 2.0
    ensures -2.0 <= PixelToComplex(x, y, width, height).im < 2.0
  {
    ScaledBelowFour(x, width);
    ScaledBelowFour(y, height);
  }

  lemma ScaledBelowFour(x: int, width: int)
    requires 0 <= x < width
    ensures 0.0 <= 4.0 * (x as real) / (width as real) < 4.0
  {
    var w := width as real;
    assert 4.0 * (x as real) < 4.0 * w;
    assert 4.0 * (x as real) / w < 4.0 * w / w;
  }

  /**
    Moving right a pixel moves the drawn point right, whatever the rows, and
    moving down a pixel moves it down, whatever the columns: the mapping is
    increasing on each axis separately.
   */
  lemma MappingIncreasing(x1: int, x2: int, y1: int, y2: int, width: int, height: int)
    requires width > 0 && height > 0
    ensures x1 < x2 ==> PixelToComplex(x1, y1, width, height).re < PixelToComplex(x2, y2, width, height).re
    ensures y1 < y2 ==> PixelToComplex(x1, y1, width, height).im < PixelToComplex(x2, y2, width, height).im
  {
    if x1 < x2 {
      DivIncreasing(4.0 * (x1 as real), 4.0 * (x2 as real), width as real);
    }
    if y1 < y2 {
      DivIncreasing(4.0 * (y1 as real), 4.0 * (y2 as real), height as real);
    }
  }

  lemma DivIncreasing(a: real, b: real, d: real)
    requires a < b && d > 0.0
    ensures a / d < b / d
  {
  }

  /** The two values the unit tests check, for a 640 x 480 window. */
  lemma TestWindowValues()
    ensures PixelToComplex(320, 240, 640, 480) == Zero
    ensures PixelToComplex(0, 0, 640, 480) == Complex(-2.0, -2.0)
  {
    CentreIsOrigin(640, 480);
  }
}
