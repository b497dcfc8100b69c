/**
  The CPU half of benchmark.py: a row-major sweep over a surface that a
  second thread may cancel at any pixel. The stop event becomes a sequence
  of the values is_set() returns at each test of the loop condition (a test
  past the end of the sequence finds the event not set).
 */
module Benchmark {
  import opened Engine
  import opened Raster

  /** The benchmark window and its iteration cap (benchmark.py:9-10). */
  const Width := 1280
  const Height := 480
  const Quality := 2500

  /** The width of each half of the window: floor division by 2, as Python's //. */
  function HalfWidth(width: int): (half: int)
    ensures 2 * half <= width <= 2 * half + 1
  {
    width / 2
  }

  /** The benchmark's window splits exactly into two 640-pixel halves. */
  lemma BenchmarkHalves()
    ensures HalfWidth(Width) == 640 && HalfWidth(Width) + HalfWidth(Width) == Width
  {
  }

  /** Whether the k-th test of the loop condition finds the stop event set. */
  predicate StopSet(stop: seq<bool>, k: nat)
  {
    k < |stop| && stop[k]
  }

  /**
    generate_cpu_half: from the cursor (x0, y0), draw the pixel under the
    cursor and advance row-major, until the cursor passes the last row or
    the stop event is found set. The drawn pixels are exactly those from
    (x0, y0) up to the final cursor; every other pixel is left as it was.
   */
  method GenerateCpuHalf(x0: int, y0: int, window: array2<Rgb>, width: int, height: int, stop: seq<bool>)
    returns (x: int, y: int, steps: nat)
    requires width > 0 && height > 0
    requires window.Length0 == width && window.Length1 == height
    modifies window
    ensures y >= height || StopSet(stop, steps)
    ensures forall k :: 0 <= k < steps ==> !StopSet(stop, k)
    ensures steps == 0 <==> y0 >= height || StopSet(stop, 0)
    ensures x0 < width ==> LinearIndex(x, y, width) == LinearIndex(x0, y0, width) + steps
    ensures 0 <= x0 < width ==> 0 <= x < width
    ensures y0 <= height ==> y <= height
    ensures y0 < height && y >= height ==> x == 0
    ensures forall i, j :: 0 <= i < width && 0 <= j < height ==>
      window[i, j] == if !Precedes(i, j, x0, y0) && Precedes(i, j, x, y)
                      then PixelColour(i, j, width, height, Quality)
                      else old(window[i, j])
  {
    x, y, steps := x0, y0, 0;
    while y < height && !StopSet(stop, steps)
      invariant forall k :: 0 <= k < steps ==> !StopSet(stop, k)
      invariant steps == 0 ==> x == x0 && y == y0
      invariant steps > 0 ==> y0 < height
      invariant !Precedes(x, y, x0, y0)
      invariant x0 < width ==> LinearIndex(x, y, width) == LinearIndex(x0, y0, width) + steps
      invariant x0 < width ==> x < width
      invariant 0 <= x0 < width || y != y0 ==> 0 <= x < width
      invariant y0 <= height ==> y <= height
      invariant y0 < height && y >= height ==> x == 0
      invariant forall i, j :: 0 <= i < width && 0 <= j < height ==>
        window[i, j] == if !Precedes(i, j, x0, y0) && Precedes(i, j, x, y)
                        then PixelColour(i, j, width, height, Quality)
                        else old(window[i, j])
      decreases height - y, width - x
    {
      AdvanceIsSuccessor(x, y, width);
      x, y := DrawAndAdvance(window, x, y, width, height);
      steps := steps + 1;
    }
  }

  /** One pass of the sweep: draw the pixel under the cursor (if it is on the surface), then advance. */
  method DrawAndAdvance(window: array2<Rgb>, x: int, y: int, width: int, height: int) returns (nextX: int, nextY: int)
    requires width > 0 && height > 0
    requires window.Length0 == width && window.Length1 == height
    modifies window
    ensures (nextX, nextY) == Advance(x, y, width)
    ensures forall i, j :: 0 <= i < width && 0 <= j < height ==>
      window[i, j] == if i == x && j == y then PixelColour(i, j, width, height, Quality) else old(window[i, j])
  {
    var rgb := RenderPixel(x, y, width, height, Quality);
    SetAt(window, x, y, rgb);
    var next := Advance(x, y, width);
    nextX, nextY := next.0, next.1;
  }

  /**
    The CPU thread of main: a black surface of half the window's width,
    swept from the top-left pixel until done or stopped.
   */
  method CpuHalf(stop: seq<bool>) returns (window: array2<Rgb>, steps: nat)
    ensures fresh(window)
    ensures window.Length0 == HalfWidth(Width) && window.Length1 == Height
    ensures steps <= HalfWidth(Width) * Height
    ensures (forall k :: 0 <= k < |stop| ==> !stop[k]) ==> steps == HalfWidth(Width) * Height
    ensures forall i, j :: 0 <= i < window.Length0 && 0 <= j < window.Length1 ==>
      window[i, j] == if LinearIndex(i, j, window.Length0) < steps
                      then PixelColour(i, j, window.Length0, Height, Quality)
                      else Black
    ensures (forall k :: 0 <= k < |stop| ==> !stop[k]) ==>
      forall i, j :: 0 <= i < window.Length0 && 0 <= j < window.Length1 ==>
        window[i, j] == PixelColour(i, j, window.Length0, Height, Quality)
  {
    var halfWidth := HalfWidth(Width);
    window := new Rgb[halfWidth, Height]((i, j) => Black);
    var x, y;
    x, y, steps := GenerateCpuHalf(0, 0, window, halfWidth, Height, stop);
    CursorBound(x, y, halfWidth, Height);
    ghost var finished := forall k :: 0 <= k < |stop| ==> !stop[k];
    if finished {
      assert !StopSet(stop, steps);
      assert y == Height && x == 0;
    }
    forall i, j | 0 <= i < halfWidth && 0 <= j < Height
      ensures Precedes(i, j, x, y) <==> LinearIndex(i, j, halfWidth) < steps
      ensures finished ==> Precedes(i, j, x, y)
    {
      PrecedesIsIndexOrder(i, j, x, y, halfWidth);
    }
  }
}
