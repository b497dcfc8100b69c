/**
  The progressive CPU renderer of main.py and cpu_demo.py: a window, the
  current size, and a cursor (x, y) that draws one pixel per pass of the
  main loop in row-major order. Resizing or pressing the redraw key sends
  the cursor back to the top-left pixel; the redraw key also clears the
  window to black. The host's event queue becomes a sequence of Event
  values per pass of the loop.
 */
module Progressive {
  import opened Engine
  import opened Raster

  /** The events the main loop reacts to; any other event is Ignored. */
  datatype Event = Quit | Resize(width: int, height: int) | RedrawKey | Ignored

  /** The configured windows and iteration cap (main.py:7-8, cpu_demo.py:7-8). */
  const MainWidth := 800
  const MainHeight := 600
  const DemoWidth := 640
  const DemoHeight := 480
  const Quality := 25

  /** The host only reports resizes to a positive size. */
  predicate ResizesPositive(events: seq<Event>)
  {
    forall k :: 0 <= k < |events| && events[k].Resize? ==> events[k].width > 0 && events[k].height > 0
  }

  /** The batch holds an event that restarts the pass: a resize or the redraw key. */
  predicate Restarts(events: seq<Event>)
  {
    exists k :: 0 <= k < |events| && (events[k].Resize? || events[k] == RedrawKey)
  }

  /** The batch holds no event the main loop reacts to: mouse moves, other keys and the like. */
  predicate Quiet(events: seq<Event>)
  {
    forall k :: 0 <= k < |events| ==> events[k] == Ignored
  }

  /** The window size after the batch: the last resize's size, or the current one. */
  function SizeAfter(events: seq<Event>, width: int, height: int): (int, int)
  {
    if events == [] then (width, height)
    else if events[|events| - 1].Resize? then (events[|events| - 1].width, events[|events| - 1].height)
    else SizeAfter(events[..|events| - 1], width, height)
  }

  /** The number of passes of the main loop: up to and including the first batch holding Quit. */
  function PassesUntilQuit(frames: seq<seq<Event>>): (n: nat)
    ensures n <= |frames|
    ensures forall k :: 0 <= k < n - 1 ==> Quit !in frames[k]
    ensures n < |frames| ==> 0 < n && Quit in frames[n - 1]
    ensures n == |frames| ==> forall k :: 0 <= k < |frames| - 1 ==> Quit !in frames[k]
  {
    if frames == [] then 0
    else if Quit in frames[0] then 1
    else 1 + PassesUntilQuit(frames[1..])
  }

  class ProgressiveRenderer {
    var width: int
    var height: int
    const quality: int
    var x: int
    var y: int
    var window: array2<Rgb>

    /**
      The size is positive, the window has that size, the cursor is inside
      the window (or just past its last row), and every pixel before the
      cursor already holds its final colour.
     */
    ghost predicate Valid()
      reads this, window
    {
      && 0 < width && 0 < height
      && window.Length0 == width && window.Length1 == height
      && 0 <= x < width && 0 <= y <= height && (y == height ==> x == 0)
      && forall i, j :: 0 <= i < width && 0 <= j < height && Precedes(i, j, x, y) ==>
           window[i, j] == PixelColour(i, j, width, height, quality)
    }

    /** Opening the window: a black surface of the configured size, cursor at the top-left pixel. */
    constructor (initialWidth: int, initialHeight: int, iterationCap: int)
      requires initialWidth > 0 && initialHeight > 0
      ensures Valid() && fresh(window)
      ensures width == initialWidth && height == initialHeight && quality == iterationCap
      ensures x == 0 && y == 0
      ensures forall i, j :: 0 <= i < width && 0 <= j < height ==> window[i, j] == Black
    {
      width, height, quality := initialWidth, initialHeight, iterationCap;
      x, y := 0, 0;
      window := new Rgb[initialWidth, initialHeight]((i, j) => Black);
    }

    /** A resize: a fresh black window of the new size, cursor back to the top-left pixel. */
    method OnResize(newWidth: int, newHeight: int)
      requires Valid() && newWidth > 0 && newHeight > 0
      modifies this
      ensures Valid() && fresh(window)
      ensures width == newWidth && height == newHeight && x == 0 && y == 0
      ensures forall i, j :: 0 <= i < width && 0 <= j < height ==> window[i, j] == Black
    {
      width, height := newWidth, newHeight;
      window := new Rgb[newWidth, newHeight]((i, j) => Black);
      x, y := 0, 0;
    }

    /** The redraw key: clear the window to black, cursor back to the top-left pixel. */
    method OnRedraw()
      requires Valid()
      modifies this`x, this`y, window
      ensures Valid()
      ensures x == 0 && y == 0
      ensures forall i, j :: 0 <= i < width && 0 <= j < height ==> window[i, j] == Black
    {
      Fill(window, Black);
      x, y := 0, 0;
    }

    /**
      The drawing half of one pass of the main loop: while the cursor is
      above the bottom of the window, draw the pixel under it and advance.
     */
    method Tick()
      requires Valid()
      modifies this`x, this`y, window
      ensures Valid()
      ensures old(y) < height ==>
        && (x, y) == Advance(old(x), old(y), width)
        && LinearIndex(x, y, width) == LinearIndex(old(x), old(y), width) + 1
        && window[old(x), old(y)] == PixelColour(old(x), old(y), width, height, quality)
        && forall i, j :: 0 <= i < width && 0 <= j < height && (i != old(x) || j != old(y)) ==>
             window[i, j] == old(window[i, j])
      ensures old(y) >= height ==> x == old(x) && y == old(y) && unchanged(window)
    {
      if y < height {
        var rgb := RenderPixel(x, y, width, height, quality);
        window[x, y] := rgb;
        AdvanceIsSuccessor(x, y, width);
        var next := Advance(x, y, width);
        x, y := next.0, next.1;
      }
    }

    /** The event half of one pass of the main loop: handle the batch in order. */
    method HandleEvents(events: seq<Event>) returns (quit: bool)
      requires Valid() && ResizesPositive(events)
      modifies this, window
      ensures Valid()
      ensures window == old(window) || fresh(window)
      ensures quit <==> Quit in events
      ensures (width, height) == SizeAfter(events, old(width), old(height))
      ensures Restarts(events) ==>
        && x == 0 && y == 0
        && forall i, j :: 0 <= i < width && 0 <= j < height ==> window[i, j] == Black
      ensures !Restarts(events) ==> x == old(x) && y == old(y) && window == old(window) && unchanged(window)
    {
      quit := false;
      var k := 0;
      while k < |events|
        invariant 0 <= k <= |events|
        invariant Valid()
        invariant window == old(window) || fresh(window)
        invariant quit <==> Quit in events[..k]
        invariant (width, height) == SizeAfter(events[..k], old(width), old(height))
        invariant Restarts(events[..k]) ==>
          && x == 0 && y == 0
          && forall i, j :: 0 <= i < width && 0 <= j < height ==> window[i, j] == Black
        invariant !Restarts(events[..k]) ==> x == old(x) && y == old(y) && window == old(window) && unchanged(window)
      {
        assert events[..k + 1][..k] == events[..k];
        match events[k] {
          case Quit =>
            quit := true;
          case Resize(w, h) =>
            OnResize(w, h);
          case RedrawKey =>
            OnRedraw();
          case Ignored =>
        }
        k := k + 1;
      }
      assert events[..k] == events;
    }

    /**
      One pass of the main loop: the events of this pass, then one tick. The
      tick happens in every pass, the one that saw Quit included; after a
      restart it draws the top-left pixel of the black window.
     */
    method Pass(events: seq<Event>) returns (running: bool)
      requires Valid() && ResizesPositive(events)
      modifies this, window
      ensures Valid()
      ensures window == old(window) || fresh(window)
      ensures running <==> Quit !in events
      ensures (width, height) == SizeAfter(events, old(width), old(height))
      ensures !Restarts(events) ==>
        && width == old(width) && height == old(height) && window == old(window)
        && (old(y) < height ==>
              && (x, y) == Advance(old(x), old(y), width)
              && window[old(x), old(y)] == PixelColour(old(x), old(y), width, height, quality)
              && forall i, j :: 0 <= i < width && 0 <= j < height && (i != old(x) || j != old(y)) ==>
                   window[i, j] == old(window[i, j]))
        && (old(y) >= height ==> x == old(x) && y == old(y) && unchanged(window))
      ensures Restarts(events) ==>
        && (x, y) == Advance(0, 0, width)
        && window[0, 0] == PixelColour(0, 0, width, height, quality)
        && forall i, j :: 0 <= i < width && 0 <= j < height && (i != 0 || j != 0) ==> window[i, j] == Black
    {
      var quit := HandleEvents(events);
      Tick();
      running := !quit;
    }

    /**
      The main loop over the batches the host delivers, one batch per pass,
      until a batch holds Quit (its pass still draws) or the batches run out.
      When no batch holds an event the loop reacts to, each pass draws the
      next pixel; from the top-left pixel, width * height passes draw the
      whole window.
     */
    method Run(frames: seq<seq<Event>>) returns (passes: nat)
      requires Valid()
      requires forall k :: 0 <= k < |frames| ==> ResizesPositive(frames[k])
      modifies this, window
      ensures Valid()
      ensures passes == PassesUntilQuit(frames)
      ensures (forall k :: 0 <= k < |frames| ==> Quiet(frames[k])) ==>
        && passes == |frames|
        && width == old(width) && height == old(height) && window == old(window)
        && LinearIndex(x, y, width) == Min(old(LinearIndex(x, y, width)) + |frames|, width * height)
        && (forall i, j :: 0 <= i < width && 0 <= j < height && !Precedes(i, j, x, y) ==>
              window[i, j] == old(window[i, j]))
        && (old(x) == 0 && old(y) == 0 && |frames| >= width * height ==>
              && y == height
              && forall i, j :: 0 <= i < width && 0 <= j < height ==>
                   window[i, j] == PixelColour(i, j, width, height, quality))
    {
      ghost var quiet := forall k :: 0 <= k < |frames| ==> Quiet(frames[k]);
      ghost var start := LinearIndex(x, y, width);
      CursorBound(x, y, width, height);
      var running := true;
      passes := 0;
      while running && passes < |frames|
        invariant passes <= |frames|
        invariant Valid()
        invariant window == old(window) || fresh(window)
        invariant running <==> forall k :: 0 <= k < passes ==> Quit !in frames[k]
        invariant PassesUntilQuit(frames) == if running then passes + PassesUntilQuit(frames[passes..]) else passes
        invariant quiet ==>
          && running
          && width == old(width) && height == old(height) && window == old(window)
          && LinearIndex(x, y, width) == Min(start + passes, width * height)
          && (forall i, j :: 0 <= i < width && 0 <= j < height && !Precedes(i, j, x, y) ==>
                window[i, j] == old(window[i, j]))
      {
        ghost var px, py := x, y;
        PassesUntilQuitStep(frames[passes..]);
        assert frames[passes..][1..] == frames[passes + 1..];
        label before:
        running := Pass(frames[passes]);
        passes := passes + 1;
        if quiet {
          AdvanceIsSuccessor(px, py, width);
          CursorBound(px, py, width, height);
          CursorBound(x, y, width, height);
          forall i, j | 0 <= i < width && 0 <= j < height && !Precedes(i, j, x, y)
            ensures window[i, j] == old(window[i, j])
          {
            assert !Precedes(i, j, px, py);
            assert window[i, j] == old@before(window[i, j]);
          }
        }
      }
      if quiet {
        assert frames[passes..] == [];
        if old(x) == 0 && old(y) == 0 && |frames| >= width * height {
          CursorBound(x, y, width, height);
          forall i, j | 0 <= i < width && 0 <= j < height
            ensures window[i, j] == PixelColour(i, j, width, height, quality)
          {
            WholeWindowBetween(i, j, width, height);
          }
        }
      }
    }
  }

  /** main.py's start-up: an 800 x 600 window, cap 25, cursor at the top-left pixel. */
  method OpenMainWindow() returns (renderer: ProgressiveRenderer)
    ensures fresh(renderer) && renderer.Valid()
    ensures renderer.width == MainWidth && renderer.height == MainHeight && renderer.quality == Quality
    ensures renderer.x == 0 && renderer.y == 0
  {
    renderer := new ProgressiveRenderer(MainWidth, MainHeight, Quality);
  }

  /** cpu_demo.py's start-up: a 640 x 480 window, cap 25, cursor at the top-left pixel. */
  method OpenDemoWindow() returns (renderer: ProgressiveRenderer)
    ensures fresh(renderer) && renderer.Valid()
    ensures renderer.width == DemoWidth && renderer.height == DemoHeight && renderer.quality == Quality
    ensures renderer.x == 0 && renderer.y == 0
  {
    renderer := new ProgressiveRenderer(DemoWidth, DemoHeight, Quality);
  }

  function Min(a: int, b: int): int
  {
    if a <= b then a else b
  }

  /** One pass consumes one batch: the count of the rest is one less, until a batch holds Quit. */
  lemma PassesUntilQuitStep(frames: seq<seq<Event>>)
    requires frames != []
    ensures Quit in frames[0] ==> PassesUntilQuit(frames) == 1
    ensures Quit !in frames[0] ==> PassesUntilQuit(frames) == 1 + PassesUntilQuit(frames[1..])
  {
  }
}
