# Mandelbrot renderer: verified model of the fractal engine

This project models the core of a small Mandelbrot viewer that draws the
set either progressively on the CPU, one pixel per pass of the main loop,
or all at once from a grid of escape counts computed on the GPU.

- **Engine** (`engine.dfy`): the escape-count loop `z := z*z + c` while
  `|z| <= 2` and below the iteration cap, and the count-to-colour rule
  (black at the cap, otherwise red `(n mod 8)*32`, green `(n mod 4)*64`,
  blue `(n mod 16)*16`). Complex numbers are exact pairs of reals and
  `|z| <= 2` is tested as `re*re + im*im <= 4`. `EscapeTime` is the
  specification of the loop; `CountIterations` is the loop itself, proved
  equal to it.
- **Mapping** (`mapping.dfy`): pixel `(x, y)` of a `w x h` window is drawn at
  `((x - w/2)/w*4, (y - h/2)/h*4)`, that is `4x/w - 2` and `4y/h - 2`, with no
  aspect-ratio correction. It has an inverse, so distinct pixels map to
  distinct points.
- **Raster** (`raster.dfy`): what the CPU renderers share. It holds the
  colour of one pixel (map, count, colour), the row-major cursor step
  (`x + 1`, wrapping to the next row at the width), and pygame's `set_at`
  (a write outside the surface is ignored) and `fill`.
- **Progressive** (`progressive.dfy`): the main loop of `main.py` and
  `cpu_demo.py`, as a class `ProgressiveRenderer`. The class holds the window
  (`array2<Rgb>`, indexed `[x, y]`), the current size, the cap and the cursor.
  Its invariant says that every pixel before the cursor already holds its
  final colour. Each pass of the loop handles a batch of events and then
  draws at most one pixel. A resize or the redraw key sends the cursor back
  to `(0, 0)`, and the redraw key also clears the window to black. Without
  events, `width * height` passes from `(0, 0)` draw the whole window.
- **Benchmark** (`benchmark.dfy`): `generate_cpu_half`, the same sweep as a
  loop that another thread can cancel. The stop event is the sequence of
  values `is_set()` returns at each test of the loop condition. The pixels
  drawn are exactly those from the start cursor up to the final cursor.
  Every other pixel keeps its value, and without cancellation the whole
  half-window is drawn in `width * height` steps.
- **GpuRender** (`gpu_render.dfy`): `create_image` builds a fresh surface.
  Its pixel `(x, y)` is the colour of `grid[y][x]`, so the grid is read
  transposed. The GPU viewer rebuilds the image after a resize or a redraw,
  and its invariant is that the image has the current size and shows the
  current grid.

The colour rule is black at the cap, but it is not black *only* at the cap.
An uncapped count that is a multiple of 16 gets `(0, 0, 0)` as well: count
16 under the cap 25 that `main.py` uses is one example. `Engine.Colour`
therefore states the exact condition, `black <==> n == max || n % 16 == 0`,
and `Engine.BlackBandBelowCap` exhibits the case. What does hold in one
direction is that a non-black pixel is a point whose orbit left the disk
before the cap (`Engine.Calculate`, `Raster.RenderPixel`).

The code performs no validation of sizes or of the cap. A cap of 0 or below
gives the count 0, and the model follows that. A zero-width window would
divide by zero in the mapping, so the CPU renderers require a positive size.

`engine.py` as it stands defines only `calculate`. The other files import
`calculate_fractal_cpu`, `colorer`, `colorer_cpu` and `pixel_to_complex_cpu`
from it. The model takes these to be the loop half and the colour half of
`calculate`, and the mapping written out inline in `main.py`. The unit test
calls `pixel_to_complex_cpu(x, y, state)` with a state record, whereas
`cpu_demo.py` and `benchmark.py` pass the width and height. The model takes
the width and height.

## Model

| member | source | states |
|---|---|---|
| Engine.EscapeFrom | engine.py:16-18 | Resuming the loop at step k gives a count n >= k (at most the cap when k is). Every iterate from k up to n is in the disk, and the iterate at n is outside it whenever n is below the cap. |
| Engine.EscapeTime | engine.py:13-18 | The escape count is the first k below the cap whose iterate has abs(z) > 2, or the cap when there is none. It lies in [0, max], and it is 0 when the cap is not positive. |
| Engine.CountIterations | engine.py:13-18 | The while loop terminates and returns exactly EscapeTime. The count is at most the cap and at least 1 when the cap is at least 1. All earlier iterates are in the disk, and the last one is outside it when the loop stopped below the cap. |
| Engine.EscapeTimeUnique | engine.py:16 | Any count meeting the loop's two stopping conditions is EscapeTime, so the loop's exit condition determines the result. |
| Engine.RaisingTheCap | engine.py:16 | The count under a lower cap is the count under a higher cap, clipped to the lower cap. |
| Engine.OriginOrbit | engine.py:13-17 | For c = 0, z stays 0 at every step. |
| Engine.OriginNeverEscapes | engine.py:16-21 | For c = 0 the count equals a non-negative cap and the colour is black, as test_engine.py checks with cap 100. |
| Engine.ThreeEscapesAtOnce | engine.py:16-26 | For c = 3 the count is 1 under any cap >= 1. The colour is (32, 64, 16) under any cap > 1, as test_engine.py checks. |
| Engine.Colour | engine.py:20-26 | The colour is black exactly when the count is at the cap or a multiple of 16. Red is a multiple of 32 and at most 224, green a multiple of 64 and at most 192, blue a multiple of 16 and at most 240. |
| Engine.ColourBands | engine.py:23-25 | Below the cap, two counts get the same colour exactly when they are equal mod 16, so the palette has 16 distinguishable bands. |
| Engine.BlackBandBelowCap | engine.py:20-26 | Count 16 under cap 25 is coloured (0, 0, 0) without having reached the cap. |
| Engine.Calculate | engine.py:1-26 | calculate returns the colour of EscapeTime. A non-black result means the loop stopped because abs(z) > 2 before the cap. Reaching the cap gives black. |
| Mapping.PixelToComplex | main.py:40-44 | The mapped point is (4x/w - 2, 4y/h - 2). |
| Mapping.PixelRoundTrip | main.py:40-44 | Mapping a pixel and mapping the point back gives the pixel, so the mapping is injective. |
| Mapping.CornerIsMinusTwo | main.py:40-44 | Pixel (0, 0) maps to -2 - 2i for any window. |
| Mapping.CentreIsOrigin | main.py:40-44 | For even width and height, pixel (w/2, h/2) maps to 0. |
| Mapping.PixelsInsideSquare | main.py:40-43 | Every pixel of the window maps into [-2, 2) on both axes. No aspect correction is applied. |
| Mapping.MappingIncreasing | main.py:40-43 | A larger x gives a larger real part whatever the rows, and a larger y gives a larger imaginary part whatever the columns. |
| Mapping.TestWindowValues | test_engine.py:17-23 | In a 640 x 480 window, (320, 240) maps to 0 and (0, 0) maps to -2 - 2i. |
| Raster.RenderPixel | cpu_demo.py:40-42 | One pixel of a CPU pass is the colour of the escape count of the mapped pixel. A non-black colour means that point escaped before the cap. |
| Raster.AdvanceIsSuccessor | main.py:52-55 | Advancing the cursor adds exactly the pixel under it to the pixels already passed, and keeps x in [0, width). From inside the row it moves one place along the row-major enumeration. |
| Raster.PrecedesIsIndexOrder | main.py:52-55 | Row-major order (x fastest, then y) is the order of the linear index y*width + x. |
| Raster.CursorBound | main.py:39-55 | A cursor inside the window is at most width*height places in. It is exactly width*height places in iff it has passed the last row. |
| Raster.WholeWindowBetween | main.py:39 | Every pixel of the window lies between the start cursor (0, 0) and the end cursor (0, height). |
| Raster.SetAt | benchmark.py:25 | set_at changes exactly pixel (x, y) when it lies on the surface, and nothing otherwise. |
| Raster.Fill | main.py:36 | fill makes every pixel of the surface the given colour. |
| Progressive.PassesUntilQuit | main.py:24-28 | The loop makes passes up to and including the first batch that holds Quit. |
| Progressive.OpenMainWindow | main.py:19-23 | The window is 800 x 600 with cap 25, and the cursor starts at (0, 0). |
| Progressive.OpenDemoWindow | cpu_demo.py:19-23 | The window is 640 x 480 with cap 25, and the cursor starts at (0, 0). |
| Progressive.ProgressiveRenderer.constructor | cpu_demo.py:22-23 | The renderer starts with the configured size, a black window of that size and the cursor at (0, 0). |
| Progressive.ProgressiveRenderer.OnResize | main.py:30-33 | A resize sets the new size, gives a fresh window of that size and resets the cursor to (0, 0). |
| Progressive.ProgressiveRenderer.OnRedraw | main.py:35-37 | The redraw key clears every pixel to black and resets the cursor to (0, 0). The size is unchanged. |
| Progressive.ProgressiveRenderer.Tick | main.py:39-55 | Above the last row, a tick writes the colour of pixel (x, y) there, changes no other pixel and advances the cursor row-major. Once y >= height it writes nothing and the cursor stays put. The invariant is kept. |
| Progressive.ProgressiveRenderer.HandleEvents | main.py:26-37 | The returned flag is true iff Quit is among the events. The size becomes the last resize's size. A resize or the redraw key leaves the cursor at (0, 0) over an all-black window. Otherwise nothing changes. |
| Progressive.ProgressiveRenderer.Pass | cpu_demo.py:25-49 | A pass handles the events and then ticks, including in the pass that saw Quit. If no event restarts the pass, it keeps the size and window, draws exactly the pixel under the cursor and advances the cursor, changing nothing else. After a resize or the redraw key it draws pixel (0, 0) of the new all-black window, every other pixel is black and the cursor has advanced one place from (0, 0). |
| Progressive.ProgressiveRenderer.Run | main.py:22-55 | The loop runs until the first batch with Quit. Call a batch quiet when it holds only events the loop ignores, such as mouse moves or other keys. Over k quiet batches the cursor's linear index goes from s to min(s + k, width*height), the size and window stay the same, and pixels past the cursor are untouched. From (0, 0), width*height quiet passes leave every pixel with its final colour and y = height. |
| Benchmark.HalfWidth | benchmark.py:44 | Half the width, floor division: 2*half <= width <= 2*half + 1. |
| Benchmark.BenchmarkHalves | benchmark.py:44-46 | The 1280-pixel window splits into two halves of 640 columns each. |
| Benchmark.GenerateCpuHalf | benchmark.py:13-30 | The loop stops at the first test where y >= height or the stop event is set, and the stop event was clear at every earlier test. Each step moves the cursor one place row-major. Exactly the pixels from the start cursor to the end cursor get their colours and all others keep their values. A start with 0 <= x < width keeps x in range. |
| Benchmark.DrawAndAdvance | benchmark.py:22-30 | One step writes the colour of pixel (x, y) there, changes nothing else and advances the cursor. |
| Benchmark.CpuHalf | benchmark.py:44-59 | The CPU half is a fresh 640 x 480 surface. After `steps` steps the first `steps` pixels in row-major order are drawn and the rest are black. Without cancellation all 640*480 pixels are drawn. |
| GpuRender.CreateImage | main_gpu.py:13-34 | The result is a fresh width x height surface whose pixel (x, y) is the colour of grid[y][x]. It requires a grid with at least height rows of at least width counts. |
| GpuRender.GridMatchesCpu | main_gpu.py:28-32 | When every grid cell holds the escape count of its mapped pixel, the colouring of the grid equals the CPU renderers' pixel colour at every pixel. |
| GpuRender.GpuViewer.constructor | main_gpu.py:48-51 | Start-up colours the first grid at the configured size. The image has that size and shows the grid. |
| GpuRender.GpuViewer.OnResize | main_gpu.py:58-67 | After a resize the rebuilt image has the new size and shows the new grid. |
| GpuRender.GpuViewer.OnRedraw | main_gpu.py:69-74 | The redraw key rebuilds the image at the current size from the new grid. |
| GpuRender.OpenGpuViewer | main_gpu.py:48-51 | Start-up builds a viewer at 800 x 600 with cap 25, whose image shows the first grid. |

## Left out

- Window and display plumbing is not modelled: `pygame.display.init`, `set_mode` beyond the fresh window it returns, `set_caption`, `display.flip`, `blit`, `transform.scale` and `pygame.quit`. The host's event queue is a sequence of `Event` batches, one batch per pass of the loop.
- `calculate_fractal_gpu` and `colorer_gpu` are CuPy kernels whose bodies are not part of this model. The grid they return is an input, required only to cover the image.
- `generate_gpu_half` in benchmark.py and the whole of gpu_demo.py are left out. They only call those kernels and blit the result.
- The threads, `join(timeout=1.0)` and the concurrent sharing of the window are left out. The stop event is the sequence of `is_set()` results seen by the loop.
- Python's complex arithmetic is IEEE double precision. The model computes exactly over the reals, so escape counts of points very near the boundary of the set may differ from the program's.
- `state.py` is a field-only record and is not modelled.
- Progressive.ProgressiveRenderer.OnResize: requires a positive size. This is an assumption about the host (`Progressive.ResizesPositive`), which reports only resizes to a positive size. With a height of 0 the loop at main.py:39 would simply never draw, and nothing would fail. With a width of 0 and a positive height the mapping at main.py:40 would raise ZeroDivisionError. The model represents neither case. The fresh window that `set_mode` returns is taken to be black.
- Progressive.ProgressiveRenderer.Run: the program loops until Quit. The model also stops when the supplied batches run out.
- GpuRender.GpuViewer.OnResize: the scaled copy of the old image shown while the new grid is computed is not modelled.
- GpuRender.GpuViewer.OnRedraw: the black fill of the window before the recompute is not modelled.
