/**
  The GPU renderer of main_gpu.py. The GPU computes a whole grid of escape
  counts at once (that kernel is not part of this model: its grid is an
  input here); create_image then colours the grid into a fresh surface,
  cell by cell, reading the grid as rows of columns, grid[y][x], and
  writing the surface as image[x, y].
 */
module GpuRender {
  import opened Engine
  import opened Mapping
  import opened Raster

  /** The configured window and iteration cap (main_gpu.py:9-10). */
  const Width := 800
  const Height := 600
  const Quality := 25

  /** The grid has at least height rows of at least width counts: every cell create_image reads exists. */
  predicate GridCovers(grid: seq<seq<int>>, width: int, height: int)
  {
    height <= |grid| && forall row :: 0 <= row < height ==> width <= |grid[row]|
  }

  /** The surface shows exactly the colouring of the grid, transposed. */
  ghost predicate ShowsGrid(image: array2<Rgb>, grid: seq<seq<int>>, maxIterations: int)
    reads image
  {
    && GridCovers(grid, image.Length0, image.Length1)
    && forall x, y :: 0 <= x < image.Length0 && 0 <= y < image.Length1 ==>
         image[x, y] == Colour(grid[y][x], maxIterations)
  }

  /** create_image: a fresh width x height surface whose pixel (x, y) is the colour of grid[y][x]. */
  method CreateImage(width: nat, height: nat, grid: seq<seq<int>>, maxIterations: int) returns (image: array2<Rgb>)
    requires GridCovers(grid, width, height)
    ensures fresh(image)
    ensures image.Length0 == width && image.Length1 == height
    ensures forall x, y :: 0 <= x < width && 0 <= y < height ==> image[x, y] == Colour(grid[y][x], maxIterations)
  {
    image := new Rgb[width, height]((i, j) => Black);
    for x := 0 to width
      invariant forall i, j :: 0 <= i < x && 0 <= j < height ==> image[i, j] == Colour(grid[j][i], maxIterations)
    {
      for y := 0 to height
        invariant forall i, j :: 0 <= i < x && 0 <= j < height ==> image[i, j] == Colour(grid[j][i], maxIterations)
        invariant forall j :: 0 <= j < y ==> image[x, j] == Colour(grid[j][x], maxIterations)
      {
        var pixelIterations := grid[y][x];
        image[x, y] := Colour(pixelIterations, maxIterations);
      }
    }
  }

  /**
    When the GPU's grid holds the escape count of every mapped pixel, the
    colouring of that grid is pixel for pixel what the CPU renderers draw.
   */
  lemma GridMatchesCpu(grid: seq<seq<int>>, width: int, height: int, quality: int)
    requires width > 0 && height > 0 && GridCovers(grid, width, height)
    requires forall x, y :: 0 <= x < width && 0 <= y < height ==>
      grid[y][x] == EscapeTime(PixelToComplex(x, y, width, height), quality)
    ensures forall x, y :: 0 <= x < width && 0 <= y < height ==>
      Colour(grid[y][x], quality) == PixelColour(x, y, width, height, quality)
  {
  }

  /** The state of main_gpu.py's main: the current size, the last grid and the image made from it. */
  class GpuViewer {
    var width: nat
    var height: nat
    const quality: int
    var grid: seq<seq<int>>
    var image: array2<Rgb>

    /** The image has the current size and shows the current grid. */
    ghost predicate Valid()
      reads this, image
    {
      image.Length0 == width && image.Length1 == height && ShowsGrid(image, grid, quality)
    }

    /** Start-up: colour the first grid at the configured size. */
    constructor (initialWidth: nat, initialHeight: nat, iterationCap: int, firstGrid: seq<seq<int>>)
      requires GridCovers(firstGrid, initialWidth, initialHeight)
      ensures Valid() && fresh(image)
      ensures width == initialWidth && height == initialHeight && quality == iterationCap && grid == firstGrid
    {
      var firstImage := CreateImage(initialWidth, initialHeight, firstGrid, iterationCap);
      width, height, quality, grid, image := initialWidth, initialHeight, iterationCap, firstGrid, firstImage;
    }

    /** A resize: take the new size and rebuild the image from the grid the GPU computed for it. */
    method OnResize(newWidth: nat, newHeight: nat, newGrid: seq<seq<int>>)
      requires GridCovers(newGrid, newWidth, newHeight)
      modifies this
      ensures Valid() && fresh(image)
      ensures width == newWidth && height == newHeight && grid == newGrid
    {
      width, height, grid := newWidth, newHeight, newGrid;
      image := CreateImage(newWidth, newHeight, newGrid, quality);
    }

    /** The redraw key: rebuild the image at the current size from a freshly computed grid. */
    method OnRedraw(newGrid: seq<seq<int>>)
      requires GridCovers(newGrid, width, height)
      modifies this`grid, this`image
      ensures Valid() && fresh(image)
      ensures grid == newGrid
    {
      grid := newGrid;
      image := CreateImage(width, height, newGrid, quality);
    }
  }

  /** main_gpu.py's start-up: the first grid, computed for an 800 x 600 window with cap 25, coloured into the image. */
  method OpenGpuViewer(firstGrid: seq<seq<int>>) returns (viewer: GpuViewer)
    requires GridCovers(firstGrid, Width, Height)
    ensures fresh(viewer) && viewer.Valid()
    ensures viewer.width == Width && viewer.height == Height && viewer.quality == Quality
    ensures viewer.grid == firstGrid
  {
    viewer := new GpuViewer(Width, Height, Quality, firstGrid);
  }
}
