/** The pixel buffers the metrics read: the RGBA bytes of an image drawn onto a
    256 x 256 canvas, four samples per pixel, row by row. */
module Grids {

  /** One colour sample of the canvas buffer (a clamped unsigned byte). */
  type Byte = b: int | 0 <= b < 256

  /** A pixel buffer: red, green, blue and alpha samples, pixel after pixel. */
  type Grid = seq<Byte>

  /** Every image is resampled onto a canvas of this width and height. */
  const Side: nat := 256

  /** Samples per pixel: red, green, blue, alpha. */
  const Channels: nat := 4

  /** The length of every buffer the loader hands to the metrics. */
  const GridBytes: nat := Side * Side * Channels

  /** The buffer holds whole pixels, so offsets `i + 1` and `i + 2` of every
      pixel offset `i` are in range. */
  predicate WholePixels(g: Grid) {
    |g| % Channels == 0
  }

  /** The buffer has the size of the 256 x 256 canvas. */
  predicate IsCanvasGrid(g: Grid) {
    |g| == GridBytes
  }

  /** Every pixel of `g` has colour (`r`, `gr`, `b`); alpha is free. */
  ghost predicate SolidColour(g: Grid, r: Byte, gr: Byte, b: Byte) {
    forall i :: 0 <= i < |g| ==>
      (i % 4 == 0 ==> g[i] == r) && (i % 4 == 1 ==> g[i] == gr) && (i % 4 == 2 ==> g[i] == b)
  }

  /** The pixel at offset `i` of a single-colour buffer has that colour. */
  lemma SolidColourAt(g: Grid, r: Byte, gr: Byte, b: Byte, i: nat)
    requires SolidColour(g, r, gr, b)
    requires i % 4 == 0 && i + 2 < |g|
    ensures g[i] == r && g[i + 1] == gr && g[i + 2] == b
  {
    assert (i + 1) % 4 == 1 && (i + 2) % 4 == 2;
  }

  /** Two buffers of the same length that differ at most in alpha samples. */
  ghost predicate SameColours(g: Grid, h: Grid) {
    |g| == |h| && forall i :: 0 <= i < |g| && i % 4 != 3 ==> g[i] == h[i]
  }

  function Min(a: int, b: int): int {
    if a <= b then a else b
  }

  function Max(a: int, b: int): int {
    if a <= b then b else a
  }

  function MaxReal(a: real, b: real): real {
    if a <= b then b else a
  }

  function MinReal(a: real, b: real): real {
    if a <= b then a else b
  }
}
