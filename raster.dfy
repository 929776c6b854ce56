/**
 * Row-major RGBA buffer addressing shared by the debug-cross rasteriser and the
 * CPU render loop: pixel (x, y) of a `width`-wide image is pixel number
 * x + y * width, and its four float channels sit at 4 * that number + c.
 */
module Raster {

  /** Channels per pixel (R, G, B, A). */
  const Channels: nat := 4

  function PixelNumber(width: nat, x: nat, y: nat): nat {
    x + y * width
  }

  function Column(width: nat, p: nat): nat
    requires width > 0
  {
    p % width
  }

  function Row(width: nat, p: nat): nat
    requires width > 0
  {
    p / width
  }

  /** Index of channel c of pixel (x, y) in the flat float buffer. */
  function ChannelIndex(width: nat, x: nat, y: nat, c: nat): nat {
    PixelNumber(width, x, y) * Channels + c
  }

  lemma MulLeftMonotonic(a: int, b: int, n: nat)
    requires a <= b
    ensures a * n <= b * n
  {
  }

  /** A pixel inside a width x height image has a pixel number inside the image. */
  lemma {:induction false} PixelNumberBound(width: nat, height: nat, x: nat, y: nat)
    requires x < width && y < height
    ensures PixelNumber(width, x, y) < width * height
  {
    MulLeftMonotonic(y, height - 1, width);
    assert (height - 1) * width == height * width - width;
  }

  /** Pixel number to coordinates and back: (x, y) is recovered from x + y * width. */
  lemma {:induction false} CoordinatesOfPixelNumber(width: nat, x: nat, y: nat)
    requires x < width
    ensures Column(width, PixelNumber(width, x, y)) == x
    ensures Row(width, PixelNumber(width, x, y)) == y
  {
    var p := PixelNumber(width, x, y);
    var q, r := p / width, p % width;
    assert p == q * width + r;
    if q < y {
      MulLeftMonotonic(q + 1, y, width);
      assert false;
    } else if q > y {
      MulLeftMonotonic(y + 1, q, width);
      assert false;
    }
  }

  /** Coordinates to pixel number and back: every pixel number of the image is x + y * width of its column and row. */
  lemma {:induction false} PixelNumberOfCoordinates(width: nat, height: nat, p: nat)
    requires p < width * height
    ensures width > 0
    ensures Column(width, p) < width && Row(width, p) < height
    ensures PixelNumber(width, Column(width, p), Row(width, p)) == p
  {
    var q, r := p / width, p % width;
    assert p == q * width + r;
    if q >= height {
      MulLeftMonotonic(height, q, width);
      assert false;
    }
  }

  /**
   * Visiting pixel numbers 0 .. width*height-1 and mapping each to (p % width, p / width)
   * visits every pixel of the image exactly once: the map is a bijection onto the
   * width x height grid.
   */
  lemma RowMajorBijection(width: nat, height: nat)
    ensures forall p :: 0 <= p < width * height ==>
              width > 0 && Column(width, p) < width && Row(width, p) < height &&
              PixelNumber(width, Column(width, p), Row(width, p)) == p
    ensures forall x, y :: 0 <= x < width && 0 <= y < height ==>
              PixelNumber(width, x, y) < width * height &&
              Column(width, PixelNumber(width, x, y)) == x && Row(width, PixelNumber(width, x, y)) == y
  {
    forall p | 0 <= p < width * height
      ensures width > 0 && Column(width, p) < width && Row(width, p) < height
      ensures PixelNumber(width, Column(width, p), Row(width, p)) == p
    {
      PixelNumberOfCoordinates(width, height, p);
    }
    forall x, y | 0 <= x < width && 0 <= y < height
      ensures PixelNumber(width, x, y) < width * height
      ensures Column(width, PixelNumber(width, x, y)) == x && Row(width, PixelNumber(width, x, y)) == y
    {
      PixelNumberBound(width, height, x, y);
      CoordinatesOfPixelNumber(width, x, y);
    }
  }

  /** Channel c of pixel (x, y) of a width x height image lies inside its width*height*4 buffer. */
  lemma ChannelIndexBound(width: nat, height: nat, x: nat, y: nat, c: nat)
    requires x < width && y < height && c < Channels
    ensures ChannelIndex(width, x, y, c) < width * height * Channels
  {
    PixelNumberBound(width, height, x, y);
  }
}
