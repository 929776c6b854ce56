/**
 * The debug cross: a flat row-major RGBA float buffer of width*height*4 zeros on
 * which a horizontal and a vertical bar around the light-source pixel are painted
 * with a fixed colour. Both bars are half-open windows clipped to the image.
 */
module ImageProcessing {
  import opened Raster

  /** Colour written into the four channels of every cross pixel. */
  const CrossColor: seq<real> := [2.0, 0.0, 2.0, 1.0]
  /** Half-height of the horizontal bar and half-width of the vertical bar. */
  const Thickness: int := 1
  /** Half-length of both bars. */
  const Length: int := 10

  function Max(a: int, b: int): int { if a < b then b else a }
  function Min(a: int, b: int): int { if a < b then a else b }

  /** The half-open pixel window [x0, x1) x [y0, y1). */
  datatype Window = Window(x0: int, x1: int, y0: int, y1: int) {
    predicate Contains(x: int, y: int) {
      x0 <= x < x1 && y0 <= y < y1
    }
  }

  function HorizontalBar(cx: int, cy: int): Window {
    Window(cx - Length, cx + Length, cy - Thickness, cy + Thickness)
  }

  function VerticalBar(cx: int, cy: int): Window {
    Window(cx - Thickness, cx + Thickness, cy - Length, cy + Length)
  }

  predicate OnCross(cx: int, cy: int, x: int, y: int) {
    HorizontalBar(cx, cy).Contains(x, y) || VerticalBar(cx, cy).Contains(x, y)
  }

  /** The window cut down to a width x height image: the ranges the two loops run over. */
  function Clamped(win: Window, width: nat, height: nat): (r: Window)
    ensures forall x, y :: r.Contains(x, y) <==> win.Contains(x, y) && 0 <= x < width && 0 <= y < height
  {
    Window(Max(win.x0, 0), Min(win.x1, width), Max(win.y0, 0), Min(win.y1, height))
  }

  /** Whether buffer slot i of a width-wide image belongs to a pixel inside win. */
  predicate Covers(win: Window, width: nat, i: nat) {
    width > 0 && win.Contains(Column(width, i / Channels), Row(width, i / Channels))
  }

  function Blank(n: nat): seq<real> {
    seq(n, _ => 0.0)
  }

  /** s with every pixel inside win set to the cross colour, every other slot kept. */
  function Painted(s: seq<real>, width: nat, win: Window): (r: seq<real>)
    ensures |r| == |s|
  {
    seq(|s|, i requires 0 <= i < |s| => if Covers(win, width, i) then CrossColor[i % Channels] else s[i])
  }

  /** The whole debug image: cross colour on the two bars, 0.0 everywhere else. */
  function CrossImage(width: nat, height: nat, cx: int, cy: int): (r: seq<real>)
    ensures |r| == width * height * Channels
  {
    seq(width * height * Channels, i requires 0 <= i < width * height * Channels =>
      if width > 0 && OnCross(cx, cy, Column(width, i / Channels), Row(width, i / Channels))
      then CrossColor[i % Channels] else 0.0)
  }

  /** Slot i belongs to pixel (x, y) exactly when i / 4 is that pixel's number. */
  lemma SlotOfPixel(width: nat, height: nat, i: nat, x: nat, y: nat)
    requires i < width * height * Channels && x < width
    ensures width > 0
    ensures Column(width, i / Channels) == x && Row(width, i / Channels) == y
            <==> i / Channels == PixelNumber(width, x, y)
  {
    PixelNumberOfCoordinates(width, height, i / Channels);
    CoordinatesOfPixelNumber(width, x, y);
  }

  /**
   * Pixel (x, y) of the debug image holds the cross colour in its four slots when it lies
   * on one of the two bars, and 0.0 in all four otherwise.
   */
  lemma {:induction false} CrossImageAt(width: nat, height: nat, cx: int, cy: int, x: nat, y: nat, c: nat)
    requires x < width && y < height && c < Channels
    ensures ChannelIndex(width, x, y, c) < |CrossImage(width, height, cx, cy)|
    ensures CrossImage(width, height, cx, cy)[ChannelIndex(width, x, y, c)]
            == if OnCross(cx, cy, x, y) then CrossColor[c] else 0.0
  {
    ChannelIndexBound(width, height, x, y, c);
    CoordinatesOfPixelNumber(width, x, y);
  }

  /**
   * Both windows are half-open: nothing in column cx + Length or row cy + Length is painted,
   * the horizontal bar stops before row cy + Thickness and the vertical bar before column
   * cx + Thickness.
   */
  lemma {:induction false} CrossFarEdgesBlank(width: nat, height: nat, cx: int, cy: int, x: nat, y: nat, c: nat)
    requires x < width && y < height && c < Channels
    requires x == cx + Length || y == cy + Length
    ensures ChannelIndex(width, x, y, c) < |CrossImage(width, height, cx, cy)|
    ensures CrossImage(width, height, cx, cy)[ChannelIndex(width, x, y, c)] == 0.0
    ensures !HorizontalBar(cx, cy).Contains(x, cy + Thickness)
    ensures !VerticalBar(cx, cy).Contains(cx + Thickness, y)
  {
    assert !OnCross(cx, cy, x, y);
    CrossImageAt(width, height, cx, cy, x, y, c);
  }

  /** Painting two windows with the same colour gives the same buffer in either order. */
  lemma {:induction false} PaintedCommutes(s: seq<real>, width: nat, a: Window, b: Window)
    ensures Painted(Painted(s, width, a), width, b) == Painted(Painted(s, width, b), width, a)
  {
    var ab, ba := Painted(Painted(s, width, a), width, b), Painted(Painted(s, width, b), width, a);
    forall i | 0 <= i < |s| ensures ab[i] == ba[i] {
    }
  }

  /**
   * Painting the horizontal bar and then the vertical bar onto a blank buffer yields
   * exactly the debug image, so the slots painted twice where the bars cross end up the
   * same whichever loop runs first.
   */
  lemma {:induction false} CrossIsBothBars(width: nat, height: nat, cx: int, cy: int)
    ensures Painted(Painted(Blank(width * height * Channels), width, HorizontalBar(cx, cy)), width, VerticalBar(cx, cy))
            == CrossImage(width, height, cx, cy)
    ensures Painted(Painted(Blank(width * height * Channels), width, VerticalBar(cx, cy)), width, HorizontalBar(cx, cy))
            == CrossImage(width, height, cx, cy)
  {
    var n := width * height * Channels;
    var hv := Painted(Painted(Blank(n), width, HorizontalBar(cx, cy)), width, VerticalBar(cx, cy));
    var cross := CrossImage(width, height, cx, cy);
    forall i | 0 <= i < n ensures hv[i] == cross[i] {
    }
    PaintedCommutes(Blank(n), width, HorizontalBar(cx, cy), VerticalBar(cx, cy));
  }

  /** Slot i is already painted once the loops have reached row y, column x of the clamped window. */
  ghost predicate DoneBefore(win: Window, width: nat, i: nat, y: int, x: int) {
    Covers(win, width, i) &&
    (Row(width, i / Channels) < y || (Row(width, i / Channels) == y && Column(width, i / Channels) < x))
  }

  /**
   * One of the two bar loops: visits rows and columns of the window clamped to the image
   * and writes the cross colour into the four slots of each pixel it visits.
   */
  method PaintWindow(buffer: array<real>, width: nat, height: nat, win: Window)
    requires buffer.Length == width * height * Channels
    modifies buffer
    ensures buffer[..] == Painted(old(buffer[..]), width, win)
  {
    var cl := Clamped(win, width, height);
    var y := cl.y0;
    while y < cl.y1
      invariant cl.y0 <= y && (cl.y0 <= cl.y1 ==> y <= cl.y1)
      invariant forall i :: 0 <= i < buffer.Length ==>
                  buffer[i] == if DoneBefore(cl, width, i, y, cl.x0) then CrossColor[i % Channels] else old(buffer[i])
    {
      var x := cl.x0;
      while x < cl.x1
        invariant cl.x0 <= x && (cl.x0 <= cl.x1 ==> x <= cl.x1)
        invariant forall i :: 0 <= i < buffer.Length ==>
                    buffer[i] == if DoneBefore(cl, width, i, y, x) then CrossColor[i % Channels] else old(buffer[i])
      {
        ChannelIndexBound(width, height, x, y, Channels - 1);
        var index := ChannelIndex(width, x, y, 0);
        forall k | 0 <= k < Channels {
          buffer[index + k] := CrossColor[k];
        }
        forall i | 0 <= i < buffer.Length
          ensures buffer[i] == if DoneBefore(cl, width, i, y, x + 1) then CrossColor[i % Channels] else old(buffer[i])
        {
          SlotOfPixel(width, height, i, x, y);
        }
        x := x + 1;
      }
      y := y + 1;
    }
    forall i | 0 <= i < buffer.Length
      ensures buffer[i] == Painted(old(buffer[..]), width, win)[i]
    {
      PixelNumberOfCoordinates(width, height, i / Channels);
    }
  }

  /**
   * The debug cross as the render operator hands it to the image: a zeroed buffer with
   * both bars painted on it.
   */
  method DrawDebugCross(width: nat, height: nat, cx: int, cy: int) returns (pixels: seq<real>)
    ensures pixels == CrossImage(width, height, cx, cy)
  {
    var buffer := new real[width * height * Channels](_ => 0.0);
    assert buffer[..] == Blank(buffer.Length);
    PaintWindow(buffer, width, height, HorizontalBar(cx, cy));
    PaintWindow(buffer, width, height, VerticalBar(cx, cy));
    pixels := buffer[..];
    CrossIsBothBars(width, height, cx, cy);
  }
}
