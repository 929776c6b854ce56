/**
 * The three operators of the add-on: add a ghost, remove a ghost by index, and render
 * the lens flare into the selected image. Rendering first picks the aperture settings
 * (the override or the scene camera), cancels when that fails or no image is selected,
 * then either draws the debug cross or runs the CPU loop over every pixel.
 */
module Operators {
  import opened Raster
  import opened ImageProcessing
  import opened Properties
  import Ogl

  /** What an operator's execute returns to Blender. */
  datatype Status = Finished | Cancelled

  /** An operator either returns a status or lets an exception escape. */
  datatype Outcome = Returned(status: Status) | Raised(error: string)

  datatype Result<T> = Success(value: T) | Failure(error: string)

  const NoCameraMessage: string := "No camera is active"
  const NoImageMessage: string := "No image selected"
  const InvalidGhostMessage: string := "Invalid ID of ghost to delete"
  /** Python's message when an integer is divided by zero. */
  const DivisionByZeroMessage: string := "division by zero"
  /**
   * Stands for the error the ghosts collection raises when asked to remove an index it
   * does not hold. The text is a placeholder, not Blender's own wording.
   */
  const NoSuchGhostMessage: string := "bpy_prop_collection.remove(): not found"

  /* ------------------------------------------------------------ add / remove */

  /** Appends one ghost holding the declared defaults. */
  method AddGhost(props: LensFlareProperties) returns (status: Status)
    modifies props`ghosts
    ensures props.ghosts == old(props.ghosts) + [DefaultGhost]
    ensures status == Finished
  {
    props.ghosts := props.ghosts + [DefaultGhost];
    status := Finished;
  }

  /** The list without its element at index i. */
  function Removed(gs: seq<GhostSettings>, i: nat): (r: seq<GhostSettings>)
    requires i < |gs|
    ensures |r| == |gs| - 1
    ensures forall k :: 0 <= k < i ==> r[k] == gs[k]
    ensures forall k :: i <= k < |r| ==> r[k] == gs[k + 1]
    ensures multiset(r) + multiset{gs[i]} == multiset(gs)
  {
    assert gs == gs[..i] + [gs[i]] + gs[i + 1..];
    gs[..i] + gs[i + 1..]
  }

  /** The outcome of removing index id from a list of n ghosts, and the message reported with it. */
  function RemoveOutcome(n: nat, id: int): (r: (Outcome, Option<string>))
    ensures r.0 == Returned(Finished) <==> 0 <= id < n
    ensures r.0 == Returned(Cancelled) <==> id == -1
    ensures r.0.Raised? <==> id != -1 && !(0 <= id < n)
    ensures r.1.Some? <==> id == -1
    ensures id == -1 ==> r.1 == Some(InvalidGhostMessage)
  {
    if id == -1 then (Returned(Cancelled), Some(InvalidGhostMessage))
    else if 0 <= id < n then (Returned(Finished), None)
    else (Raised(NoSuchGhostMessage), None)
  }

  /**
   * Removes the ghost at index id. The default id -1 is rejected with a report; an index
   * outside the list makes the collection raise; in both cases the list is unchanged.
   */
  method RemoveGhost(props: LensFlareProperties, id: int) returns (outcome: Outcome, report: Option<string>)
    modifies props`ghosts
    ensures (outcome, report) == RemoveOutcome(|old(props.ghosts)|, id)
    ensures 0 <= id < |old(props.ghosts)| ==> props.ghosts == Removed(old(props.ghosts), id)
    ensures !(0 <= id < |old(props.ghosts)|) ==> props.ghosts == old(props.ghosts)
  {
    if id == -1 {
      return Returned(Cancelled), Some(InvalidGhostMessage);
    }
    if !(0 <= id < |props.ghosts|) {
      return Raised(NoSuchGhostMessage), None;
    }
    props.ghosts := props.ghosts[..id] + props.ghosts[id + 1..];
    outcome, report := Returned(Finished), None;
  }

  /** Removing the ghost just added gives back the list as it was. */
  lemma AddThenRemoveLast(gs: seq<GhostSettings>)
    ensures Removed(gs + [DefaultGhost], |gs|) == gs
  {
    assert (gs + [DefaultGhost])[..|gs|] == gs;
  }

  /* ------------------------------------------------------------ camera settings */

  /** The aperture of the scene's active camera, as its camera data reports it. */
  datatype CameraDof = CameraDof(apertureBlades: int, apertureRotation: real)

  /**
   * The aperture blade count and rotation to render with: the group's own values when
   * the override is on, otherwise the active camera's, failing when there is none.
   */
  function CameraChoice(useOverride: bool, blades: int, rotation: real, active: Option<CameraDof>): Result<(int, real)> {
    if !useOverride then
      if active.None? then Failure(NoCameraMessage)
      else Success((active.value.apertureBlades, active.value.apertureRotation))
    else
      Success((blades, rotation))
  }

  /**
   * With the override on the scene camera is never consulted; with it off the group's
   * blades and rotation are ignored. Only a missing camera without override fails.
   */
  lemma CameraChoiceSources(useOverride: bool, blades: int, rotation: real, active: Option<CameraDof>,
                            blades': int, rotation': real, active': Option<CameraDof>)
    ensures useOverride ==> CameraChoice(true, blades, rotation, active) == CameraChoice(true, blades, rotation, active')
                            == Success((blades, rotation))
    ensures !useOverride ==> CameraChoice(false, blades, rotation, active) == CameraChoice(false, blades', rotation', active)
    ensures CameraChoice(useOverride, blades, rotation, active).Failure? <==> !useOverride && active.None?
    ensures CameraChoice(useOverride, blades, rotation, active).Failure? ==>
              CameraChoice(useOverride, blades, rotation, active).error == NoCameraMessage
  {
  }

  /**
   * Reads the aperture settings. Reading the group's blades goes through the getter, which
   * stores 0 in an absent slot; the camera branch leaves the slot alone.
   */
  method CameraSettings(props: LensFlareProperties, active: Option<CameraDof>) returns (r: Result<(int, real)>)
    modifies props`bladesSlot
    ensures r == CameraChoice(props.useOverride, StoredBlades(old(props.bladesSlot)), props.rotation, active)
    ensures props.useOverride ==> props.bladesSlot == Some(StoredBlades(old(props.bladesSlot)))
    ensures !props.useOverride ==> props.bladesSlot == old(props.bladesSlot)
  {
    if !props.useOverride {
      if active.None? {
        return Failure(NoCameraMessage);
      }
      return Success((active.value.apertureBlades, active.value.apertureRotation));
    }
    var blades := props.GetBlades();
    r := Success((blades, props.rotation));
  }

  /* ------------------------------------------------------------ debug cross centre */

  /** Python's int() of a float: the integer part, rounding toward zero. */
  function Trunc(r: real): (t: int)
    ensures r >= 0.0 ==> 0.0 <= r - t as real < 1.0
    ensures r < 0.0 ==> 0.0 <= t as real - r < 1.0
  {
    if r >= 0.0 then r.Floor else -((-r).Floor)
  }

  /** The debug cross's centre pixel: the normalised position scaled to the image, truncated. */
  function CrossCenter(size: nat, pos: real): int {
    Trunc(size as real * pos)
  }

  /* ------------------------------------------------------------ CPU render loop */

  /** What the CPU loop reads from the property group. */
  datatype RenderInputs = RenderInputs(
    posx: real,
    posy: real,
    flareColor: Rgb,
    flareIntensity: real,
    ghosts: seq<GhostSettings>)

  function Scale(c: Rgb, s: real): Rgb {
    Rgb(c.r * s, c.g * s, c.b * s)
  }

  function Plus(a: Rgb, b: Rgb): Rgb {
    Rgb(a.r + b.r, a.g + b.g, a.b + b.b)
  }

  const NoLight: Rgb := Rgb(0.0, 0.0, 0.0)

  /** A ghost's centre along one axis: the image centre moved toward the flare by `offset` of the way. */
  function GhostCenter(center: real, flare: real, offset: real): real {
    center + (flare - center) * offset
  }

  /** A ghost's coverage of a pixel at squared distance d2: size * 100 - d2, clamped to [0, 1]. */
  function Coverage(size: real, d2: real): (v: real)
    ensures 0.0 <= v <= 1.0
    ensures d2 <= size * 100.0 - 1.0 ==> v == 1.0
    ensures d2 >= size * 100.0 ==> v == 0.0
    ensures size * 100.0 - 1.0 < d2 < size * 100.0 ==> v == size * 100.0 - d2
  {
    var raw := size * 100.0 - d2;
    var low := if raw > 0.0 then raw else 0.0;
    if low < 1.0 then low else 1.0
  }

  /** Image centre and flare position in pixel coordinates, fixed for one run of the loop. */
  datatype Frame = Frame(centerX: real, centerY: real, flareX: real, flareY: real)

  function FrameOf(w: nat, h: nat, inp: RenderInputs): Frame {
    Frame(w as real / 2.0, h as real / 2.0, inp.posx * w as real, inp.posy * h as real)
  }

  /** Squared distance from pixel (x, y) to the ghost's centre. */
  function GhostDistance2(g: GhostSettings, f: Frame, x: real, y: real): real {
    var gx := GhostCenter(f.centerX, f.flareX, g.offset);
    var gy := GhostCenter(f.centerY, f.flareY, g.offset);
    (x - gx) * (x - gx) + (y - gy) * (y - gy)
  }

  /** The light one ghost adds to pixel (x, y): its colour times its coverage there. */
  function GhostContribution(g: GhostSettings, f: Frame, x: real, y: real): Rgb {
    Scale(g.color, Coverage(g.size, GhostDistance2(g, f, x, y)))
  }

  /** The light the ghosts gs add to pixel (x, y), accumulated in list order. */
  function GhostLight(gs: seq<GhostSettings>, f: Frame, x: real, y: real): Rgb
    decreases |gs|
  {
    if gs == [] then NoLight
    else Plus(GhostLight(gs[..|gs| - 1], f, x, y), GhostContribution(gs[|gs| - 1], f, x, y))
  }

  /** RGB of pixel (x, y): the flare colour times the flare value and intensity, plus every ghost's light. */
  function PixelLight(w: nat, h: nat, inp: RenderInputs, flare: (nat, nat) -> real, x: nat, y: nat): Rgb {
    Plus(Scale(Scale(inp.flareColor, flare(x, y)), inp.flareIntensity),
         GhostLight(inp.ghosts, FrameOf(w, h, inp), x as real, y as real))
  }

  /** Channel c of a pixel whose colour is rgb; the alpha channel keeps the fill value 1.0. */
  function Channel(rgb: Rgb, c: nat): real {
    if c == 0 then rgb.r else if c == 1 then rgb.g else if c == 2 then rgb.b else 1.0
  }

  /** The flat row-major buffer the CPU loop hands to the image. */
  function CpuImage(w: nat, h: nat, inp: RenderInputs, flare: (nat, nat) -> real): (r: seq<real>)
    ensures |r| == w * h * Channels
  {
    seq(w * h * Channels, j requires 0 <= j < w * h * Channels =>
      if w == 0 then 1.0
      else Channel(PixelLight(w, h, inp, flare, Column(w, j / Channels), Row(w, j / Channels)), j % Channels))
  }

  /** Ghosts that lie too far from a pixel to cover it add no light there. */
  lemma {:induction false} GhostLightFar(gs: seq<GhostSettings>, f: Frame, x: real, y: real)
    requires forall k :: 0 <= k < |gs| ==> GhostDistance2(gs[k], f, x, y) >= gs[k].size * 100.0
    ensures GhostLight(gs, f, x, y) == NoLight
    decreases |gs|
  {
    if gs != [] {
      var init, g := gs[..|gs| - 1], gs[|gs| - 1];
      assert forall k :: 0 <= k < |init| ==> init[k] == gs[k];
      GhostLightFar(init, f, x, y);
      assert Coverage(g.size, GhostDistance2(g, f, x, y)) == 0.0;
      assert GhostContribution(g, f, x, y) == NoLight;
    }
  }

  /** Maps a clip-space coordinate in [-1, 1] to a pixel coordinate in [0, size]. */
  function ClipToPixel(size: real, clip: real): real {
    size * (clip + 1.0) / 2.0
  }

  /** The CPU ghost centre along one axis: the flare's clip coordinate scaled by offset, mapped back to pixels. */
  lemma CpuGhostCenterAxis(size: real, pos: real, offset: real)
    ensures GhostCenter(size / 2.0, pos * size, offset) == ClipToPixel(size, (pos - 0.5) * 2.0 * offset)
  {
    calc {
      GhostCenter(size / 2.0, pos * size, offset);
      size / 2.0 + (pos * size - size / 2.0) * offset;
      { assert pos * size - size / 2.0 == size * (pos - 0.5); }
      size / 2.0 + (size * (pos - 0.5)) * offset;
      size * ((pos - 0.5) * 2.0 * offset + 1.0) / 2.0;
    }
  }

  /**
   * A ghost's centre moves linearly from the image centre (offset 0) to the flare
   * (offset 1). It is the OpenGL renderer's clip-space ghost position without
   * perpendicular offset, mapped back to pixels, so both renderers place ghosts alike.
   */
  lemma GhostCenterInterpolates(w: nat, h: nat, inp: RenderInputs, offset: real, axis: Ogl.Vec2)
    ensures var f := FrameOf(w, h, inp);
      && GhostCenter(f.centerX, f.flareX, 0.0) == f.centerX
      && GhostCenter(f.centerX, f.flareX, 1.0) == f.flareX
      && GhostCenter(f.centerY, f.flareY, 0.0) == f.centerY
      && GhostCenter(f.centerY, f.flareY, 1.0) == f.flareY
    ensures var f := FrameOf(w, h, inp);
      var clip := Ogl.GhostPosition(inp.posx, inp.posy, axis, offset, 0.0);
      && GhostCenter(f.centerX, f.flareX, offset) == ClipToPixel(w as real, clip.x)
      && GhostCenter(f.centerY, f.flareY, offset) == ClipToPixel(h as real, clip.y)
  {
    var clip := Ogl.GhostPosition(inp.posx, inp.posy, axis, offset, 0.0);
    CpuGhostCenterAxis(w as real, inp.posx, offset);
    CpuGhostCenterAxis(h as real, inp.posy, offset);
    assert clip.x == (inp.posx - 0.5) * 2.0 * offset;
    assert clip.y == (inp.posy - 0.5) * 2.0 * offset;
  }

  /**
   * Slot c of pixel (x, y) in the CPU image holds that pixel's colour channel; alpha is
   * the fill value 1.0.
   */
  lemma {:induction false} CpuImageAt(w: nat, h: nat, inp: RenderInputs, flare: (nat, nat) -> real, x: nat, y: nat, c: nat)
    requires x < w && y < h && c < Channels
    ensures ChannelIndex(w, x, y, c) < |CpuImage(w, h, inp, flare)|
    ensures CpuImage(w, h, inp, flare)[ChannelIndex(w, x, y, c)] == Channel(PixelLight(w, h, inp, flare, x, y), c)
    ensures c == 3 ==> CpuImage(w, h, inp, flare)[ChannelIndex(w, x, y, c)] == 1.0
  {
    ChannelIndexBound(w, h, x, y, c);
    CoordinatesOfPixelNumber(w, x, y);
  }

  /** The four slots of buffer pixel i of the CPU image: the channels of pixel (i % max_x, i // max_x). */
  lemma CpuImagePixel(w: nat, h: nat, inp: RenderInputs, flare: (nat, nat) -> real, i: nat)
    requires i < w * h
    ensures w > 0 && (i + 1) * Channels <= |CpuImage(w, h, inp, flare)|
    ensures forall j :: 0 <= j < |CpuImage(w, h, inp, flare)| && j / Channels == i ==>
              CpuImage(w, h, inp, flare)[j] == Channel(PixelLight(w, h, inp, flare, i % w, i / w), j % Channels)
  {
    assert (i + 1) * Channels <= w * h * Channels;
  }

  /** The inner loop: adds each ghost's light to the pixel's flare colour, in list order. */
  method AddGhostLight(base: Rgb, gs: seq<GhostSettings>, f: Frame, x: real, y: real) returns (c: Rgb)
    ensures c == Plus(base, GhostLight(gs, f, x, y))
  {
    var red, green, blue := base.r, base.g, base.b;
    var k := 0;
    while k < |gs|
      invariant 0 <= k <= |gs|
      invariant Rgb(red, green, blue) == Plus(base, GhostLight(gs[..k], f, x, y))
    {
      var light := GhostContribution(gs[k], f, x, y);
      red, green, blue := red + light.r, green + light.g, blue + light.b;
      assert gs[..k + 1][..k] == gs[..k];
      k := k + 1;
    }
    assert gs[..k] == gs;
    c := Rgb(red, green, blue);
  }

  /** The colour of pixel (x, y): the flare's contribution, then each ghost's added in list order. */
  method ShadeColor(w: nat, h: nat, inp: RenderInputs, flare: (nat, nat) -> real, f: Frame, x: nat, y: nat) returns (rgb: Rgb)
    requires f == FrameOf(w, h, inp)
    ensures rgb == PixelLight(w, h, inp, flare, x, y)
  {
    var base := Scale(Scale(inp.flareColor, flare(x, y)), inp.flareIntensity);
    rgb := AddGhostLight(base, inp.ghosts, f, x as real, y as real);
  }

  /** Writes a colour into the three colour slots of buffer pixel i; alpha and every other slot are kept. */
  method StorePixel(buffer: array<real>, i: nat, rgb: Rgb)
    requires (i + 1) * Channels <= buffer.Length
    modifies buffer
    ensures forall j :: 0 <= j < buffer.Length ==>
              buffer[j] == if j / Channels == i && j % Channels < 3 then Channel(rgb, j % Channels) else old(buffer[j])
  {
    buffer[i * Channels] := rgb.r;
    buffer[i * Channels + 1] := rgb.g;
    buffer[i * Channels + 2] := rgb.b;
  }

  /**
   * The CPU branch of the render operator: the aspect ratio divides by the height, then a
   * buffer of max_x * max_y pixels filled with 1.0 is walked pixel by pixel, index i being
   * pixel (i % max_x, i // max_x), and its three colour channels are overwritten.
   * `flare` stands for the flare intensity at a pixel, computed outside the model.
   */
  method RenderCpu(w: nat, h: nat, inp: RenderInputs, flare: (nat, nat) -> real) returns (r: Result<seq<real>>)
    ensures h == 0 ==> r == Failure(DivisionByZeroMessage)
    ensures h > 0 ==> r == Success(CpuImage(w, h, inp, flare))
  {
    if h == 0 {
      return Failure(DivisionByZeroMessage);
    }
    var buffer := new real[w * h * Channels](_ => 1.0);
    var f := FrameOf(w, h, inp);
    var i := 0;
    while i < w * h
      invariant 0 <= i <= w * h
      invariant forall j :: 0 <= j < buffer.Length ==>
                  buffer[j] == if j / Channels < i then CpuImage(w, h, inp, flare)[j] else 1.0
    {
      CpuImagePixel(w, h, inp, flare, i);
      var rgb := ShadeColor(w, h, inp, flare, f, i % w, i / w);
      StorePixel(buffer, i, rgb);
      i := i + 1;
    }
    forall j | 0 <= j < buffer.Length
      ensures buffer[j] == CpuImage(w, h, inp, flare)[j]
    {
      assert j / Channels < w * h;
    }
    assert buffer[..] == CpuImage(w, h, inp, flare);
    r := Success(buffer[..]);
  }

  /* ------------------------------------------------------------ render operator */

  /** What a run of the render operator leaves behind: its outcome, the error it reports, the pixels it writes. */
  datatype Run = Run(outcome: Outcome, report: Option<string>, pixels: Option<seq<real>>)

  /**
   * The render operator as a function of what it reads: the aperture settings (or the
   * error choosing them), the selected image, the debug flag and the CPU inputs.
   */
  function ExecuteRun(settings: Result<(int, real)>, image: Option<ImageSize>, debugPos: bool,
                      inp: RenderInputs, flare: (nat, nat) -> real): Run
  {
    if settings.Failure? then Run(Returned(Cancelled), Some(settings.error), None)
    else if image.None? then Run(Returned(Cancelled), Some(NoImageMessage), None)
    else
      var w, h := image.value.width, image.value.height;
      if debugPos then
        Run(Returned(Finished), None, Some(CrossImage(w, h, CrossCenter(w, inp.posx), CrossCenter(h, inp.posy))))
      else if h == 0 then Run(Raised(DivisionByZeroMessage), None, None)
      else Run(Returned(Finished), None, Some(CpuImage(w, h, inp, flare)))
  }

  /**
   * The checks run in order: a failing camera lookup cancels before the image is looked
   * at, a missing image cancels next, and nothing is written in either case. Otherwise
   * the run finishes exactly when it draws the debug cross or the image has rows, and
   * then writes a full max_x * max_y * 4 buffer.
   */
  lemma ExecuteChecks(settings: Result<(int, real)>, image: Option<ImageSize>, debugPos: bool,
                      inp: RenderInputs, flare: (nat, nat) -> real)
    ensures var run := ExecuteRun(settings, image, debugPos, inp, flare);
      && (settings.Failure? ==> run == Run(Returned(Cancelled), Some(settings.error), None))
      && (settings.Success? && image.None? ==> run == Run(Returned(Cancelled), Some(NoImageMessage), None))
      && (run.outcome == Returned(Finished) <==> settings.Success? && image.Some? && (debugPos || image.value.height > 0))
      && (run.pixels.Some? <==> run.outcome == Returned(Finished))
      && (run.pixels.Some? ==> |run.pixels.value| == image.value.width * image.value.height * Channels)
  {
  }

  /** With the debug flag set the pixels written are exactly the debug cross around the truncated flare position. */
  lemma ExecuteDebugDrawsCross(settings: Result<(int, real)>, size: ImageSize, inp: RenderInputs, flare: (nat, nat) -> real,
                               x: nat, y: nat, c: nat)
    requires settings.Success? && x < size.width && y < size.height && c < Channels
    ensures var run := ExecuteRun(settings, Some(size), true, inp, flare);
      var cx, cy := CrossCenter(size.width, inp.posx), CrossCenter(size.height, inp.posy);
      && run.pixels.Some?
      && ChannelIndex(size.width, x, y, c) < |run.pixels.value|
      && run.pixels.value[ChannelIndex(size.width, x, y, c)] == if OnCross(cx, cy, x, y) then CrossColor[c] else 0.0
  {
    CrossImageAt(size.width, size.height, CrossCenter(size.width, inp.posx), CrossCenter(size.height, inp.posy), x, y, c);
  }

  /** The values the render operator reads from the property group. */
  function InputsOf(props: LensFlareProperties): RenderInputs
    reads props
  {
    RenderInputs(props.posx, props.posy, props.flareColor, props.flareIntensity, props.ghosts)
  }

  /**
   * The render operator's execute. `active` is the scene's active camera and `flare` the
   * flare intensity per pixel; refreshing the image and the compositor afterwards is not
   * modelled.
   */
  method Execute(props: LensFlareProperties, active: Option<CameraDof>, flare: (nat, nat) -> real) returns (run: Run)
    modifies props`bladesSlot
    ensures run == ExecuteRun(CameraChoice(props.useOverride, StoredBlades(old(props.bladesSlot)), props.rotation, active),
                              props.image, props.debugPos, InputsOf(props), flare)
    ensures props.useOverride ==> props.bladesSlot == Some(StoredBlades(old(props.bladesSlot)))
    ensures !props.useOverride ==> props.bladesSlot == old(props.bladesSlot)
  {
    var settings := CameraSettings(props, active);
    if settings.Failure? {
      return Run(Returned(Cancelled), Some(settings.error), None);
    }
    if props.image.None? {
      return Run(Returned(Cancelled), Some(NoImageMessage), None);
    }
    var w, h := props.image.value.width, props.image.value.height;
    if props.debugPos {
      var pixels := DrawDebugCross(w, h, CrossCenter(w, props.posx), CrossCenter(h, props.posy));
      return Run(Returned(Finished), None, Some(pixels));
    }
    var cpu := RenderCpu(w, h, InputsOf(props), flare);
    if cpu.Failure? {
      return Run(Raised(cpu.error), None, None);
    }
    run := Run(Returned(Finished), None, Some(cpu.value));
  }
}
