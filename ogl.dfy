/**
 * The OpenGL renderer: the two procedural meshes (aperture fan and fullscreen quad),
 * where each ghost is placed, the uniform values handed to the shaders, and the order
 * of GPU passes. GPU calls are recorded as events of a trace; pixels are not computed.
 */
module Ogl {

  datatype Vec2 = Vec2(x: real, y: real)
  datatype Rgb = Rgb(r: real, g: real, b: real)
  datatype Rgba = Rgba(r: real, g: real, b: real, a: real)

  /* ---------------------------------------------------------------- inputs */

  datatype CameraParams = CameraParams(blades: int, rotation: real)

  datatype FlareParams = FlareParams(color: Rgb, size: real, intensity: real, rays: bool, raysIntensity: real)

  datatype GhostParams = GhostParams(
    offset: real,
    perpendicularOffset: real,
    size: real,
    color: Rgb,
    intensity: real,
    dispersion: real,
    transparentCenter: bool)

  /** Everything the renderer reads from the scene's lens-flare settings. */
  datatype RenderParams = RenderParams(
    resolutionX: nat,
    resolutionY: nat,
    positionX: real,
    positionY: real,
    masterIntensity: real,
    camera: CameraParams,
    flare: FlareParams,
    ghosts: seq<GhostParams>)

  /* ------------------------------------------------------ blade substitution */

  /** Blade count used for the ghost polygon when the camera reports 0 (a round iris). */
  const SmoothCircleBlades: int := 64

  /** The blade count the ghost geometry is built with: never the sentinel 0. */
  function GhostBlades(cameraBlades: int): (r: int)
    ensures r != 0
    ensures cameraBlades != 0 ==> r == cameraBlades
    ensures cameraBlades == 0 ==> r == SmoothCircleBlades
  {
    if cameraBlades == 0 then SmoothCircleBlades else cameraBlades
  }

  /* ------------------------------------------------------------ ghost fan */

  /** A fan vertex: the centre (0, 0), or the unit vector at the given angle in degrees from (1, 0). */
  datatype FanPoint = Center | Rim(degrees: real)

  const Black: Rgba := Rgba(0.0, 0.0, 0.0, 1.0)
  const White: Rgba := Rgba(1.0, 1.0, 1.0, 1.0)

  /** Angle between consecutive rim vertices. */
  function Step(blades: int): real
    requires blades != 0
  {
    360.0 / (blades as real)
  }

  /** Angle of the k-th rim vertex: k rotations by Step from (1, 0). */
  function RimAngle(blades: int, k: nat): real
    requires blades != 0
  {
    (k as real) * Step(blades)
  }

  /** Rotating a point of the plane about the origin. */
  function Rotated(p: FanPoint, degrees: real): FanPoint {
    match p
    case Center => Center
    case Rim(d) => Rim(d + degrees)
  }

  /** Number of fan vertices: the centre plus blades + 1 rim vertices (none for a negative count). */
  function FanSize(blades: int): nat {
    if blades >= -1 then blades + 2 else 1
  }

  /**
   * The triangle-fan mesh of a ghost: a black centre, then blades + 1 white rim vertices,
   * each the previous one turned by 360 / blades degrees; the last repeats the first rim
   * vertex's direction so that the fan closes. Dividing by a zero blade count fails.
   */
  method BatchFromBlades(blades: int) returns (positions: seq<FanPoint>, colors: seq<Rgba>)
    requires blades != 0
    ensures |positions| == |colors| == FanSize(blades)
    ensures positions[0] == Center && colors[0] == Black
    ensures forall k :: 1 <= k < |positions| ==> positions[k] == Rim(RimAngle(blades, k - 1))
    ensures forall k :: 1 <= k < |colors| ==> colors[k] == White
  {
    positions := [Center];
    colors := [Black];
    var start := Rim(0.0);
    var i := 0;
    while i < blades + 1
      invariant 0 <= i && (blades >= -1 ==> i <= blades + 1) && (blades < -1 ==> i == 0)
      invariant |positions| == |colors| == i + 1
      invariant positions[0] == Center && colors[0] == Black
      invariant forall k :: 1 <= k < |positions| ==> positions[k] == Rim(RimAngle(blades, k - 1))
      invariant forall k :: 1 <= k < |colors| ==> colors[k] == White
      invariant start == Rim(RimAngle(blades, i))
    {
      positions := positions + [start];
      colors := colors + [White];
      start := Rotated(start, Step(blades));
      RimAngleNext(blades, i);
      i := i + 1;
    }
  }

  /** One more rotation by Step adds Step to the angle. */
  lemma RimAngleNext(blades: int, k: nat)
    requires blades != 0
    ensures RimAngle(blades, k) + Step(blades) == RimAngle(blades, k + 1)
  {
    assert ((k + 1) as real) * Step(blades) == (k as real) * Step(blades) + 1.0 * Step(blades);
  }

  /** The last rim vertex is the first one turned a full circle, so the fan is closed. */
  lemma {:induction false} FanCloses(blades: int)
    requires blades >= 1
    ensures RimAngle(blades, blades) == RimAngle(blades, 0) + 360.0
  {
    calc {
      RimAngle(blades, blades);
      (blades as real) * (360.0 / (blades as real));
      360.0;
    }
  }

  /** Rim vertices are evenly spaced, and the blades vertices before the closing one point in distinct directions. */
  lemma {:induction false} FanEvenlySpaced(blades: int, j: nat, k: nat)
    requires blades >= 1
    ensures RimAngle(blades, k + 1) - RimAngle(blades, k) == Step(blades)
    ensures j < k < blades ==> 0.0 < RimAngle(blades, k) - RimAngle(blades, j) < 360.0
  {
    var s := Step(blades);
    assert s > 0.0;
    assert RimAngle(blades, k + 1) == (k as real) * s + s;
    if j < k < blades {
      var d := (k - j) as real;
      assert RimAngle(blades, k) - RimAngle(blades, j) == d * s;
      assert 1.0 <= d <= (blades as real) - 1.0;
      assert d * s <= ((blades as real) - 1.0) * s;
      assert (blades as real) * s == 360.0;
    }
  }

  /* ------------------------------------------------------- fullscreen quad */

  datatype QuadBatch = QuadBatch(positions: seq<Vec2>, uvs: seq<Vec2>)

  predicate Opposite(a: Vec2, b: Vec2) {
    a.x == -b.x && a.y == -b.y
  }

  /**
   * The fullscreen quad drawn as a triangle strip: the four corners of clip space,
   * each with the texture coordinate (position + 1) / 2, ordered so that the strip's
   * two triangles split the square along a diagonal.
   */
  function BatchQuad(): (q: QuadBatch)
    ensures |q.positions| == 4 && |q.uvs| == 4
    ensures forall k :: 0 <= k < 4 ==>
              q.uvs[k] == Vec2((q.positions[k].x + 1.0) / 2.0, (q.positions[k].y + 1.0) / 2.0)
    ensures forall k :: 0 <= k < 4 ==>
              (q.positions[k].x == -1.0 || q.positions[k].x == 1.0) &&
              (q.positions[k].y == -1.0 || q.positions[k].y == 1.0)
    ensures forall j, k :: 0 <= j < k < 4 ==> q.positions[j] != q.positions[k]
    ensures Opposite(q.positions[0], q.positions[3]) && Opposite(q.positions[1], q.positions[2])
  {
    QuadBatch(
      [Vec2(-1.0, -1.0), Vec2(-1.0, 1.0), Vec2(1.0, -1.0), Vec2(1.0, 1.0)],
      [Vec2(0.0, 0.0), Vec2(0.0, 1.0), Vec2(1.0, 0.0), Vec2(1.0, 1.0)])
  }

  /* ------------------------------------------------------- ghost placement */

  /** The light source's normalised screen position in clip-space coordinates. */
  function ClipPosition(px: real, py: real): Vec2 {
    Vec2((px - 0.5) * 2.0, (py - 0.5) * 2.0)
  }

  /**
   * Clip-space centre of a ghost: `offset` times the flare's clip position, moved by
   * `perpendicular` along the flare axis turned a quarter-turn clockwise. `axis` is the
   * normalised direction from the image centre to the flare.
   */
  function GhostPosition(px: real, py: real, axis: Vec2, offset: real, perpendicular: real): Vec2 {
    Vec2((px - 0.5) * 2.0 * offset + axis.y * perpendicular,
         (py - 0.5) * 2.0 * offset + -axis.x * perpendicular)
  }

  function Dot(a: Vec2, b: Vec2): real {
    a.x * b.x + a.y * b.y
  }

  /**
   * Without perpendicular offset a ghost sits on the line through the image centre and
   * the flare: at the centre for offset 0, on the flare for offset 1. The perpendicular
   * offset moves it orthogonally to the flare axis, by `perpendicular` times the axis length.
   */
  lemma GhostPlacement(px: real, py: real, axis: Vec2, offset: real, perpendicular: real)
    ensures GhostPosition(px, py, axis, 0.0, 0.0) == Vec2(0.0, 0.0)
    ensures GhostPosition(px, py, axis, 1.0, 0.0) == ClipPosition(px, py)
    ensures GhostPosition(px, py, axis, offset, 0.0)
            == Vec2(ClipPosition(px, py).x * offset, ClipPosition(px, py).y * offset)
    ensures var d := Vec2(GhostPosition(px, py, axis, offset, perpendicular).x - GhostPosition(px, py, axis, offset, 0.0).x,
                          GhostPosition(px, py, axis, offset, perpendicular).y - GhostPosition(px, py, axis, offset, 0.0).y);
            Dot(d, axis) == 0.0 && Dot(d, d) == perpendicular * perpendicular * Dot(axis, axis)
  {
  }

  /* -------------------------------------------------------- uniform values */

  /** The ghost shader's "empty" uniform: 1.0 for a transparent centre, otherwise 0.0. */
  function CenterTransparency(transparentCenter: bool): (e: real)
    ensures e == 1.0 <==> transparentCenter
    ensures e == 0.0 <==> !transparentCenter
  {
    if transparentCenter then 1.0 else 0.0
  }

  /** The flare shader's "use_rays" uniform: the ray intensity when rays are on, otherwise 0.0. */
  function RaysUniform(rays: bool, raysIntensity: real): (u: real)
    ensures rays ==> u == raysIntensity
    ensures u != 0.0 ==> rays
  {
    if rays then 1.0 * raysIntensity else 0.0
  }

  /* ----------------------------------------------------------- event trace */

  datatype Target = MainTarget | GhostTarget
  datatype Shader = GhostShader | FlareShader | CopyShader
  /**
   * A mesh drawn by an event. Fan(n) stands for the mesh BatchFromBlades(n) returns, named by
   * its blade count; FullscreenQuad stands for the mesh of BatchQuad.
   */
  datatype Geometry = Fan(blades: int) | FullscreenQuad

  /**
   * The uniform names the shaders declare, in the order modelMatrix, rotationMatrix,
   * color, master_intensity, intensity, empty, aspect_ratio, size, flare_position,
   * blades, use_rays, rotation, ghost, dispersion.
   */
  datatype UniformName =
    | ModelMatrixName | RotationMatrixName | ColorName | MasterIntensityName | IntensityName
    | EmptyName | AspectRatioName | SizeName | FlarePositionName | BladesName | UseRaysName
    | RotationName | GhostSamplerName | DispersionName

  datatype Uniform =
    | Float(f: real)
    | Vector2(v: Vec2)
    | Color4(c: Rgba)
    | ModelMatrix(translation: Vec2, scale: real)
    | RotationZ(radians: real)

  datatype Event =
    | CreateOffscreen(target: Target, width: nat, height: nat)
    | ClearBlack(target: Target)
    | EnableAdditiveBlend(target: Target)
    | SetUniform(shader: Shader, name: UniformName, value: Uniform)
    | Draw(target: Target, shader: Shader, geometry: Geometry)
    | BindGhostTexture
    | ReadPixels(target: Target, floats: nat)
    | FreeOffscreen(target: Target)

  function AspectRatio(p: RenderParams): real
    requires p.resolutionY > 0
  {
    (p.resolutionX as real) / (p.resolutionY as real)
  }

  /** The ghost shader's uniforms, in the order they are set. */
  function GhostUniforms(p: RenderParams, axis: Vec2, g: GhostParams): seq<(UniformName, Uniform)>
    requires p.resolutionY > 0
  {
    [ (ModelMatrixName, ModelMatrix(GhostPosition(p.positionX, p.positionY, axis, g.offset, g.perpendicularOffset), g.size / 100.0)),
      (RotationMatrixName, RotationZ(p.camera.rotation)),
      (ColorName, Color4(Rgba(g.color.r, g.color.g, g.color.b, 1.0))),
      (MasterIntensityName, Float(p.masterIntensity)),
      (IntensityName, Float(g.intensity)),
      (EmptyName, Float(CenterTransparency(g.transparentCenter))),
      (AspectRatioName, Float(AspectRatio(p))) ]
  }

  /** The flare shader's uniforms, in the order they are set; "blades" is the camera's raw count. */
  function FlareUniforms(p: RenderParams): seq<(UniformName, Uniform)>
    requires p.resolutionY > 0
  {
    [ (ColorName, Color4(Rgba(p.flare.color.r, p.flare.color.g, p.flare.color.b, 1.0))),
      (SizeName, Float(p.flare.size)),
      (IntensityName, Float(p.flare.intensity)),
      (FlarePositionName, Vector2(Vec2(p.positionX, p.positionY))),
      (AspectRatioName, Float(AspectRatio(p))),
      (BladesName, Float(p.camera.blades as real)),
      (UseRaysName, Float(RaysUniform(p.flare.rays, p.flare.raysIntensity))),
      (RotationName, Float(p.camera.rotation)),
      (MasterIntensityName, Float(p.masterIntensity)) ]
  }

  /** One uniform call per dictionary entry, in the dictionary's order. */
  function UniformCalls(shader: Shader, uniforms: seq<(UniformName, Uniform)>): (calls: seq<Event>)
    ensures |calls| == |uniforms|
    ensures forall k :: 0 <= k < |calls| ==> calls[k] == SetUniform(shader, uniforms[k].0, uniforms[k].1)
  {
    seq(|uniforms|, k requires 0 <= k < |uniforms| => SetUniform(shader, uniforms[k].0, uniforms[k].1))
  }

  /** Sets every uniform of a dictionary on the shader, walking the entries in order. */
  method SetUniforms(shader: Shader, uniforms: seq<(UniformName, Uniform)>) returns (calls: seq<Event>)
    ensures calls == UniformCalls(shader, uniforms)
  {
    calls := [];
    var k := 0;
    while k < |uniforms|
      invariant 0 <= k <= |uniforms|
      invariant calls == UniformCalls(shader, uniforms[..k])
    {
      var (name, value) := uniforms[k];
      calls := calls + [SetUniform(shader, name, value)];
      k := k + 1;
    }
    assert uniforms[..k] == uniforms;
  }

  /** Allocate both offscreens, then clear the main one to opaque black with additive blending. */
  function Setup(p: RenderParams): seq<Event> {
    [ CreateOffscreen(MainTarget, p.resolutionX, p.resolutionY),
      CreateOffscreen(GhostTarget, p.resolutionX, p.resolutionY),
      ClearBlack(MainTarget),
      EnableAdditiveBlend(MainTarget) ]
  }

  /** Events per ghost: clear and blend (2), ghost uniforms (7), fan draw (1), copy (4). */
  const GhostPassLength: nat := 14

  /** One ghost: draw it into the cleared scratch target, then copy the scratch target into the main one. */
  function GhostPass(p: RenderParams, axis: Vec2, g: GhostParams): (pass: seq<Event>)
    requires p.resolutionY > 0
    ensures |pass| == GhostPassLength
  {
    [ClearBlack(GhostTarget), EnableAdditiveBlend(GhostTarget)]
    + UniformCalls(GhostShader, GhostUniforms(p, axis, g))
    + [Draw(GhostTarget, GhostShader, Fan(GhostBlades(p.camera.blades)))]
    + [ BindGhostTexture,
        SetUniform(CopyShader, GhostSamplerName, Float(0.0)),
        SetUniform(CopyShader, DispersionName, Float(g.dispersion)),
        Draw(MainTarget, CopyShader, FullscreenQuad) ]
  }

  /** The passes of the ghosts gs, in list order. */
  function GhostPasses(p: RenderParams, axis: Vec2, gs: seq<GhostParams>): seq<Event>
    requires p.resolutionY > 0
    decreases |gs|
  {
    if gs == [] then [] else GhostPasses(p, axis, gs[..|gs| - 1]) + GhostPass(p, axis, gs[|gs| - 1])
  }

  /** Number of floats read back: four channels for each of max_x * max_y pixels. */
  function ReadbackSize(p: RenderParams): nat {
    p.resolutionX * p.resolutionY * 4
  }

  /** Draw the flare into the main target, read it back, free both offscreens. */
  function Finish(p: RenderParams): seq<Event>
    requires p.resolutionY > 0
  {
    UniformCalls(FlareShader, FlareUniforms(p))
    + [ Draw(MainTarget, FlareShader, FullscreenQuad),
        ReadPixels(MainTarget, ReadbackSize(p)),
        FreeOffscreen(MainTarget),
        FreeOffscreen(GhostTarget) ]
  }

  function PassTrace(p: RenderParams, axis: Vec2): seq<Event>
    requires p.resolutionY > 0
  {
    Setup(p) + GhostPasses(p, axis, p.ghosts) + Finish(p)
  }

  /** The aspect ratio divides by the height, which fails before any target exists when it is 0. */
  datatype RenderResult = Rendered(trace: seq<Event>) | ZeroHeight

  /**
   * One ghost: clear the scratch target, set the ghost shader's uniforms, draw the fan
   * built for `blades`, then copy the scratch target into the main one.
   */
  method DrawGhost(p: RenderParams, axis: Vec2, g: GhostParams, blades: int) returns (pass: seq<Event>)
    requires p.resolutionY > 0 && blades == GhostBlades(p.camera.blades)
    ensures pass == GhostPass(p, axis, g)
  {
    pass := [ClearBlack(GhostTarget), EnableAdditiveBlend(GhostTarget)];
    var calls := SetUniforms(GhostShader, GhostUniforms(p, axis, g));
    pass := pass + calls + [Draw(GhostTarget, GhostShader, Fan(blades))];
    pass := pass + [ BindGhostTexture,
                     SetUniform(CopyShader, GhostSamplerName, Float(0.0)),
                     SetUniform(CopyShader, DispersionName, Float(g.dispersion)),
                     Draw(MainTarget, CopyShader, FullscreenQuad) ];
  }

  /** Every ghost's pass, in list order. */
  method DrawGhosts(p: RenderParams, axis: Vec2, blades: int) returns (passes: seq<Event>)
    requires p.resolutionY > 0 && blades == GhostBlades(p.camera.blades)
    ensures passes == GhostPasses(p, axis, p.ghosts)
  {
    passes := [];
    var i := 0;
    while i < |p.ghosts|
      invariant 0 <= i <= |p.ghosts|
      invariant passes == GhostPasses(p, axis, p.ghosts[..i])
    {
      var pass := DrawGhost(p, axis, p.ghosts[i], blades);
      GhostPassesSnoc(p, axis, p.ghosts, i);
      passes := passes + pass;
      i := i + 1;
    }
    assert p.ghosts[..i] == p.ghosts;
  }

  /** The flare pass: flare uniforms, the flare draw, the readback of `floats` values, both frees. */
  method DrawFlare(p: RenderParams, floats: nat) returns (pass: seq<Event>)
    requires p.resolutionY > 0 && floats == ReadbackSize(p)
    ensures pass == Finish(p)
  {
    var calls := SetUniforms(FlareShader, FlareUniforms(p));
    pass := calls + [Draw(MainTarget, FlareShader, FullscreenQuad)];
    pass := pass + [ReadPixels(MainTarget, floats), FreeOffscreen(MainTarget), FreeOffscreen(GhostTarget)];
  }

  /**
   * Renders the lens flare: GPU work as the trace of calls it makes. `axis` is the
   * normalised flare direction, computed outside the model.
   */
  method RenderLensFlare(p: RenderParams, axis: Vec2) returns (r: RenderResult)
    ensures p.resolutionY == 0 ==> r == ZeroHeight
    ensures p.resolutionY > 0 ==> r == Rendered(PassTrace(p, axis))
  {
    var maxX, maxY := p.resolutionX, p.resolutionY;
    if maxY == 0 {
      return ZeroHeight;
    }
    var blades := p.camera.blades;
    if blades == 0 {
      blades := SmoothCircleBlades;
    }
    var trace := [CreateOffscreen(MainTarget, maxX, maxY), CreateOffscreen(GhostTarget, maxX, maxY)];
    var fanPositions, fanColors := BatchFromBlades(blades);
    var quad := BatchQuad();
    trace := trace + [ClearBlack(MainTarget), EnableAdditiveBlend(MainTarget)];
    var passes := DrawGhosts(p, axis, blades);
    trace := trace + passes;
    var flare := DrawFlare(p, maxX * maxY * 4);
    trace := trace + flare;
    r := Rendered(trace);
  }

  /* ------------------------------------------------------ trace properties */

  /** The passes of the first i + 1 ghosts: those of the first i, then ghost i's. */
  lemma GhostPassesSnoc(p: RenderParams, axis: Vec2, gs: seq<GhostParams>, i: nat)
    requires p.resolutionY > 0 && i < |gs|
    ensures GhostPasses(p, axis, gs[..i + 1]) == GhostPasses(p, axis, gs[..i]) + GhostPass(p, axis, gs[i])
  {
    assert gs[..i + 1][..i] == gs[..i];
  }

  /** The passes of gs are the passes of each ghost laid end to end in list order. */
  lemma {:induction false} GhostPassesAt(p: RenderParams, axis: Vec2, gs: seq<GhostParams>, k: nat)
    requires p.resolutionY > 0
    ensures |GhostPasses(p, axis, gs)| == GhostPassLength * |gs|
    ensures k < |gs| ==>
              GhostPasses(p, axis, gs)[GhostPassLength * k .. GhostPassLength * (k + 1)] == GhostPass(p, axis, gs[k])
    decreases |gs|
  {
    if gs != [] {
      var init := gs[..|gs| - 1];
      GhostPassesAt(p, axis, init, k);
      var a, b := GhostPasses(p, axis, init), GhostPass(p, axis, gs[|gs| - 1]);
      assert GhostPasses(p, axis, gs) == a + b;
      if k < |init| {
        assert init[k] == gs[k];
        assert (a + b)[GhostPassLength * k .. GhostPassLength * (k + 1)] == a[GhostPassLength * k .. GhostPassLength * (k + 1)];
      } else if k == |init| {
        assert (a + b)[GhostPassLength * k .. GhostPassLength * (k + 1)] == b;
      }
    }
  }

  /** Index of ghost k's first event. */
  function GhostPassStart(k: nat): nat {
    4 + GhostPassLength * k
  }

  /** Index of the flare draw: after the setup, every ghost pass and the nine flare uniforms. */
  function FlareDrawIndex(ghostCount: nat): nat {
    GhostPassStart(ghostCount) + 9
  }

  /** The whole trace: setup first, ghost k's pass at GhostPassStart(k), the flare pass after the last ghost. */
  lemma {:induction false} PassTraceBlocks(p: RenderParams, axis: Vec2, k: nat)
    requires p.resolutionY > 0
    ensures var t, n := PassTrace(p, axis), |p.ghosts|;
      && |t| == GhostPassStart(n) + 13
      && t[..4] == Setup(p)
      && t[GhostPassStart(n)..] == Finish(p)
      && (k < n ==> t[GhostPassStart(k) .. GhostPassStart(k) + GhostPassLength] == GhostPass(p, axis, p.ghosts[k]))
  {
    var passes := GhostPasses(p, axis, p.ghosts);
    GhostPassesAt(p, axis, p.ghosts, k);
    var t := PassTrace(p, axis);
    assert t == Setup(p) + passes + Finish(p);
    if k < |p.ghosts| {
      assert t[GhostPassStart(k) .. GhostPassStart(k) + GhostPassLength]
          == passes[GhostPassLength * k .. GhostPassLength * (k + 1)];
    }
  }

  /** Ghost k's pass in the trace: cleared scratch target, its placement and centre transparency, its fan, the copy with its dispersion. */
  lemma {:induction false} GhostPassOrder(p: RenderParams, axis: Vec2, k: nat)
    requires p.resolutionY > 0 && k < |p.ghosts|
    ensures var t, s, g := PassTrace(p, axis), GhostPassStart(k), p.ghosts[k];
      && s + GhostPassLength <= |t|
      && t[s] == ClearBlack(GhostTarget)
      && t[s + 1] == EnableAdditiveBlend(GhostTarget)
      && t[s + 2] == SetUniform(GhostShader, ModelMatrixName,
           ModelMatrix(GhostPosition(p.positionX, p.positionY, axis, g.offset, g.perpendicularOffset), g.size / 100.0))
      && t[s + 7] == SetUniform(GhostShader, EmptyName, Float(CenterTransparency(g.transparentCenter)))
      && t[s + 9] == Draw(GhostTarget, GhostShader, Fan(GhostBlades(p.camera.blades)))
      && t[s + 10] == BindGhostTexture
      && t[s + 12] == SetUniform(CopyShader, DispersionName, Float(g.dispersion))
      && t[s + 13] == Draw(MainTarget, CopyShader, FullscreenQuad)
  {
    var t, s := PassTrace(p, axis), GhostPassStart(k);
    PassTraceBlocks(p, axis, k);
    var pass := GhostPass(p, axis, p.ghosts[k]);
    assert t[s] == pass[0] && t[s + 1] == pass[1] && t[s + 2] == pass[2] && t[s + 7] == pass[7];
    assert t[s + 9] == pass[9] && t[s + 10] == pass[10] && t[s + 12] == pass[12] && t[s + 13] == pass[13];
  }

  /**
   * The pass order. The main target is cleared once and blending set to additive
   * before anything is drawn. Then, for each ghost in list order, the scratch target is
   * cleared, the ghost's fan is drawn into it with the ghost's own placement and centre
   * transparency, and the scratch target is copied into the main one with the ghost's
   * dispersion. The flare is drawn after every ghost, with the camera's raw blade count.
   * Then max_x*max_y*4 floats are read back and both offscreens are freed, last.
   */
  lemma {:induction false} PassOrder(p: RenderParams, axis: Vec2)
    requires p.resolutionY > 0
    ensures var t := PassTrace(p, axis); var n := |p.ghosts|;
      && |t| == FlareDrawIndex(n) + 4
      && t[0] == CreateOffscreen(MainTarget, p.resolutionX, p.resolutionY)
      && t[1] == CreateOffscreen(GhostTarget, p.resolutionX, p.resolutionY)
      && t[2] == ClearBlack(MainTarget)
      && t[3] == EnableAdditiveBlend(MainTarget)
      && (forall k :: 0 <= k < n ==>
            && t[GhostPassStart(k)] == ClearBlack(GhostTarget)
            && t[GhostPassStart(k) + 9] == Draw(GhostTarget, GhostShader, Fan(GhostBlades(p.camera.blades)))
            && t[GhostPassStart(k) + 13] == Draw(MainTarget, CopyShader, FullscreenQuad))
      && t[GhostPassStart(n) + 5] == SetUniform(FlareShader, BladesName, Float(p.camera.blades as real))
      && t[FlareDrawIndex(n)] == Draw(MainTarget, FlareShader, FullscreenQuad)
      && t[FlareDrawIndex(n) + 1] == ReadPixels(MainTarget, ReadbackSize(p))
      && t[FlareDrawIndex(n) + 2] == FreeOffscreen(MainTarget)
      && t[FlareDrawIndex(n) + 3] == FreeOffscreen(GhostTarget)
  {
    var t, n := PassTrace(p, axis), |p.ghosts|;
    PassTraceBlocks(p, axis, 0);
    assert t[GhostPassStart(n) + 5] == Finish(p)[5];
    forall k | 0 <= k < n
      ensures t[GhostPassStart(k)] == ClearBlack(GhostTarget)
      ensures t[GhostPassStart(k) + 9] == Draw(GhostTarget, GhostShader, Fan(GhostBlades(p.camera.blades)))
      ensures t[GhostPassStart(k) + 13] == Draw(MainTarget, CopyShader, FullscreenQuad)
    {
      GhostPassOrder(p, axis, k);
    }
  }

  /** Where each event of one ghost's pass sits: only slots 2..8, 11 and 12 are uniform calls. */
  lemma GhostPassShape(p: RenderParams, axis: Vec2, g: GhostParams, o: nat)
    requires p.resolutionY > 0 && o < GhostPassLength
    ensures var pass := GhostPass(p, axis, g);
      && (pass[o].SetUniform? <==> 2 <= o < 9 || o == 11 || o == 12)
      && pass[0] == ClearBlack(GhostTarget)
      && pass[1] == EnableAdditiveBlend(GhostTarget)
      && pass[9] == Draw(GhostTarget, GhostShader, Fan(GhostBlades(p.camera.blades)))
      && pass[10] == BindGhostTexture
      && pass[13] == Draw(MainTarget, CopyShader, FullscreenQuad)
  {
    var u := UniformCalls(GhostShader, GhostUniforms(p, axis, g));
    if 2 <= o < 9 {
      assert GhostPass(p, axis, g)[o] == u[o - 2];
    }
  }

  /** Where each event of the flare pass sits: nine uniform calls, then the draw, the readback and the two frees. */
  lemma FinishShape(p: RenderParams, o: nat)
    requires p.resolutionY > 0 && o < 13
    ensures var f := Finish(p);
      && |f| == 13
      && (f[o].SetUniform? <==> o < 9)
      && f[9] == Draw(MainTarget, FlareShader, FullscreenQuad)
      && f[10] == ReadPixels(MainTarget, ReadbackSize(p))
      && f[11] == FreeOffscreen(MainTarget)
      && f[12] == FreeOffscreen(GhostTarget)
  {
  }

  /** The event at position j of the trace: from the setup, from one ghost's pass, or from the flare pass. */
  lemma {:induction false} TraceAt(p: RenderParams, axis: Vec2, j: nat)
    requires p.resolutionY > 0 && j < |PassTrace(p, axis)|
    ensures var t, n := PassTrace(p, axis), |p.ghosts|;
      && |t| == GhostPassStart(n) + 13
      && (j < 4 ==> t[j] == Setup(p)[j])
      && (4 <= j < GhostPassStart(n) ==>
            (j - 4) / GhostPassLength < n &&
            t[j] == GhostPass(p, axis, p.ghosts[(j - 4) / GhostPassLength])[(j - 4) % GhostPassLength])
      && (GhostPassStart(n) <= j ==> t[j] == Finish(p)[j - GhostPassStart(n)])
  {
    var t, n := PassTrace(p, axis), |p.ghosts|;
    if 4 <= j < GhostPassStart(n) {
      var k, o := (j - 4) / GhostPassLength, (j - 4) % GhostPassLength;
      PassTraceBlocks(p, axis, k);
      assert j == GhostPassStart(k) + o;
      assert t[j] == t[GhostPassStart(k) .. GhostPassStart(k) + GhostPassLength][o];
    } else {
      PassTraceBlocks(p, axis, 0);
      if GhostPassStart(n) <= j {
        assert t[j] == t[GhostPassStart(n)..][j - GhostPassStart(n)];
      }
    }
  }

  /**
   * Each offscreen is allocated once, at the start, and freed once, at the very end;
   * the main target is cleared once, before any ghost, and the flare is drawn and the
   * pixels read back once, after every ghost. Position j holds one of these events
   * exactly when j is its one index.
   */
  lemma {:induction false} MainTargetEventsOnce(p: RenderParams, axis: Vec2, j: nat)
    requires p.resolutionY > 0 && j < |PassTrace(p, axis)|
    ensures var t, n := PassTrace(p, axis), |p.ghosts|;
      && (t[j] == CreateOffscreen(MainTarget, p.resolutionX, p.resolutionY) <==> j == 0)
      && (t[j] == CreateOffscreen(GhostTarget, p.resolutionX, p.resolutionY) <==> j == 1)
      && (t[j] == ClearBlack(MainTarget) <==> j == 2)
      && (t[j] == Draw(MainTarget, FlareShader, FullscreenQuad) <==> j == FlareDrawIndex(n))
      && (t[j] == ReadPixels(MainTarget, ReadbackSize(p)) <==> j == FlareDrawIndex(n) + 1)
      && (t[j] == FreeOffscreen(MainTarget) <==> j == FlareDrawIndex(n) + 2)
      && (t[j] == FreeOffscreen(GhostTarget) <==> j == FlareDrawIndex(n) + 3)
  {
    var n := |p.ghosts|;
    TraceAt(p, axis, j);
    if 4 <= j < GhostPassStart(n) {
      GhostPassShape(p, axis, p.ghosts[(j - 4) / GhostPassLength], (j - 4) % GhostPassLength);
    } else if GhostPassStart(n) <= j {
      FinishShape(p, j - GhostPassStart(n));
    }
  }

  /**
   * The scratch target is cleared, drawn into with the ghost fan and copied into the
   * main target once per ghost: at offsets 0, 9 and 13 of each ghost's pass and nowhere
   * else, so with no ghosts none of this happens.
   */
  lemma {:induction false} GhostEventsOncePerGhost(p: RenderParams, axis: Vec2, j: nat)
    requires p.resolutionY > 0 && j < |PassTrace(p, axis)|
    ensures var t, n := PassTrace(p, axis), |p.ghosts|;
      var inGhosts := 4 <= j < GhostPassStart(n);
      var fan := Draw(GhostTarget, GhostShader, Fan(GhostBlades(p.camera.blades)));
      && (t[j] == ClearBlack(GhostTarget) <==> inGhosts && (j - 4) % GhostPassLength == 0)
      && (t[j] == fan <==> inGhosts && (j - 4) % GhostPassLength == 9)
      && (t[j] == Draw(MainTarget, CopyShader, FullscreenQuad) <==> inGhosts && (j - 4) % GhostPassLength == 13)
  {
    var n := |p.ghosts|;
    TraceAt(p, axis, j);
    if 4 <= j < GhostPassStart(n) {
      GhostPassShape(p, axis, p.ghosts[(j - 4) / GhostPassLength], (j - 4) % GhostPassLength);
    } else if GhostPassStart(n) <= j {
      FinishShape(p, j - GhostPassStart(n));
    }
  }
}
