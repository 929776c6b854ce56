# Lens flare add-on: verified model of its discrete core

This project models, in Dafny, the decision and index logic of a Blender add-on that
renders a lens-flare effect into an image. It covers five parts of the add-on:

- **Debug cross** (`image_processing.dfy`). A row-major RGBA float buffer of
  `max_x * max_y * 4` zeros gets two half-open bars painted on it. Each bar is clipped
  to the image and painted with the colour `[2.0, 0.0, 2.0, 1.0]`. The buffer is an
  array updated in place by two nested loops, proved against the function
  `CrossImage`.
- **Pixel addressing** (`raster.dfy`). Pixel `(x, y)` is pixel number `x + y * max_x`,
  and its channel `c` sits at `4 * number + c`. Pixel number `i` is pixel
  `(i % max_x, i // max_x)`. Both maps are proved to be a bijection.
- **Aperture blades property** (`properties.dfy`). The property group is a class. Its
  `blades` value lives in an ID-property slot that can be absent. The getter
  initialises an absent slot to 0. The setter stores 1 and 2 as a toggle between 0
  and 3, and stores any other value unchanged.
- **OpenGL renderer** (`ogl.dfy`). It covers:
  - the blade substitution (0 becomes 64 for the ghost mesh);
  - the triangle-fan mesh, with its rim angles kept symbolic;
  - the fullscreen quad and its UVs;
  - ghost placement in clip space;
  - the two uniform flags;
  - the uniform-setting loop;
  - the order of GPU passes, recorded as a trace of events.
- **Operators** (`operators.dfy`). It covers:
  - adding and removing ghosts;
  - choosing the aperture settings (override or scene camera);
  - the early cancels of the render operator;
  - the CPU render loop (row-major traversal, ghost centres, coverage clamp).

## Model

| member | source | states |
|---|---|---|
| Raster.PixelNumberBound | image_processing.py:27 | a pixel inside the image has a pixel number below max_x * max_y |
| Raster.CoordinatesOfPixelNumber | operators.py:97-99 | from x + y * max_x, `% max_x` recovers x and `// max_x` recovers y |
| Raster.PixelNumberOfCoordinates | operators.py:97-99 | every buffer index i < max_x * max_y maps to a pixel (i % max_x, i // max_x) inside the image, and back to i |
| Raster.RowMajorBijection | operators.py:84-99 | index-to-pixel and pixel-to-index are inverse on the whole image, so the loop visits every pixel exactly once |
| Raster.ChannelIndexBound | image_processing.py:27-28 | every slot `index + c` written for a pixel inside the image is inside the `max_x * max_y * 4` buffer |
| ImageProcessing.Clamped | image_processing.py:25-26 | the clamped loop ranges contain a pixel iff the bar's window does and the pixel lies in the image |
| ImageProcessing.CrossImage | image_processing.py:22 | the debug image has exactly max_x * max_y * 4 entries |
| ImageProcessing.CrossImageAt | image_processing.py:13-34 | a pixel's four slots hold the cross colour iff it lies in the horizontal window [cx-10, cx+10) x [cy-1, cy+1) or the vertical window [cx-1, cx+1) x [cy-10, cy+10), and 0.0 otherwise |
| ImageProcessing.CrossFarEdgesBlank | image_processing.py:25-32 | column cx+10 and row cy+10 stay 0.0; row cy+1 is outside the horizontal bar and column cx+1 outside the vertical bar |
| ImageProcessing.PaintedCommutes | image_processing.py:24-34 | painting two windows with the same colour gives the same buffer in either order |
| ImageProcessing.CrossIsBothBars | image_processing.py:22-34 | zero buffer plus horizontal bar plus vertical bar is the debug image, and so is the reverse order |
| ImageProcessing.PaintWindow | image_processing.py:25-28 | the nested clamped loop writes the colour into the four slots of exactly the pixels of the window and leaves every other slot unchanged |
| ImageProcessing.DrawDebugCross | image_processing.py:17-36 | the buffer handed to the image is exactly the debug image |
| Properties.NextBlades | properties.py:16-24 | the setter never stores 1 or 2; for inputs in 0..16 it stores 0 or 3..16; it stores the input itself iff the input is not 1 or 2 |
| Properties.LensFlareProperties.constructor | properties.py:27-43 | a fresh group holds the declared defaults and has no blades slot |
| Properties.LensFlareProperties.GetBlades | properties.py:10-13 | an absent slot is set to 0 and 0 is returned; a present slot is returned and left unchanged |
| Properties.LensFlareProperties.SetBlades | properties.py:16-24 | with 0 < v < 3 a stored 0 becomes 3 and anything else 0; every other v is stored as is; the toggle needs the slot present |
| Properties.ToggleTwice | properties.py:18-22 | writing 1 or 2 twice restores a stored 0 or 3 and turns any other stored value into 3 |
| Ogl.GhostBlades | ogl.py:24-26 | the ghost mesh's blade count is 64 for a camera count of 0 and the camera's count otherwise; never 0 |
| Ogl.BatchFromBlades | ogl.py:168-180 | blades + 2 vertices and colours; vertex 0 is the black centre, every other vertex is white and rim vertex k sits at angle k * 360 / blades |
| Ogl.FanCloses | ogl.py:174-178 | the last rim vertex lies a full turn after the first, so the fan closes |
| Ogl.FanEvenlySpaced | ogl.py:175-178 | consecutive rim vertices are 360 / blades apart; the first blades rim vertices point in distinct directions |
| Ogl.BatchQuad | ogl.py:183-187 | four distinct clip-space corners, each UV equal to (position + 1) / 2, opposite corners at strip positions 0/3 and 1/2 |
| Ogl.GhostPlacement | ogl.py:55-59 | without perpendicular offset the ghost is the flare's clip position scaled by offset (centre at 0, flare at 1); the perpendicular part is orthogonal to the flare axis and scaled by the ghost's perpendicular offset |
| Ogl.CenterTransparency | ogl.py:78-80 | the "empty" uniform is 1.0 iff the ghost has a transparent centre and 0.0 iff not |
| Ogl.RaysUniform | ogl.py:144-146 | the "use_rays" uniform is the ray intensity when rays are on and is nonzero only then |
| Ogl.SetUniforms | ogl.py:190-197 | one uniform call per dictionary entry, in the dictionary's order |
| Ogl.DrawGhost | ogl.py:61-115 | one ghost's events: clear and blend the scratch target, its seven uniforms, the fan draw, then the texture bind, the two copy uniforms and the copy into the main target |
| Ogl.DrawGhosts | ogl.py:53-115 | the ghosts' passes, one after another in list order |
| Ogl.DrawFlare | ogl.py:117-127 | the flare uniforms, the flare draw, the readback and both frees |
| Ogl.RenderLensFlare | ogl.py:13-129 | a zero height fails before any target is created; otherwise the events are setup, the ghost passes and the flare pass |
| Ogl.GhostPassesAt | ogl.py:53-115 | the ghost passes are 14 events per ghost, and ghost k's pass is at events 14k .. 14k+14 |
| Ogl.GhostPassesSnoc | ogl.py:53 | the passes of one more ghost are the earlier passes followed by the new ghost's pass |
| Ogl.PassTraceBlocks | ogl.py:44-127 | the trace is the four setup events, ghost k's pass at 4 + 14k, and the flare pass last |
| Ogl.GhostPassOrder | ogl.py:53-115 | in ghost k's pass the scratch target is cleared, the ghost's placement and transparency are set, its fan is drawn with the substituted blade count, and it is copied into the main target with its dispersion |
| Ogl.PassOrder | ogl.py:44-127 | the targets are created and the main target is cleared and set to additive blending first; each ghost's clear, fan and copy follow in list order; the flare shader gets the raw camera blade count; the flare draw, the readback of max_x*max_y*4 floats and both frees come last |
| Ogl.GhostPassShape | ogl.py:61-115 | in a ghost's pass only slots 2..8, 11 and 12 are uniform calls; the other slots are fixed events |
| Ogl.FinishShape | ogl.py:117-127 | the flare pass is nine uniform calls, then the draw, the readback, and the frees of the main and scratch targets |
| Ogl.TraceAt | ogl.py:44-127 | every trace position belongs to the setup, to exactly one ghost's pass at offset (j - 4) % 14, or to the flare pass |
| Ogl.MainTargetEventsOnce | ogl.py:33-127 | each target is created only at the start and freed only at the very end, exactly once; the main target is cleared, drawn with the flare and read back at exactly one position each |
| Ogl.GhostEventsOncePerGhost | ogl.py:53-115 | the scratch clear, the fan draw and the copy occur exactly at offsets 0, 9 and 13 of each ghost's pass, so once per ghost and never without ghosts |
| Operators.AddGhost | operators.py:12-17 | the ghost list grows by exactly one default ghost at the end; FINISHED |
| Operators.Removed | operators.py:34 | removing index i keeps the elements before i, shifts those after i down by one, and drops exactly one copy of element i |
| Operators.RemoveOutcome | operators.py:30-36 | id -1 is CANCELLED with the message; an index in range is FINISHED; anything else raises |
| Operators.RemoveGhost | operators.py:27-36 | id -1 cancels and an out-of-range id raises, both leaving the list unchanged; an in-range id removes exactly that element |
| Operators.AddThenRemoveLast | operators.py:12-36 | removing the ghost just added restores the list |
| Operators.CameraChoiceSources | operators.py:44-60 | with the override on the result is the group's blades and rotation whatever the camera; without it the group's values are ignored; it fails with "No camera is active" iff the override is off and there is no camera |
| Operators.CameraSettings | operators.py:44-60 | the choice above; reading the group's blades through the getter initialises an absent slot; the camera branch leaves the slot alone |
| Operators.Trunc | image_processing.py:19-20 | int() of a float: the integer part, less than 1 away from the value, rounding toward zero |
| Operators.Coverage | operators.py:111 | a ghost's coverage is in [0, 1]: 1 within squared distance size*100-1, 0 beyond size*100, size*100 minus the squared distance in between |
| Operators.CpuImage | operators.py:84 | the CPU buffer has exactly max_x * max_y * 4 entries |
| Operators.GhostLightFar | operators.py:106-115 | ghosts whose centres are all too far from a pixel add no light to it |
| Operators.CpuGhostCenterAxis | operators.py:107-108 | the CPU ghost centre is the flare's clip coordinate scaled by the offset, mapped back to pixels |
| Operators.GhostCenterInterpolates | operators.py:107-108 | the ghost centre is the image centre at offset 0 and the flare at offset 1, and matches the OpenGL placement without perpendicular offset |
| Operators.CpuImageAt | operators.py:97-104 | slot c of pixel (x, y) holds that pixel's channel c, and alpha keeps the fill value 1.0 |
| Operators.CpuImagePixel | operators.py:97-99 | the four slots of buffer pixel i are the channels of pixel (i % max_x, i // max_x) |
| Operators.AddGhostLight | operators.py:106-115 | the inner loop adds each ghost's colour times its coverage to the pixel, in list order |
| Operators.ShadeColor | operators.py:101-115 | the pixel's colour is the flare colour times flare value and intensity, plus the ghosts' light |
| Operators.StorePixel | operators.py:102-104 | only the three colour slots of pixel i are written |
| Operators.RenderCpu | operators.py:82-119 | a zero height raises division by zero; otherwise the loop leaves exactly the CPU image in the buffer |
| Operators.ExecuteChecks | operators.py:67-79 | a failing camera lookup cancels with its message before the image is checked; a missing image cancels with "No image selected"; nothing is written in either case; otherwise a run finishes iff it draws the cross or the image has rows, and then writes a full max_x * max_y * 4 buffer |
| Operators.ExecuteDebugDrawsCross | operators.py:78-79 | with the debug flag the written pixels are the debug cross around (int(max_x*posx), int(max_y*posy)) |
| Operators.Execute | operators.py:62-132 | the render operator's outcome, report and written pixels are those above, and the blades slot changes only through the getter |

## Left out

- shaders.py: the GLSL programs are floating-point shading on the GPU, so the pixels the GPU passes produce are not computed. Each draw is an event of the trace.
- The GPU calls themselves are reduced to trace events. Shader compilation, matrix push/pop, the identity matrix loads, the texture unit selection and the blend-function arguments are not separate events. The texture binding is one `BindGhostTexture` event.
- Ogl.BatchFromBlades: vertices are kept as angles (`Rim(degrees)`), not as cos/sin coordinates. Repeatedly rotating a float vector accumulates rounding; the model uses the exact angle k * 360 / blades.
- The flare axis normalisation by a square root (ogl.py:28-31) is left out. The normalised axis is a parameter of `RenderLensFlare`, and `GhostPlacement` holds for any axis.
- `compute_flare_intensity` (image_processing.py:4-9) is a float square root. The CPU loop takes its value per pixel as the parameter `flare`.
- Floating point in general: all arithmetic is on exact reals. Summation order and rounding of the CPU pixel values are therefore not modelled.
- Timing reports, `props.image.update()`, the compositor refresh `bpy.ops.render.render` and the assignment to `props.image.pixels` are host I/O. The model returns the pixels written instead.
- Operators.CameraSettings: the lookup `bpy.data.cameras[camera.name]` is not modelled. The active camera's aperture is passed in directly, so a camera whose data block is named differently is not covered.
- Python's exception objects are reduced to their message strings. The OpenGL renderer's division by a zero height is the result `ZeroHeight`.
- Blender does not enforce the declared property ranges (properties.py:30-43) in the model. Properties.NextBlades states the 0..16 result only for inputs within the declared range.
- ogl.py reads settings that properties.py does not declare (`camera`, `flare`, `position_x` and `position_y` where the group declares `posx` and `posy`, and the ghost fields `perpendicular_offset`, `intensity`, `dispersion` and `transparent_center`). The renderer therefore takes its own record, `RenderParams`, instead of the property group.
- panels.py (UI layout) and `__init__.py` (registration, previews) are not part of this model.
