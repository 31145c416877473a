# SpaceTravel renderer core in Dafny

SpaceTravel is a small real-time software renderer of a solar system. The
model covers three parts of it:

- **The camera state machine** (`src/camera.rs`). The camera is a record with
  an eye, a center, an up vector, yaw, pitch and roll, a `has_changed` dirty
  flag, a `bird_eye_active` mode flag and a saved-state slot. Its operations
  orbit, zoom, translate, re-aim, clamp angles and switch to fixed framings.
- **The render pipeline** (`src/main.rs`). `render` runs four stages in turn:
  - the vertex stage;
  - primitive assembly into triangles;
  - rasterization;
  - the bounds-filtered fragment loop that calls `framebuffer.point`.

  Around `render` the model also covers the viewport matrix, the per-frame
  orbital update with its 100-entry trail histories, the trail-drawing loop
  and the `render_orbit` ring.
- **The shaders** (`src/shaders.rs`). This covers the vertex shader (its
  perspective divide and its normal matrix with an identity fallback), the
  `fragment_shader` dispatch over planet types, the 50/50 layer blend, and
  the sun, earth, cloud, cloud-planet, moon and trail shaders.

The model is organised as follows:

- Every `f32` is a Dafny `real`.
- `sin`, `cos`, `atan2`, `sqrt` and the reciprocal length used by
  `normalize` are fields of a `Trig` record that each operation receives as
  a parameter. They are uninterpreted, so nothing depends on their values.
  Where a property needs more, the lemma says what it assumes:
  - `Pythagorean`: sin² + cos² = 1, and `sqrt` is a true square root;
  - `HomogeneousLength`: scaling a vector by k > 0 divides its reciprocal
    length by k.
- Noise is represented by the two sampling functions in `Uniforms`.
- `Color` is a free term algebra over `Rgb`, `lerp` and scaling. The file
  `color.rs` is not part of this model, so a shader's result is stated as
  the exact expression it builds.
- The renderer mutates values in place. The model writes each operation as a
  pure function from the old value to the new one.

Modules, one file each:

- `Base` (`base.dfy`): Option, `f32::clamp`, the saturating `as usize` and
  `as u8` casts, checked `usize` subtraction, and `%` by a full turn.
- `LinAlg` (`linalg.dfy`): vectors, 3×3 and 4×4 matrices, and the cofactor
  inverse.
- `CameraModel` (`camera.dfy`): the camera.
- `Shaders` (`shaders.dfy`): vertex and fragment shaders.
- `Pipeline` (`pipeline.dfy`): `render` and the viewport.
- `Scene` (`scene.dfy`): the bodies, the orbital update, trails and orbit
  rings.

## Model

| member | source | states |
|---|---|---|
| Base.Clamp | src/camera.rs:108 | `f32::clamp` keeps values inside the bounds, fixes values already inside, and sends values below or above to the nearer bound; `lo > hi` is excluded because Rust panics on it |
| Base.ClampIdempotent | src/camera.rs:147-148 | clamping twice equals clamping once, and the clamped value is no farther from the input than one of the bounds |
| Base.AsUsize | src/main.rs:178-179 | `as usize` saturates: a value below 1 gives 0, a value past `usize::MAX` gives `usize::MAX`, and anything between truncates to an integer within one of the input |
| Base.AsU8 | src/shaders.rs:83-84 | `as u8` saturates into 0..255 and truncates in between |
| Base.AsU8Monotone | src/shaders.rs:83-84 | the saturating byte cast never maps a larger input to a smaller byte |
| Base.UsizeSub | src/main.rs:404 | `usize` subtraction succeeds exactly when the subtrahend is not larger; the difference then adds back to the minuend |
| Base.WrapTurn | src/camera.rs:53 | `% (2.0 * PI)` on floats keeps the dividend's sign, lies strictly within one turn, and differs from the input by a whole number of turns |
| LinAlg.TryInverse3 | src/shaders.rs:35 | `try_inverse` fails exactly when the determinant is zero; otherwise the result is a right inverse |
| LinAlg.MulVec4Assoc | src/shaders.rs:19 | applying a matrix product to a vector applies the right factor first |
| LinAlg.InverseIsRightInverse | src/shaders.rs:35 | the scaled cofactor matrix multiplies the original back to the identity |
| LinAlg.Transpose3 | src/shaders.rs:35 | the transpose swaps every row and column entry |
| CameraModel.New | src/camera.rs:17-29 | a new camera has the given framing, zero angles, the changed flag raised, bird's-eye mode off and no saved state |
| CameraModel.LocalAxesOfAngles | src/camera.rs:120-134 | `get_forward`, `get_right` and `get_local_axes` depend only on yaw, pitch and the up vector, not on the eye, the center or the roll |
| CameraModel.Right | src/camera.rs:132-134 | `get_right` is orthogonal to both the forward direction and the up vector |
| CameraModel.LocalAxes | src/camera.rs:203-208 | the first two local axes are `get_forward` and `get_right`, and the three axes are pairwise orthogonal |
| CameraModel.NormalizedCross | src/camera.rs:205-206 | a normalised cross product is orthogonal to both of its factors |
| CameraModel.OrbitAngles | src/camera.rs:48-54 | the new yaw lies strictly within one turn and the new pitch within `[-PI/2 + 0.1, PI/2 - 0.1]` |
| CameraModel.Orbit | src/camera.rs:44-64 | the new eye is the center plus the spherical offset of the current eye-to-center radius at the wrapped yaw and clamped pitch of OrbitAngles; orbit writes only the eye and raises the changed flag, leaving center, up, angles, mode flag and saved state untouched |
| CameraModel.OrbitPreservesRadius | src/camera.rs:45-62 | given sin² + cos² = 1 and a true square root, orbit keeps the eye's distance from the center |
| CameraModel.SphereOffsetLength | src/camera.rs:56-60 | the spherical-to-Cartesian offset has length equal to the radius |
| CameraModel.Zoom | src/camera.rs:66-70 | zoom writes only the eye and raises the changed flag, and the eye moves along the line through the center |
| CameraModel.ZoomShrinks | src/camera.rs:67-68 | after zoom the center-to-eye vector is the old one scaled by one minus the covered fraction |
| CameraModel.ZoomRoundTrip | src/camera.rs:66-70 | zooming by `delta` and then by `-delta` restores the camera except for the raised changed flag, provided the first step stops short of the center |
| CameraModel.MoveCenter | src/camera.rs:72-75 | eye and center both move by the vector, so `center - eye` is unchanged, and nothing else changes, the changed flag included |
| CameraModel.MoveCenterInverse | src/camera.rs:72-75 | moving by `v` and then by `-v` restores the camera exactly |
| CameraModel.MoveCenterKeepsAligned | src/camera.rs:72-75 | a translation keeps the center one forward step ahead of the eye, if it was |
| CameraModel.CheckIfChanged | src/camera.rs:77-84 | it returns the old changed flag and leaves the flag lowered, touching nothing else |
| CameraModel.CheckTwice | src/camera.rs:77-84 | two checks in a row return the old flag and then `false` |
| CameraModel.UpdateCenter | src/camera.rs:86-89 | only the center is written, and afterwards it is one forward step ahead of the eye |
| CameraModel.MoveForward | src/camera.rs:91-95 | the eye moves by `amount` along the forward direction, the center follows, and nothing else changes |
| CameraModel.MoveUp | src/camera.rs:97-100 | the eye moves by `amount` along the stored up vector, the center follows, and the bird's-eye flag is not consulted |
| CameraModel.MoveUpInverse | src/camera.rs:97-100 | rising by `amount` and then by `-amount` restores an aligned camera exactly |
| CameraModel.RotateYaw | src/camera.rs:102-105 | the yaw grows by the angle without a clamp, and the center is re-aimed |
| CameraModel.RotatePitch | src/camera.rs:107-110 | the pitch is the clamped sum, within `[-PI/2 + 0.1, PI/2 - 0.1]`, and equals the sum when that is in range; the center is re-aimed |
| CameraModel.SetBirdEyeView | src/camera.rs:112-118 | fixed framing (0,1200,800), looking at the origin, with up = +y; the mode flag and changed flag are raised; the angles and saved state are kept |
| CameraModel.SetNormalView | src/camera.rs:136-140 | fixed framing (0,0,10), looking at the origin; neither flag changes, so bird's-eye mode is not left |
| CameraModel.UpdateRotation | src/camera.rs:142-149 | roll and pitch are accumulated and clamped to `[-PI/4, PI/4]`: an in-range sum is kept, a sum below lands on `-PI/4`, a sum above on `PI/4`; yaw is accumulated without a clamp; nothing else changes |
| CameraModel.ResetRotation | src/camera.rs:151-155 | all three angles become zero and nothing else changes |
| CameraModel.ResetForgetsRotation | src/camera.rs:142-155 | a reset after any rotation update gives the same camera as a reset alone |
| CameraModel.MoveCamera | src/camera.rs:157-178 | in bird's-eye mode the camera is returned unchanged; otherwise only the eye and the three angles change, and the eye lands where the drift step puts it |
| CameraModel.Drift | src/camera.rs:163-171 | the eye moves by forward times time, plus right times roll times time, plus pitch times time upward, all taken from the angles before the call; yaw and pitch gain rate times time; nothing else changes |
| CameraModel.MoveCameraAngles | src/camera.rs:170-177 | zero deltas reset all three angles; other deltas apply yaw and pitch twice (`yaw + dy*dt + dy`, `clamp(pitch + dp*dt + dp)`), set roll to `clamp(roll + dr)` and keep roll and pitch within `[-PI/4, PI/4]` |
| CameraModel.MoveCameraEye | src/camera.rs:163-168 | outside bird's-eye mode the eye moves by the OLD angles, whatever the deltas: forward times time, right times roll times time, pitch times time on y |
| CameraModel.MoveAndRotate | src/camera.rs:179-201 | the yaw grows by rate times time; pitch becomes `clamp(pitch + rate*dt)` within `[-PI/2 + 0.1, PI/2 - 0.1]` and roll `clamp(roll + rate*dt)` within `[-PI/4, PI/4]`; the eye moves along the local axes of the NEW angles by the three inputs times time, plus a forward drift of the new roll times time; the center ends one forward step ahead of the eye; the flags are not consulted |
| CameraModel.DriftEye | src/camera.rs:166-168 | the three eye steps of `move_camera` add up to forward times time, right times roll times time, and pitch times time on y |
| CameraModel.FlyEye | src/camera.rs:191-197 | the four eye steps of `move_and_rotate` add up to each local axis times its input times time, plus forward times roll times time |
| CameraModel.ApplyModeFlags | src/camera.rs:112-118 | no operation writes the saved state, none lowers the bird's-eye flag, and only `set_bird_eye_view` raises it |
| CameraModel.RunModeFlags | src/camera.rs:116 | over any sequence of operations the saved state stays as it was, and once raised the bird's-eye flag stays raised |
| CameraModel.BirdEyeFreezesMoveCamera | src/camera.rs:159-161 | after `set_bird_eye_view`, whatever follows, `move_camera` is a no-op |
| CameraModel.NavigationIgnoresBirdEye | src/camera.rs:72-110 | in bird's-eye mode `move_center` by a non-zero vector, and a `rotate_pitch` whose clamped value differs, still change the camera |
| Shaders.PerspectiveDivide | src/shaders.rs:22-28 | the divided point lies on the `w = 1` plane, and multiplying it by `w` gives back the clip coordinates |
| Shaders.ClipPosition | src/shaders.rs:13-19 | the product `projection * view * model` moves the point exactly as applying model, then view, then projection does |
| Shaders.PerspectiveDivideHomogeneous | src/shaders.rs:22-28 | scaling the clip coordinates by a non-zero factor does not change the divided point |
| Shaders.NormalMatrix | src/shaders.rs:34-35 | the transposed upper 3×3 of the model times the normal matrix is the identity when that 3×3 is invertible; otherwise the normal matrix is the identity |
| Shaders.VertexShader | src/shaders.rs:11-48 | position, normal, texture coordinates and color are carried through unchanged; the transformed position is the x, y, z of the viewport matrix applied to the perspective-divided clip position; the transformed normal is the normal matrix applied to the normal |
| Shaders.VertexShaderReadsOnlyGeometry | src/shaders.rs:13-37 | the transformed fields depend only on the position and normal, not on the texture coordinates, color or old transformed fields |
| Shaders.VertexShaderProjective | src/shaders.rs:19-31 | uniforms whose clip coordinates differ by a non-zero factor produce the same vertex |
| Shaders.BlendLayers | src/shaders.rs:91-93 | the blend is the 50% lerp from the base to the overlay |
| Shaders.CloudShader | src/shaders.rs:95-118 | the color is white exactly when the drifting noise sample exceeds 0.5, sky blue (30,97,145) otherwise, scaled by the intensity |
| Shaders.CloudDrift | src/shaders.rs:101-103 | two time steps later the clouds look as they did 0.01 units further along x |
| Shaders.MoonShader | src/shaders.rs:297-319 | the base is crater gray (150) exactly when the noise exceeds 0.5, moon gray (200) otherwise; it is lerped towards white by the time tint and scaled by the intensity |
| Shaders.MoonTintBounded | src/shaders.rs:315 | with sin in [-1, 1], the tint lies in [-0.1, 0.1] |
| Shaders.ObjectSpaceShaders | src/shaders.rs:99-103 | the cloud and moon shaders read only the object-space x and y and the intensity |
| Shaders.EarthShader | src/shaders.rs:321-356 | the base is land exactly when the coarse noise exceeds 0.5, water otherwise. The island layer is green exactly when the fine noise exceeds 0.5, black otherwise. The result is base lerped half with the cloud layer, then half with the island layer, scaled by the intensity |
| Shaders.SunShader | src/shaders.rs:257-295 | burnt orange lerped towards yellow with weight exactly the mean of the two noise samples at the pulsating position (SunNoise), which lies in [-1, 1] when the noise does, scaled by the intensity |
| Shaders.CloudLayer | src/shaders.rs:383-391 | a layer applies only above its threshold, lerps towards its color with weight exactly (noise - threshold) / (1 - threshold), which lies in (0, 1] for noise up to 1, and keeps the base color |
| Shaders.LayerWeightInRange | src/shaders.rs:384 | the rescaled excess over the threshold is positive, and at most 1 for noise at most 1 |
| Shaders.CloudPlanetShader | src/shaders.rs:359-395 | the stacked cloud color is scaled by the intensity |
| Shaders.CloudPlanetLayers | src/shaders.rs:381-391 | every fragment starts from sky blue (135,206,235) and carries at most three layers |
| Shaders.CloudPlanetClearSky | src/shaders.rs:381-394 | with all three samples at or below their thresholds the fragment is plain sky blue times the intensity |
| Shaders.TrailIntensity | src/shaders.rs:81 | the trail intensity is non-negative and zero exactly when the height or the time sine is zero |
| Shaders.TrailEffect | src/shaders.rs:79-87 | blue is always 200; red and green are the intensity times 255 and times 100 under the saturating byte cast |
| Shaders.TrailEffectShape | src/shaders.rs:82-86 | red is never below green, red saturates at intensity 1, and a zero height or zero sine gives (0,0,200) |
| Shaders.TrailEffectSymmetric | src/shaders.rs:81 | mirroring the fragment's height does not change the trail effect |
| Shaders.TrailIntensityEven | src/shaders.rs:81 | the intensity is even in the height |
| Shaders.FragmentShader | src/shaders.rs:50-76 | the match is total. Sun, cloud planet and moon go to their shaders; earth and trail are 50/50 blends; the spaceship is gray (192,192,192); an unlisted type is black; the palette shaders are left abstract |
| Shaders.FragmentShaderConstantArms | src/shaders.rs:70-74 | the spaceship and unlisted arms ignore the fragment, the uniforms and the other shaders |
| Shaders.EarthCloudsTwice | src/shaders.rs:54-58 | an earth fragment mixes in the cloud layer twice, once inside `earth_shader` and once in the dispatch, giving three lerp layers |
| Pipeline.ViewportMap | src/main.rs:141-148 | the viewport matrix sends x in [-1,1] affinely onto [0,width], flips y onto [height,0] and passes z through |
| Pipeline.ViewportMatrix | src/main.rs:141-148 | no contract of its own: the entries of `create_viewport_matrix`, whose action `ViewportMap` states |
| Pipeline.VertexOnScreen | src/shaders.rs:21-31 | with the viewport matrix of a `width` by `height` framebuffer, a vertex lands at `((x + 1) * width / 2, (1 - y) * height / 2, z)` of its device coordinates |
| Pipeline.ViewportCorners | src/main.rs:141-148 | the device corner (-1, 1) maps to pixel (0, 0) and the corner (1, -1) to (width, height) |
| Pipeline.ViewportInverse | src/main.rs:141-148 | for a non-degenerate viewport the screen-to-device map undoes the matrix, in both orders |
| Pipeline.ShadeAll | src/main.rs:152-156 | the vertex stage yields one vertex per input vertex |
| Pipeline.VertexStage | src/main.rs:152-156 | output `i` is the vertex shader applied to input `i`, in order, with position and color carried through |
| Pipeline.Triangles | src/main.rs:159-168 | there are `len / 3` triangles |
| Pipeline.AssemblePrimitives | src/main.rs:159-168 | the loop with stride 3 and its `i + 2 < len` guard yields `len / 3` triangles, triangle `k` holding vertices `3k`, `3k+1`, `3k+2` |
| Pipeline.Flatten | src/main.rs:162-166 | flattening yields three vertices per triangle |
| Pipeline.Rasterize | src/main.rs:170-174 | a single triangle rasterizes to its own fragments, and no triangle yields more fragments than the whole list holds |
| Pipeline.FlattenTriangles | src/main.rs:159-168 | the triangles hold exactly the input vertices, in order, up to the largest multiple of three; a trailing partial group is dropped |
| Pipeline.RasterizeAppend | src/main.rs:171-174 | rasterizing a concatenation concatenates the fragment lists |
| Pipeline.RasterizeOrigin | src/main.rs:171-174 | every fragment comes from one of the triangles |
| Pipeline.Writes | src/main.rs:177-187 | there are no more point calls than fragments, and every call is inside the framebuffer |
| Pipeline.WritesAppend | src/main.rs:177-187 | the fragment loop distributes over concatenation |
| Pipeline.WritesExactly | src/main.rs:177-187 | a fragment is plotted if and only if its truncated pixel is inside the framebuffer |
| Pipeline.WritesAllOrNothing | src/main.rs:180 | if every fragment is in bounds each one is plotted in order; if none is, nothing is plotted |
| Pipeline.WritesShadeOnlyInBounds | src/main.rs:180-182 | the shader is consulted only for in-bounds fragments, so shaders that agree there give the same output |
| Pipeline.LeftOfScreenPlotsColumnZero | src/main.rs:178-180 | any fragment with x < 1, including off-screen negative x, lands in column 0 and is plotted there |
| Pipeline.Render | src/main.rs:150-188 | every point call of `render` is inside the framebuffer, and there are no more calls than rasterized fragments |
| Pipeline.RenderOrigin | src/main.rs:150-188 | every point call comes from an in-bounds fragment of some assembled triangle, at its truncated pixel and with the fragment-shader color |
| Scene.FindEarth | src/main.rs:335-338 | with no Earth in the list, the origin is returned |
| Scene.FindEarthFirst | src/main.rs:335-338 | `find` returns the position of the first Earth |
| Scene.FindEarthFrom | src/main.rs:335-338 | a scan that meets no Earth from its start index on returns the origin |
| Scene.FindEarthFromFirst | src/main.rs:335-338 | a scan stops at the first Earth at or after its start index |
| Scene.InitialWorld | src/main.rs:239-338 | the initial world has nine bodies, the sun first, Earth at index 3 and the moon at index 8; every angle and the moon angle start at zero, every history starts empty, and Earth starts at (12,0,0) |
| Scene.PushTrail | src/main.rs:367-384 | the new position ends the history. A short history just grows; a full one drops its oldest entry, so at most 100 entries are kept |
| Scene.PushWindow | src/main.rs:367-384 | pushing onto the last-100 window of a sequence gives the window of the extended sequence |
| Scene.TrailWindow | src/main.rs:367-384 | from a history of at most 100, any run of pushes leaves exactly the last 100 positions pushed, in FIFO order |
| Scene.MovedBodies | src/main.rs:354-379 | only positions are written, so type, scale and rotation are kept; the sun stays put; the moon is placed around the anchor; every other body moves onto its orbit |
| Scene.AdvancedAngles | src/main.rs:360-373 | the sun's angle is kept and every other angle grows by exactly `0.01 / radius`, a strict increase since every radius is positive |
| Scene.PushedHistories | src/main.rs:355-367 | the sun's history is kept and every other history has the body's pre-update position pushed |
| Scene.Orbited | src/main.rs:354-373 | the sun stays put; every other body moves to radius·(cos, sin) of its angle and keeps its height |
| Scene.Advance | src/main.rs:354-388 | sun skipped; only positions of bodies change; every other body pushes its old position, moves on its orbit and advances its angle by `0.01 / radius`; the moon is placed around the anchor; the moon angle grows by 0.05 |
| Scene.UpdateAsWritten | src/main.rs:334-388 | one frame with the moon anchored at Earth's starting position keeps the world well formed and every body's type |
| Scene.EarthAfterOrbitFirst | src/main.rs:335-338 | the corrected anchor is the orbit position of the first Earth in the list |
| Scene.EarthAfterOrbitIsFind | src/main.rs:335-338 | the corrected anchor equals `find` run over the bodies after the orbital step |
| Scene.EarthAfterOrbit | src/main.rs:335-338 | no contract of its own: the corrected anchor, the first Earth's post-orbit position; its value is stated by `EarthAfterOrbitFirst`, `EarthAfterOrbitNone` and `EarthAfterOrbitIsFind` |
| Scene.EarthAfterOrbitNone | src/main.rs:335-338 | with no Earth left to scan, the anchor falls back to the origin as `unwrap_or` does |
| Scene.Update | src/main.rs:354-388 | one frame with the moon anchored at Earth's current position keeps the world well formed and every body's type |
| Scene.RunAsWritten | src/main.rs:340-388 | any number of frames as written keeps the world well formed |
| Scene.Run | src/main.rs:340-388 | any number of corrected frames keeps the world well formed |
| Scene.AdvanceKeepsTrailInvariant | src/main.rs:355-384 | one frame keeps every history at no more than 100 entries and the sun's history empty |
| Scene.RunKeepsTrailInvariant | src/main.rs:355-384 | every corrected frame keeps every history at no more than 100 entries and the sun's history empty |
| Scene.RunAsWrittenKeepsTrailInvariant | src/main.rs:355-384 | every frame as written keeps every history at no more than 100 entries and the sun's history empty |
| Scene.InitialTrailInvariant | src/main.rs:312-332 | all nine histories start empty and all nine angles at zero, so the trail invariant holds before the first frame |
| Scene.RunKeepsKinds | src/main.rs:354-385 | the corrected run never changes a body's type |
| Scene.RunAsWrittenKeepsKinds | src/main.rs:354-385 | the run as written never changes a body's type |
| Scene.CircleLength | src/main.rs:378 | the moon offset (r cos a, 0, r sin a) has length r |
| Scene.MoonPlacedAroundEarth | src/main.rs:376-379 | with the corrected anchor the moon is placed on its circle around Earth's new position |
| Scene.MoonFollowsEarth | src/main.rs:376-379 | with the corrected anchor the moon stays 0.5 from Earth every frame |
| Scene.MoonLeftBehind | src/main.rs:335-379 | as written, after the first frame Earth is at (20,0,0) but the moon is at (12.5,0,0) |
| Scene.MoonGapAfterFirstFrame | src/main.rs:335-379 | as written, the moon ends the first frame 7.5 units from Earth instead of 0.5 |
| Scene.DrawTrail | src/main.rs:404-408 | a history of n > 0 points draws n−1 segments joining consecutive points, end to start, and an empty one draws nothing |
| Scene.DrawTrailAsWritten | src/main.rs:404-408 | the loop as written underflows exactly on an empty history; otherwise it draws the consecutive segments |
| Scene.TrailsAsWritten | src/main.rs:391-409 | a frame's trails fail exactly when some history is empty, and otherwise draw each history's trail |
| Scene.Trails | src/main.rs:391-409 | the corrected trails draw every history's segments, and nothing for an empty history |
| Scene.TrailsAgree | src/main.rs:404-408 | when no history is empty the as-written and corrected trails coincide |
| Scene.SunTrailUnderflows | src/main.rs:355-404 | the sun's history is empty in every frame, so the trail drawing as written fails in every frame |
| Scene.SunDrawsNoTrail | src/main.rs:355-408 | with the corrected update and drawing, the sun's history stays empty and it draws no segments |
| Scene.RenderOrbit | src/main.rs:483-495 | one segment per ring point; segment `i` starts at point `i` and ends where segment `(i+1) % n` starts, closing the ring |
| Scene.RingOnCircle | src/main.rs:486-489 | every ring point lies in the `y = 0` plane on the circle of the given radius |
| Scene.OrbitOnRing | src/main.rs:369-370 | a planet moved by the update lies on the ring of its orbit radius in the orbital plane, at its own height |

## Left out

- The window, key polling in `handle_input`, the frame loop's timing and `update_with_buffer` are I/O glue. The model only keeps what one frame computes.
- Noise generator construction and the `FastNoiseLite` internals are left out. The noise samples are uninterpreted functions.
- `create_model_matrix`, `create_view_matrix`/`look_at` and `perspective` are not modelled. They are float trig and matrix products. The vertex shader takes the matrices as given.
- `basis_change` is left out: it is called nowhere in the modelled core.
- Float rounding, NaN and infinities are not modelled. Every `f32` is a real, and every trig function is uninterpreted.
- `color.rs`, including `lerp`'s clamping, scaling and `to_hex`, is not part of this model. Colors are symbolic expressions.
- The rocky, crystal, fire, water and asteroid shaders are left out. They are noise-driven palette arithmetic, including a foreign seeded RNG in the water shader, and `fragment_shader` receives them as the `others` parameter.
- `gaseous_planet_shader` is left out: it is never dispatched.
- `normal_map.rs` is left out: it does image-file I/O through a global, and its module is commented out of the build.
- `triangle.rs` and `framebuffer.rs` are not part of this model. Rasterization is a parameter `raster` from triangle to fragments, and `framebuffer.point` is recorded as a `PointCall`. Depth testing, `line` and `clear` are not modelled.
- The skybox and the camera-to-uniforms wiring in the frame loop are not modelled.
- Snapshot and restore of the camera on leaving bird's-eye mode, and the gating of all navigation in that mode, are not implemented in `src/camera.rs`. The model proves the opposite: the saved state is never written, the flag is never cleared, and only `move_camera` checks it.
- The `u32` frame counter's overflow is not modelled. `Uniforms.time` is bounded to `u32`, and `CloudDrift` requires that two more steps stay in range.
- Shaders.PerspectiveDivide: requires `w != 0`, because on `f32` a zero `w` produces infinities or NaN, which reals cannot represent.
- Shaders.VertexShader: requires a non-zero clip `w`, for the same reason.
- Pipeline.ShadeAll: requires a non-zero clip `w` for every vertex, for the same reason.
- Pipeline.VertexStage: requires a non-zero clip `w` for every vertex, for the same reason.
- Pipeline.Render: requires a non-zero clip `w` for every vertex, for the same reason.
- CameraModel.Zoom: the eye is only stated to move along the eye-to-center line by some factor. The factor is `delta` times the uninterpreted reciprocal length.
- CameraModel.OrbitPreservesRadius: assumes sin² + cos² = 1 and a true square root. The source relies on the float library for both.
- CameraModel.ZoomRoundTrip: assumes `normalize` is homogeneous under positive scaling, which float `normalize` is only approximately.
- Shaders.CloudPlanetShader: its contract only fixes the outer scaling. The layer structure is stated by `Shaders.CloudPlanetLayers` and `Shaders.CloudPlanetClearSky`.
- Scene.UpdateAsWritten: its contract only keeps the world well formed and the types unchanged. The body-by-body effect is stated on `Scene.Advance`, which both updates share.
- Scene.Update: its contract only keeps the world well formed and the types unchanged. The body-by-body effect is stated on `Scene.Advance`.
- Scene.Run: its contract only keeps the world well formed. Its other invariants are the `Scene.RunKeeps…` lemmas.
- Scene.RunAsWritten: its contract only keeps the world well formed. Its other invariants are the `Scene.RunAsWrittenKeeps…` lemmas.
- Scene.FindEarth: its contract only states the no-Earth case. The case with an Earth is stated by `Scene.FindEarthFirst`.
- The 0.01 rotation added to each body's model matrix per frame is not modelled: it only feeds `create_model_matrix`.
- The source writes in place, while the model returns new values.

## Findings

| source | as written | input that shows it | evidently intended | confidence | as-written member | corrected member |
|---|---|---|---|---|---|---|
| src/main.rs:404 | `for j in 0..previous_positions[i].len() - 1` subtracts on `usize`. The sun is skipped by the update (src/main.rs:355-357), so its history is always empty. A debug build panics with an overflow; a release build wraps to `usize::MAX` and spins through a loop whose guard never holds | the initial world in any frame: body 0 (the sun) has an empty history | draw `len - 1` segments when the history is non-empty, and nothing otherwise; `Scene.TrailsAgree` shows the two agree on non-empty histories, and `Scene.SunDrawsNoTrail` shows the sun then draws nothing | not executed | Scene.TrailsAsWritten | Scene.Trails |
| src/main.rs:335-338 | the Earth's position is captured once, before the frame loop, and the moon is placed around that point every frame (src/main.rs:378); `Scene.MoonGapAfterFirstFrame` exhibits the gap | first frame from the initial world, with cos 0 = 1 and sin 0 = 0: Earth moves to (20,0,0) while the moon is at (12.5,0,0), 7.5 units away | the moon circles the Earth's current position at radius 0.5, as `Scene.MoonFollowsEarth` proves for the corrected update | not executed | Scene.UpdateAsWritten | Scene.Update |
