# Pixelate and Dither Down: two URP post-processing effects, modelled in Dafny

The system is a pair of Universal Render Pipeline renderer features for a
Unity scene.

- **Pixelate** copies the camera image into a temp texture whose sides are
  the camera's sides divided by `pixelSize`, rounded down, then copies it
  back at full size. The image is therefore shown in blocks of roughly
  `pixelSize` pixels, exactly `pixelSize` when a side is a multiple of it;
  how Blit samples the texture is not part of this model.
- **Dither Down URP** gives a material four inputs: the dithering amount,
  the number of colour levels, the downsampling factor and an ordered-dither
  threshold texture. It then copies the camera image into a full-resolution
  temp texture and draws it back through that material.

Each feature has a volume component that holds its settings. The component
decides whether the effect is active.

The model has these parts:

- `wrappers.dfy`: `Option` for C# null, plus `Outcome` and `Result` for
  calls that may throw.
- `rendering.dfy`: the Unity rendering API, reduced to values, and the
  `CommandLog`. Every engine call a pass makes is appended to this log as an
  `Event`: enqueueing a pass, reallocating the temp texture, taking a
  command buffer from the pool, setting a material property, a profiling
  sample, a blit, submitting the buffer, destroying a material, releasing a
  handle, logging an error. It also holds the shape that both passes' Execute
  share: `PooledCommandBuffer` (take a buffer, record a profiled body, submit
  it), with lemmas about its blits, its profiling scope, the order of
  material settings and the return of the buffer to the pool.
- `volume_parameters.dfy`: clamped int and float volume parameters. Their
  setter clamps the value into the parameter's range.
- `dither_down_urp_settings.dfy` and `pixelate_settings.dfy`: the two volume
  components, as values.
- `bayer.dfy`: the recursive Bayer index matrix of order 2^k. It is proved
  a bijection from cells onto `0 .. 4^k − 1`, with an explicit inverse.
- `dither_textures.dfy`: the threshold-texture generator with its four
  literal tables. It also holds the reference they are checked against: the
  index matrix of each order, scaled by `floor(k·255/(N²−1))`. The reference
  is the Bayer matrix for N = 2 and 4, the transposed Bayer matrix for N = 8,
  and the usual 3×3 matrix `[[0,7,3],[6,5,2],[4,1,8]]`. Each table is proved
  equal to its reference cell by cell. From that, each table is proved to be
  a permutation of the N² evenly spaced levels that contains 0 and 255.
- `pixelate.dfy` and `dither_down_urp.dfy`: the passes and the features, as
  classes. Their fields are the ones the C# classes update: settings, temp
  descriptor, temp handle, material and the feature's `pass`. Each method
  states its new state and the events it appends. Those events are given by
  specification functions, and the lemmas beside them state what the
  functions guarantee.

## What the code does and does not do

- The code does not raise the temp texture's sides to at least 1. A camera side
  shorter than `pixelSize` gives a side of 0 (`TempDescriptorMayBeEmpty`).
- The code does not cache the threshold texture. Every active Execute that has a
  material calls the generator again. The `SetTexture` event carries the
  generated table each time.
- The generator returns null for a dither type outside the four enum cases;
  it raises no error and does not substitute the 2×2 table.
- Configure calls the reallocation routine on every call that has settings.
  It does not call it only when the size has changed. Whether the routine
  actually reallocates is Unity's business, and the model records only the
  descriptor it is called with.
- The 3×3 table is the usual 3×3 ordered-dither matrix
  `[[0,7,3],[6,5,2],[4,1,8]]`, and the 8×8 table is the transposed order-8
  Bayer matrix, each scaled to 0..255.

## Model

| member | source | states |
|---|---|---|
| `DitherTextures.GenerateDitherTexture` | forager/Assets/Post-Processing/DitherDownURP/DitherDownURP.cs:121-170 | returns a texture exactly for the four named types and null for every other enum value; the texture is N×N, R8, without mipmaps, linear, with N·N bytes, N ∈ {2,3,4,8} matching the type |
| `DitherTextures.Pattern2x2MatchesReference` | forager/Assets/Post-Processing/DitherDownURP/DitherDownURP.cs:123-129 | the 2×2 table is the Bayer matrix [[0,2],[3,1]] times 85, row by row |
| `DitherTextures.Pattern3x3MatchesReference` | forager/Assets/Post-Processing/DitherDownURP/DitherDownURP.cs:131-139 | the 3×3 table is the matrix [[0,7,3],[6,5,2],[4,1,8]] scaled by floor(k·255/8), row by row |
| `DitherTextures.Pattern4x4MatchesReference` | forager/Assets/Post-Processing/DitherDownURP/DitherDownURP.cs:141-150 | the 4×4 table is the order-4 Bayer matrix times 17, row by row |
| `DitherTextures.Pattern8x8MatchesReference` | forager/Assets/Post-Processing/DitherDownURP/DitherDownURP.cs:152-167 | the 8×8 table is the transposed order-8 Bayer matrix scaled by floor(k·255/63), row by row |
| `DitherTextures.ThresholdIndexBijective` | forager/Assets/Post-Processing/DitherDownURP/DitherDownURP.cs:123-167 | each order's index matrix maps its N² cells one-to-one onto 0..N²−1, with an explicit inverse |
| `DitherTextures.LevelStrictlyIncreasing` | forager/Assets/Post-Processing/DitherDownURP/DitherDownURP.cs:126-164 | the levels floor(k·255/(N²−1)) lie in 0..255 and strictly increase with k |
| `DitherTextures.LevelEnds` | forager/Assets/Post-Processing/DitherDownURP/DitherDownURP.cs:126-164 | the first level is 0 and the last is 255 |
| `DitherTextures.ReferenceIsLevelPermutation` | forager/Assets/Post-Processing/DitherDownURP/DitherDownURP.cs:123-167 | any table laid out by a reference matrix is a permutation of the N² levels: N² entries, pairwise distinct, every level present, 0 and 255 included |
| `DitherTextures.GeneratedTextureIsLevelPermutation` | forager/Assets/Post-Processing/DitherDownURP/DitherDownURP.cs:121-170 | every texture the generator returns matches its reference and is a permutation of the levels of its size containing 0 and 255 |
| `BayerMatrix.BayerBound` | forager/Assets/Post-Processing/DitherDownURP/DitherDownURP.cs:141-167 | every entry of the order-2^k Bayer matrix is below 4^k |
| `BayerMatrix.BayerInjective` | forager/Assets/Post-Processing/DitherDownURP/DitherDownURP.cs:141-167 | distinct cells of the Bayer matrix hold distinct entries |
| `BayerMatrix.BayerSurjective` | forager/Assets/Post-Processing/DitherDownURP/DitherDownURP.cs:141-167 | every value below 4^k appears in the Bayer matrix, at the cell given by the inverse |
| `DitherDownURPFeature.CastDitherType` | forager/Assets/Post-Processing/DitherDownURP/DitherDownURP.cs:83 | the cast keeps the underlying integer, maps each named case of the settings enum to the same-named case of the pass's enum, and maps unnamed values to unnamed values |
| `DitherDownURPFeature.TextureForSettings` | forager/Assets/Post-Processing/DitherDownURP/DitherDownURP.cs:83 | the texture handed to the material is non-null exactly for the four named settings values; it is then of side 2, 3, 4 or 8 in enum order, is a permutation of the levels, and contains 0 and 255 |
| `DitherDownURPFeature.TempDescriptor` | forager/Assets/Post-Processing/DitherDownURP/DitherDownURP.cs:57-58 | the temp descriptor keeps the camera's width and height and every other field, with no depth buffer |
| `DitherDownURPFeature.TempDescriptorIsUnitPixelate` | forager/Assets/Post-Processing/DitherDownURP/DitherDownURP.cs:57-58 | it is the pixelate rule at pixel size 1 |
| `DitherDownURPFeature.ExecuteWithoutMaterial` | forager/Assets/Post-Processing/DitherDownURP/DitherDownURP.cs:74-77 | with a null material Execute issues no blit, and the pooled command buffer is taken once and never released |
| `DitherDownURPFeature.ExecuteWithMaterial` | forager/Assets/Post-Processing/DitherDownURP/DitherDownURP.cs:74-99 | with a material: exactly two blits, camera → temp without a material and then temp → camera through material pass 0; dithering, levels, downsampling and the texture are all set before any blit; blits inside the profiling scope; the buffer is taken once and given back |
| `DitherDownURPFeature.DitherDownURPPass.constructor` | forager/Assets/Post-Processing/DitherDownURP/DitherDownURP.cs:34-40 | stores the material and settings, tag "DitherDownURP", event AfterRenderingPostProcessing, no temp handle |
| `DitherDownURPFeature.DitherDownURPPass.EnqueuePass` | forager/Assets/Post-Processing/DitherDownURP/DitherDownURP.cs:42-48 | enqueues the pass exactly when the settings are non-null and active, and does nothing else |
| `DitherDownURPFeature.DitherDownURPPass.Configure` | forager/Assets/Post-Processing/DitherDownURP/DitherDownURP.cs:50-65 | with null settings it changes nothing; otherwise it stores the temp descriptor, requests reallocation with exactly that descriptor, and leaves the handle allocated for it |
| `DitherDownURPFeature.DitherDownURPPass.Execute` | forager/Assets/Post-Processing/DitherDownURP/DitherDownURP.cs:67-100 | throws NullReferenceException with null settings, issues nothing when inactive, and otherwise issues exactly the events of ExecuteEvents |
| `DitherDownURPFeature.DitherDownURPPass.Dispose` | forager/Assets/Post-Processing/DitherDownURP/DitherDownURP.cs:102-117 | destroys the material, then releases the temp handle only when it is non-null |
| `DitherDownURPFeature.DitherDownURP.Create` | forager/Assets/Post-Processing/DitherDownURP/DitherDownURP.cs:177-190 | without the shader it logs the error and leaves pass and name as they were, so pass stays null on a first Create; with it, a fresh pass gets a material made from the shader, the settings, tag "DitherDownURP", event AfterRenderingPostProcessing, the default descriptor and no handle, and the name becomes "Dither Down URP" |
| `DitherDownURPFeature.DitherDownURP.AddRenderPasses` | forager/Assets/Post-Processing/DitherDownURP/DitherDownURP.cs:192-198 | non-game cameras enqueue nothing; for a game camera a null pass throws NullReferenceException, otherwise the pass enqueues itself exactly when its settings are non-null and active |
| `DitherDownURPFeature.DitherDownURP.Dispose` | forager/Assets/Post-Processing/DitherDownURP/DitherDownURP.cs:200-204 | throws NullReferenceException when the pass is null, otherwise disposes the pass |
| `PixelateFeature.TruncatedDiv` | forager/Assets/Post-Processing/Pixelate/Pixelate.cs:39-40 | C# integer division by a positive divisor: the floor quotient for a non-negative dividend, truncation toward zero for a negative one, never larger in magnitude than the dividend |
| `PixelateFeature.TempDescriptor` | forager/Assets/Post-Processing/Pixelate/Pixelate.cs:39-45 | depth buffer 0 and all other fields copied; for non-negative camera sides, each temp side is the largest t with t·pixelSize ≤ the camera side, so it is no larger than that side |
| `PixelateFeature.TempDescriptorUnitPixel` | forager/Assets/Post-Processing/Pixelate/Pixelate.cs:39-45 | at pixel size 1 the temp descriptor is the camera descriptor with depth 0 |
| `PixelateFeature.TempDescriptorMayBeEmpty` | forager/Assets/Post-Processing/Pixelate/Pixelate.cs:39-44 | a camera side shorter than the pixel size gives a temp side of 0, since there is no clamp to 1 |
| `PixelateFeature.TempDescriptorShrinks` | forager/Assets/Post-Processing/Pixelate/Pixelate.cs:39-40 | a larger pixel size never gives a larger temp texture |
| `PixelateFeature.ExecuteEventsShape` | forager/Assets/Post-Processing/Pixelate/Pixelate.cs:60-74 | when active, Execute issues exactly two material-less blits, camera → temp then temp → camera, inside the profiling scope; it sets no material property, and the buffer it takes is given back |
| `PixelateFeature.PixelateRenderPass.constructor` | forager/Assets/Post-Processing/Pixelate/Pixelate.cs:17-22 | stores the settings, tag "Pixelate", event BeforeRenderingPostProcessing, no temp handle; settings whose pixel size is in [1,256] leave the pass valid for Configure |
| `PixelateFeature.PixelateRenderPass.EnqueuePass` | forager/Assets/Post-Processing/Pixelate/Pixelate.cs:24-30 | enqueues the pass exactly when the settings are non-null and active |
| `PixelateFeature.PixelateRenderPass.Configure` | forager/Assets/Post-Processing/Pixelate/Pixelate.cs:32-50 | with null settings it changes nothing; otherwise it stores TempDescriptor(camera, pixelSize), requests reallocation with exactly that descriptor, and leaves the handle allocated for it |
| `PixelateFeature.PixelateRenderPass.Execute` | forager/Assets/Post-Processing/Pixelate/Pixelate.cs:53-75 | throws NullReferenceException with null settings, issues nothing when inactive, and otherwise issues exactly the events of ExecuteEvents |
| `PixelateFeature.PixelateRenderPass.Dispose` | forager/Assets/Post-Processing/Pixelate/Pixelate.cs:77-80 | releases the temp handle only when it is non-null, so it is safe before any Configure |
| `PixelateFeature.Pixelate.Create` | forager/Assets/Post-Processing/Pixelate/Pixelate.cs:87-91 | installs a fresh pass around the given settings, valid for Configure, with tag "Pixelate", event BeforeRenderingPostProcessing, the default descriptor and no handle, and names the feature "Pixelate" |
| `PixelateFeature.Pixelate.AddRenderPasses` | forager/Assets/Post-Processing/Pixelate/Pixelate.cs:93-96 | takes the camera type and ignores it, unlike Dither Down: the pass enqueues itself exactly when its settings are non-null and active; a null pass throws |
| `PixelateFeature.Pixelate.Dispose` | forager/Assets/Post-Processing/Pixelate/Pixelate.cs:98-102 | throws NullReferenceException when the pass is null, otherwise disposes the pass |
| `Rendering.PooledBlits` | forager/Assets/Post-Processing/Pixelate/Pixelate.cs:63-74 | the blits of a pooled command buffer are exactly those of its profiled body |
| `Rendering.PooledScope` | forager/Assets/Post-Processing/Pixelate/Pixelate.cs:66-70 | every blit lies between the scope's BeginSample and its EndSample |
| `Rendering.PooledSetsFirst` | forager/Assets/Post-Processing/DitherDownURP/DitherDownURP.cs:80-95 | material properties set before the scope opens precede every blit |
| `Rendering.PooledReturned` | forager/Assets/Post-Processing/Pixelate/Pixelate.cs:63-74 | the buffer is taken from the pool once and given back once |
| `Rendering.ProfiledCopy` | forager/Assets/Post-Processing/Pixelate/Pixelate.cs:66-70 | records BeginSample, the two blits in order and EndSample |
| `Rendering.SubmitCommandBuffer` | forager/Assets/Post-Processing/Pixelate/Pixelate.cs:72-74 | records execute, clear and release of the buffer, in that order |
| `DitherDownURPSettings.New` | forager/Assets/Post-Processing/DitherDownURP/DitherDownURPSettings.cs:14-19 | a new component is disabled, so inactive, and within range: colorLevels 16 in [1,24], ditherType Bayer2x2, dithering 0 in [0,0.5], downsampling 1 in [1,32] |
| `DitherDownURPSettings.IsActive` | forager/Assets/Post-Processing/DitherDownURP/DitherDownURPSettings.cs:21-24 | the component is active only when both its `enabled` switch and the inherited `active` flag are set |
| `DitherDownURPSettings.IsActiveIgnoresParameters` | forager/Assets/Post-Processing/DitherDownURP/DitherDownURPSettings.cs:21-24 | IsActive is enabled ∧ active, whatever colorLevels, ditherType, dithering and downsampling hold |
| `DitherDownURPSettings.SettersKeepValid` | forager/Assets/Post-Processing/DitherDownURP/DitherDownURPSettings.cs:16-19 | assigning any value to a clamped parameter keeps the component in range; colorLevels stays in [1,24] |
| `DitherDownURPSettings.IsTileCompatible` | forager/Assets/Post-Processing/DitherDownURP/DitherDownURPSettings.cs:26-29 | always false |
| `PixelateSettings.New` | forager/Assets/Post-Processing/Pixelate/PixelateSettings.cs:9 | a new component has pixelSize 1 in [1,256] and is inactive whatever its active flag |
| `PixelateSettings.IsActive` | forager/Assets/Post-Processing/Pixelate/PixelateSettings.cs:11-14 | the component is active only when the inherited `active` flag is set and the pixel size is not 1 |
| `PixelateSettings.ActiveExactlyAboveUnitSize` | forager/Assets/Post-Processing/Pixelate/PixelateSettings.cs:11-14 | at pixel size 1 the component is inactive; above it, it is active exactly when its active flag is set |
| `PixelateSettings.SetPixelSizeKeepsValid` | forager/Assets/Post-Processing/Pixelate/PixelateSettings.cs:9 | assigning any value keeps pixelSize in [1,256], so it is always a non-zero divisor |
| `PixelateSettings.IsTileCompatible` | forager/Assets/Post-Processing/Pixelate/PixelateSettings.cs:16-19 | always fails with NotImplementedException |
| `VolumeParameters.ClampedInt.Set` | forager/Assets/Post-Processing/Pixelate/PixelateSettings.cs:9 | the new value is within [min, max]: the assigned value when inside, min below it, max above it |
| `VolumeParameters.ClampedFloat.Set` | forager/Assets/Post-Processing/DitherDownURP/DitherDownURPSettings.cs:18-19 | the same clamping for the float parameters |

## Left out

- The shader `CustomPostProcessing/DitherDownURP` is not part of this model. The per-pixel threshold offset, quantisation to `colorLevels` and downsampling all happen there.
- GPU work has no semantics here. Blits, command buffers, profiling scopes, `ExecuteCommandBuffer`, `SetFloat` and `SetTexture` are recorded as events in the order issued, and nothing more.
- `RenderingUtils.ReAllocateIfNeeded` is recorded with the descriptor it is given. Afterwards the handle is taken to be allocated for that descriptor. Whether a new texture is actually allocated is not modelled, and handles have no identity beyond their descriptor.
- Float parameters (`dithering`, `downsampling`) are exact reals that are only compared and forwarded. The levels count is forwarded as a real. Float rounding is not modelled.
- `VolumeManager.instance.stack.GetComponent`, `Shader.Find`, `CoreUtils.CreateEngineMaterial` and `Shader.PropertyToID` become parameters or datatype constants. The settings component is the value passed to the pass's constructor. Unity's later updates of that component are assignments to the pass's `settings` field.
- Texture objects have no identity. A fresh `Texture2D` is built on every Execute and never destroyed, and that leak is not represented.
- `Destroy` versus `DestroyImmediate` under `UNITY_EDITOR` are one `DestroyMaterial` event. Unity's "destroyed object compares equal to null" behaviour after Dispose is not modelled.
- `base.Configure` and `base.Dispose` are Unity base-class calls with no visible effect here. They are not modelled.
- The feature's `name` before Create is whatever the asset was called. It is a constructor parameter here.
- The unused nested `DitherTypeParameter` class of the pass and the commented-out input-texture property are not modelled.
- Integer overflow is not modelled. Widths, heights and pixel sizes are unbounded integers, which matches the C# values in every reachable case, since the divisor is at least 1 and the quotient is no larger than the dividend.
