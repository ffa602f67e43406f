# Looking Glass render pipeline: the quilt engine

This project models the core of the Looking Glass Render Pipeline, a Unity scriptable render
pipeline for a lenticular multi-view display, and proves properties of that model. The display
shows a "quilt": a single texture split into a `tileX` by `tileY` grid of tiles. Each tile holds
the scene as seen from one of `tileX * tileY` horizontally offset camera positions spread
across a view cone. The core has six parts:

- **View-angle and off-axis offset math**, shared by both tile renderers (`Util`). This covers
  the angle of view `k` across the view cone, the camera distance that frames the focal size,
  the view/projection offsets for one view, and the framing of the camera. Floats are `real`.
  `Mathf.Tan`, `Mathf.Cos` and `Mathf.Atan` are function values passed in as a parameter
  (`Engine.Mathf`), so nothing is claimed about their numeric values.
- **The multi-pass tile renderer** (`MultiTexture`). For each tile in row-major order, it
  renders the shifted view into a temporary texture of one tile's size, then copies that
  texture to the tile's place in the quilt.
- **The instanced tile renderer** (`Instancing`). It fills per-view arrays: the instancing
  matrices, the view offsets and the tiles' screen rectangles. It then draws every instanceable
  mesh once, with `tileX * tileY` instances, between enabling and disabling a shader keyword.
- **The lenticular compositor** (`FinalOutput`). It turns the device calibration into eleven
  material properties and draws the quilt through that material as one full-screen quad.
- **The renderer set-up** (`RendererSetup`). Each camera gets a list of passes. Game-view
  cameras get the two quilt passes; scene-view cameras get the forward passes. The set-up also
  holds the init-once state and the lazily created quilt texture.
- **Configuration records** (`CameraInfo`, `PipelineAsset`). These are the device calibration
  and per-camera framing with their defaults, plus the pipeline asset's serialised settings,
  its quilt-layout getter and its version migration.

Unity's engine is kept opaque (`Engine`). Command buffers, the render context, draws, keyword
toggles and temporary-texture allocation are events appended to an ordered trace
(`Engine.Backend.trace`). Textures are values carrying an engine-issued id and a size. The
textures the engine has destroyed are a set the backend keeps. `Quilt` holds the row-major tile
numbering the two renderers share. `Wrappers` holds `Option`.

All source paths below are relative to the repository root.

## Model

| member | source | states |
|---|---|---|
| Engine.CsDiv | Assets/RenderPipeline/render-pipelines.looking/Runtime/Passes/LookingGlassMultiTextureRenderer.cs:64-65 | C# integer division truncates toward zero: whatever the divisor's sign, it agrees with Euclidean division for a nonnegative dividend, and is the negated quotient of the negated dividend for a nonpositive one |
| Util.AdjustedDistanceFramesSize | Assets/RenderPipeline/render-pipelines.looking/Runtime/Passes/Util/LookingGlassUtil.cs:9-12 | at the adjusted distance, tan of half the field of view times the distance is exactly the focal size |
| Util.AngleSingleView | Assets/RenderPipeline/render-pipelines.looking/Runtime/Passes/Util/LookingGlassUtil.cs:47-48 | with at most one view, every view's angle is 0, whatever the view and the cone |
| Util.AngleEndpoints | Assets/RenderPipeline/render-pipelines.looking/Runtime/Passes/Util/LookingGlassUtil.cs:43-51 | with two or more views, the first view sits at `-abs(cone)/2` and the last at `+abs(cone)/2` |
| Util.AngleConeSign | Assets/RenderPipeline/render-pipelines.looking/Runtime/Passes/Util/LookingGlassUtil.cs:45 | a negative view cone gives the same angles as its absolute value |
| Util.AngleMonotone | Assets/RenderPipeline/render-pipelines.looking/Runtime/Passes/Util/LookingGlassUtil.cs:50 | with two or more views, the angle never decreases as the view number grows |
| Util.AngleMirror | Assets/RenderPipeline/render-pipelines.looking/Runtime/Passes/Util/LookingGlassUtil.cs:50 | view `v` and view `numViews - 1 - v` have opposite angles |
| Util.AngleBounds | Assets/RenderPipeline/render-pipelines.looking/Runtime/Passes/Util/LookingGlassUtil.cs:43-51 | every view in range has an angle inside the cone `[-abs(cone)/2, abs(cone)/2]` |
| Util.AngleCentre | Assets/RenderPipeline/render-pipelines.looking/Runtime/Passes/Util/LookingGlassUtil.cs:50 | with an odd number of views, the middle view looks straight ahead |
| Util.AngleAtView | Assets/RenderPipeline/render-pipelines.looking/Runtime/Passes/Util/LookingGlassUtil.cs:43-51 | the angle of view `view` of `numViews` across the view cone, in degrees; its properties are the Angle lemmas above (endpoints, bounds, monotone, mirror, centre, sign of the cone) |
| Util.GetAdjustedDistance | Assets/RenderPipeline/render-pipelines.looking/Runtime/Passes/Util/LookingGlassUtil.cs:9-12 | the camera distance at which half the field of view spans `size`; proved by `Util.AdjustedDistanceFramesSize` |
| Util.DefaultQuiltAngles | Assets/RenderPipeline/render-pipelines.looking/Runtime/Passes/Util/LookingGlassUtil.cs:43-51 | with the default 40-degree cone and 36 views, the angles run from -20 to +20, and views 17 and 18 mirror each other |
| Util.OffsetsSkewMatchesShift | Assets/RenderPipeline/render-pipelines.looking/Runtime/Passes/Util/LookingGlassUtil.cs:15-28 | the vertical shift is the distance times tan 0; the projection skews are the horizontal shift over `size * aspect` and the vertical shift over `size` |
| Util.SingleViewNoOffset | Assets/RenderPipeline/render-pipelines.looking/Runtime/Passes/Util/LookingGlassUtil.cs:15-28 | given tan 0 = 0, a lone view has all four offsets zero |
| Util.MirroredViewOffsets | Assets/RenderPipeline/render-pipelines.looking/Runtime/Passes/Util/LookingGlassUtil.cs:15-28 | given an odd tan, mirrored views get opposite horizontal shifts and opposite skews |
| Util.OffsetXOfView | Assets/RenderPipeline/render-pipelines.looking/Runtime/Passes/Util/LookingGlassUtil.cs:19-22 | the horizontal shift is the adjusted distance times tan of the view's angle in radians |
| Util.OppositeAnglesOppositeShifts | Assets/RenderPipeline/render-pipelines.looking/Runtime/Passes/Util/LookingGlassUtil.cs:22-26 | given an odd tan, opposite angles give opposite shifts at the same distance, and opposite skews at the same divisor |
| Util.GetVPMatrixOffsets | Assets/RenderPipeline/render-pipelines.looking/Runtime/Passes/Util/LookingGlassUtil.cs:15-28 | the horizontal and vertical camera shift and projection skew of one view; related to the view angle and distance by `Util.OffsetXOfView`, `Util.OffsetsSkewMatchesShift`, `Util.SingleViewNoOffset` and `Util.MirroredViewOffsets` |
| Util.CameraFraming | Assets/RenderPipeline/render-pipelines.looking/Runtime/Passes/Util/LookingGlassUtil.cs:29-38 | the camera gets the field of view and the identity rotation. It sits on the axis at the distance that frames `size`. Its near and far planes lie `nearClipFactor * size` in front of and `farClipFactor * size` behind the focal plane |
| Util.ClipPlanesBracketDistance | Assets/RenderPipeline/render-pipelines.looking/Runtime/Passes/Util/LookingGlassUtil.cs:29-38 | with positive factors and a positive size, the camera's distance to the focal plane lies strictly between the near and far clip distances |
| Util.SetupCameraInfo | Assets/RenderPipeline/render-pipelines.looking/Runtime/Passes/Util/LookingGlassUtil.cs:29-38 | the camera's framing becomes that framing, so its projection and world-to-camera matrices become the ones the engine derives from the new framing and the unchanged aspect; the aspect and viewport are left alone |
| Quilt.ViewIndexInRange | Assets/RenderPipeline/render-pipelines.looking/Runtime/Passes/LookingGlassMultiTextureRenderer.cs:85-113 | the view number `i * tileX + j` of any tile lies in `[0, tileX * tileY)`, and the tile's row and column are its quotient and remainder by `tileX` |
| Quilt.TileOfView | Assets/RenderPipeline/render-pipelines.looking/Runtime/Passes/LookingGlassInstancingRenderPass.cs:160-172 | every view number `k` in `[0, tileX * tileY)` is the view of tile `(k / tileX, k % tileX)`, which lies in the grid |
| Quilt.ViewIndexInjective | Assets/RenderPipeline/render-pipelines.looking/Runtime/Passes/LookingGlassMultiTextureRenderer.cs:85-113 | distinct tiles get distinct view numbers |
| CameraInfo.LookingGlassRenderInfoPerCamera.SetupDefault | Assets/RenderPipeline/render-pipelines.looking/Runtime/LookingGlassCameraInfo.cs:27-33 | the default framing is field of view 13.5, size 1 and both clip factors 1 |
| CameraInfo.LookingGlassDeviceConfig.SetUpDefault | Assets/RenderPipeline/render-pipelines.looking/Runtime/LookingGlassCameraInfo.cs:52-66 | every calibration field takes its listed constant. No flip flag is set. DPI and screen size are positive and the slope nonzero, so the compositor's divisions are defined |
| CameraInfo.SetUpDefaultForgetsOldValue | Assets/RenderPipeline/render-pipelines.looking/Runtime/LookingGlassCameraInfo.cs:52-66 | the defaults overwrite every field: they do not depend on the previous value, and applying them twice is applying them once |
| CameraInfo.LookingGlassCameraInfo.Awake | Assets/RenderPipeline/render-pipelines.looking/Runtime/LookingGlassCameraInfo.cs:14-17 | the calibration is reset to the defaults and the per-camera framing is untouched |
| MultiTexture.ShiftViewTranslatesOnly | Assets/RenderPipeline/render-pipelines.looking/Runtime/Passes/LookingGlassMultiTextureRenderer.cs:150-152 | the shifted view matrix decreases `m03` by the horizontal and `m13` by the vertical shift; every other entry is unchanged |
| MultiTexture.ShiftProjectionSkewsOnly | Assets/RenderPipeline/render-pipelines.looking/Runtime/Passes/LookingGlassMultiTextureRenderer.cs:154-156 | the shifted projection decreases `m02` and `m12` by the two skews; every other entry is unchanged |
| MultiTexture.SingleViewUnshifted | Assets/RenderPipeline/render-pipelines.looking/Runtime/Passes/LookingGlassMultiTextureRenderer.cs:135-162 | given tan 0 = 0, a lone view renders with the camera's own matrices |
| MultiTexture.MirroredViewsShiftOppositely | Assets/RenderPipeline/render-pipelines.looking/Runtime/Passes/LookingGlassMultiTextureRenderer.cs:135-162 | given an odd tan, mirrored views move the view translation and the projection skew by opposite amounts |
| MultiTexture.TileWidth | Assets/RenderPipeline/render-pipelines.looking/Runtime/Passes/LookingGlassMultiTextureRenderer.cs:64 | one tile's width, the quilt width divided by the column count in C# integer division; the copy regions it lays out are proved inside the quilt and disjoint by `MultiTexture.CopyRegionInBounds` and `MultiTexture.CopyRegionsDisjoint` |
| MultiTexture.TileHeight | Assets/RenderPipeline/render-pipelines.looking/Runtime/Passes/LookingGlassMultiTextureRenderer.cs:65 | one tile's height, the quilt height divided by the row count in C# integer division; same partner lemmas as `TileWidth` |
| MultiTexture.ShiftView | Assets/RenderPipeline/render-pipelines.looking/Runtime/Passes/LookingGlassMultiTextureRenderer.cs:150-152 | the view matrix moved by the view's shift; proved to change only the translation by `MultiTexture.ShiftViewTranslatesOnly` |
| MultiTexture.ShiftProjection | Assets/RenderPipeline/render-pipelines.looking/Runtime/Passes/LookingGlassMultiTextureRenderer.cs:154-156 | the projection matrix skewed by the view's skew; proved to change only the two skew entries by `MultiTexture.ShiftProjectionSkewsOnly` |
| MultiTexture.RenderedStep | Assets/RenderPipeline/render-pipelines.looking/Runtime/Passes/LookingGlassMultiTextureRenderer.cs:87-114 | after tile `(i, j)`, numbered `i * tileX + j`, the trace holds exactly the first `i * tileX + j + 1` tiles in order |
| MultiTexture.TileAtLength | Assets/RenderPipeline/render-pipelines.looking/Runtime/Passes/LookingGlassMultiTextureRenderer.cs:91-112 | every tile makes exactly the eight calls of one loop body |
| MultiTexture.ExecuteEventsLength | Assets/RenderPipeline/render-pipelines.looking/Runtime/Passes/LookingGlassMultiTextureRenderer.cs:85-115 | the loop body runs exactly `tileX * tileY` times for positive counts, and not at all when either count is not positive |
| MultiTexture.ExecuteTileSlice | Assets/RenderPipeline/render-pipelines.looking/Runtime/Passes/LookingGlassMultiTextureRenderer.cs:91-112 | tile `(i, j)` makes its calls at positions `3 + 8k` onwards, where `k = i * tileX + j`, in a fixed order: shifted matrices for view `k` of `tileX * tileY`, target the temporary texture, clear, opaque, error objects, transparent, copy to `(j * w, i * h)`, submit |
| MultiTexture.RenderedHasNoTemporaries | Assets/RenderPipeline/render-pipelines.looking/Runtime/Passes/LookingGlassMultiTextureRenderer.cs:87-115 | no tile acquires or releases a temporary texture |
| MultiTexture.TemporaryAcquiredOnceReleasedOnce | Assets/RenderPipeline/render-pipelines.looking/Runtime/Passes/LookingGlassMultiTextureRenderer.cs:69-117 | the temporary texture is acquired once, as the first call, and released once, as the last |
| MultiTexture.CopyRegionInBounds | Assets/RenderPipeline/render-pipelines.looking/Runtime/Passes/LookingGlassMultiTextureRenderer.cs:107-108 | tile `(i, j)` copies the whole `w` x `h` temporary texture to `(j * w, i * h)`, and that region lies inside the quilt |
| MultiTexture.CopyRegionsDisjoint | Assets/RenderPipeline/render-pipelines.looking/Runtime/Passes/LookingGlassMultiTextureRenderer.cs:107-108 | the regions copied by two different tiles do not overlap |
| MultiTexture.LookingGlassMultiTextureRenderer.constructor | Assets/RenderPipeline/render-pipelines.looking/Runtime/Passes/LookingGlassMultiTextureRenderer.cs:42-59 | a fresh pass has an empty command buffer, no quilt texture and a zero layout |
| MultiTexture.LookingGlassMultiTextureRenderer.Setup | Assets/RenderPipeline/render-pipelines.looking/Runtime/Passes/LookingGlassMultiTextureRenderer.cs:36-40 | stores the quilt texture and the layout that the next Execute uses |
| MultiTexture.LookingGlassMultiTextureRenderer.SetupVPMatrices | Assets/RenderPipeline/render-pipelines.looking/Runtime/Passes/LookingGlassMultiTextureRenderer.cs:135-162 | executes the camera's matrices shifted by view `view`'s offsets; the camera itself is not changed |
| MultiTexture.LookingGlassMultiTextureRenderer.RenderView | Assets/RenderPipeline/render-pipelines.looking/Runtime/Passes/LookingGlassMultiTextureRenderer.cs:91-105 | appends the six rendering calls for tile `(i, j)`'s view |
| MultiTexture.LookingGlassMultiTextureRenderer.RenderTile | Assets/RenderPipeline/render-pipelines.looking/Runtime/Passes/LookingGlassMultiTextureRenderer.cs:91-113 | appends one whole loop body for tile `(i, j)`: its view, its copy and the submit |
| MultiTexture.LookingGlassMultiTextureRenderer.RenderRow | Assets/RenderPipeline/render-pipelines.looking/Runtime/Passes/LookingGlassMultiTextureRenderer.cs:89-114 | the inner loop advances the view counter by one row and extends the trace by that row's tiles |
| MultiTexture.LookingGlassMultiTextureRenderer.RenderTiles | Assets/RenderPipeline/render-pipelines.looking/Runtime/Passes/LookingGlassMultiTextureRenderer.cs:85-115 | the nested loops append the calls of every tile, row by row |
| MultiTexture.LookingGlassMultiTextureRenderer.Execute | Assets/RenderPipeline/render-pipelines.looking/Runtime/Passes/LookingGlassMultiTextureRenderer.cs:62-118 | if a tile count is zero, the division throws and nothing happens. Otherwise the camera is framed for the stored layout, one temporary texture is taken, and the trace grows by exactly the model's Execute calls for the stored layout and quilt texture, every tile shifting the matrices of the re-framed camera |
| Instancing.RectEdges | Assets/RenderPipeline/render-pipelines.looking/Runtime/Passes/LookingGlassInstancingRenderPass.cs:166-169 | tile `(i, j)`'s rectangle spans screen cells `j .. j + 1` across and `i .. i + 1` up |
| Instancing.CellEdgeBounds | Assets/RenderPipeline/render-pipelines.looking/Runtime/Passes/LookingGlassInstancingRenderPass.cs:158-169 | cell edges run from -1 at the first edge to +1 at the last |
| Instancing.CellEdgeMonotone | Assets/RenderPipeline/render-pipelines.looking/Runtime/Passes/LookingGlassInstancingRenderPass.cs:158-169 | cell edges grow with the cell number |
| Instancing.RectInsideScreen | Assets/RenderPipeline/render-pipelines.looking/Runtime/Passes/LookingGlassInstancingRenderPass.cs:158-169 | every tile rectangle has width `2 / tileX` and height `2 / tileY`, and its extent lies inside `[-1, 1] x [-1, 1]` |
| Instancing.RectsAbutHorizontally | Assets/RenderPipeline/render-pipelines.looking/Runtime/Passes/LookingGlassInstancingRenderPass.cs:158-169 | a tile's rectangle starts exactly where its left neighbour's ends |
| Instancing.RectsAbutVertically | Assets/RenderPipeline/render-pipelines.looking/Runtime/Passes/LookingGlassInstancingRenderPass.cs:158-169 | a tile's rectangle starts exactly where the one below it ends |
| Instancing.RectsReachScreenEdges | Assets/RenderPipeline/render-pipelines.looking/Runtime/Passes/LookingGlassInstancingRenderPass.cs:158-169 | the first and last tiles of every row and column touch the screen's edges |
| Instancing.RectsDisjoint | Assets/RenderPipeline/render-pipelines.looking/Runtime/Passes/LookingGlassInstancingRenderPass.cs:158-169 | the rectangles of two different tiles do not overlap |
| Instancing.TileRect | Assets/RenderPipeline/render-pipelines.looking/Runtime/Passes/LookingGlassInstancingRenderPass.cs:158-169 | tile `(i, j)`'s centre and half-extents in normalised screen coordinates; its geometry (edges, size, abutting, reaching the screen edges, disjointness) is proved by the Rect lemmas above |
| Instancing.Instanceable | Assets/RenderPipeline/render-pipelines.looking/Runtime/Passes/LookingGlassInstancingRenderPass.cs:88-96 | a mesh filter is drawn when it has a mesh, a renderer with a material, and that material has instancing enabled; `Instancing.DrawableFiltersAreDrawn` proves every such filter is drawn |
| Instancing.Draws | Assets/RenderPipeline/render-pipelines.looking/Runtime/Passes/LookingGlassInstancingRenderPass.cs:84-104 | the instanced draws the mesh loop records, in filter order; `Instancing.DrawsComeFromDrawableFilters`, `Instancing.DrawableFiltersAreDrawn` and `Instancing.DrawsAtMostOnePerFilter` characterise it |
| Instancing.TileEntries | Assets/RenderPipeline/render-pipelines.looking/Runtime/Passes/LookingGlassInstancingRenderPass.cs:160-172 | entry `i * tileX + j` of the filled arrays is view `i * tileX + j`'s offset out of `tileX * tileY` views, and tile `(i, j)`'s rectangle |
| Instancing.Instances | Assets/RenderPipeline/render-pipelines.looking/Runtime/Passes/LookingGlassInstancingRenderPass.cs:129-140 | `tileNum` instance matrices, each equal to the mesh's transform |
| Instancing.DrawsComeFromDrawableFilters | Assets/RenderPipeline/render-pipelines.looking/Runtime/Passes/LookingGlassInstancingRenderPass.cs:84-104 | every recorded draw is an instanced draw of some drawable filter's mesh. It has `tileNum` instances, `tileNum` matrices and the pass's property block |
| Instancing.DrawableFiltersAreDrawn | Assets/RenderPipeline/render-pipelines.looking/Runtime/Passes/LookingGlassInstancingRenderPass.cs:84-104 | a filter is drawable when it has a mesh, a renderer, a material and instancing enabled; every drawable filter gets its draw |
| Instancing.DrawsAtMostOnePerFilter | Assets/RenderPipeline/render-pipelines.looking/Runtime/Passes/LookingGlassInstancingRenderPass.cs:84-104 | there are never more draws than filters, and there are none when no filter is drawable |
| Instancing.DrawsAppend | Assets/RenderPipeline/render-pipelines.looking/Runtime/Passes/LookingGlassInstancingRenderPass.cs:84-104 | the draws follow the filters' order: a drawable filter appends exactly its draw, and a skipped filter appends nothing |
| Instancing.KeywordBrackets | Assets/RenderPipeline/render-pipelines.looking/Runtime/Passes/LookingGlassInstancingRenderPass.cs:60-110 | Execute's calls start with the quilt's clear and submit. The keyword is enabled next, before any draw, and disabled only after the final submit |
| Instancing.FillRow | Assets/RenderPipeline/render-pipelines.looking/Runtime/Passes/LookingGlassInstancingRenderPass.cs:162-171 | the inner loop extends both filled prefixes, offsets and rectangles, by one row of the grid |
| Instancing.FillArrays | Assets/RenderPipeline/render-pipelines.looking/Runtime/Passes/LookingGlassInstancingRenderPass.cs:160-172 | the nested loops write every entry of both arrays: the arrays become the view offsets and the screen rectangles in view order |
| Instancing.LookingGlassInstancingRenderPass.constructor | Assets/RenderPipeline/render-pipelines.looking/Runtime/Passes/LookingGlassInstancingRenderPass.cs:40-57 | a fresh pass has an empty command buffer, no arrays, no quilt texture and a zero layout |
| Instancing.LookingGlassInstancingRenderPass.Setup | Assets/RenderPipeline/render-pipelines.looking/Runtime/Passes/LookingGlassInstancingRenderPass.cs:32-38 | stores the quilt texture, the layout and the camera framing; the arrays are kept |
| Instancing.LookingGlassInstancingRenderPass.CalculateInstancingMatrix | Assets/RenderPipeline/render-pipelines.looking/Runtime/Passes/LookingGlassInstancingRenderPass.cs:129-140 | a negative tile count throws and changes nothing. Otherwise the matrix array holds `tileX * tileY` copies of the transform; it is reused when its length already fits and freshly allocated otherwise |
| Instancing.LookingGlassInstancingRenderPass.CalculateVpMatrixOffsetsAndTileRects | Assets/RenderPipeline/render-pipelines.looking/Runtime/Passes/LookingGlassInstancingRenderPass.cs:143-173 | each array is reused when its length is `tileNum`, else reallocated. For positive counts the arrays hold every view's offset and every tile's rectangle; otherwise they are empty or unchanged. A negative count throws |
| Instancing.LookingGlassInstancingRenderPass.ClearQuilt | Assets/RenderPipeline/render-pipelines.looking/Runtime/Passes/LookingGlassInstancingRenderPass.cs:65-70 | the quilt texture is targeted, cleared and submitted |
| Instancing.LookingGlassInstancingRenderPass.RecordDraws | Assets/RenderPipeline/render-pipelines.looking/Runtime/Passes/LookingGlassInstancingRenderPass.cs:84-104 | the mesh loop records exactly the draws of the drawable filters, in order |
| Instancing.LookingGlassInstancingRenderPass.DrawInstanced | Assets/RenderPipeline/render-pipelines.looking/Runtime/Passes/LookingGlassInstancingRenderPass.cs:81-109 | the keyword is enabled, the draws are executed and submitted, and the keyword is disabled |
| Instancing.LookingGlassInstancingRenderPass.Render | Assets/RenderPipeline/render-pipelines.looking/Runtime/Passes/LookingGlassInstancingRenderPass.cs:64-109 | the rest of Execute: the clear, then the arrays, then the instanced draws. A negative tile count stops after the clear |
| Instancing.LookingGlassInstancingRenderPass.Execute | Assets/RenderPipeline/render-pipelines.looking/Runtime/Passes/LookingGlassInstancingRenderPass.cs:60-110 | the camera is framed for the stored framing. Then come the clear, the per-view arrays and the instanced draws between the keyword toggles; a negative tile count throws after the clear |
| FinalOutput.FlipSign | Assets/RenderPipeline/render-pipelines.looking/Runtime/Passes/LookingGlassFinalOutput.cs:35 | the sign is -1 exactly when the flag is set (nonzero), and +1 otherwise |
| FinalOutput.Pitch | Assets/RenderPipeline/render-pipelines.looking/Runtime/Passes/LookingGlassFinalOutput.cs:29-32 | the lens pitch in screen widths corrected for the slant; `FinalOutput.OnlyPitchUsesTrigonometry` shows it is the only property using trigonometry |
| FinalOutput.Tilt | Assets/RenderPipeline/render-pipelines.looking/Runtime/Passes/LookingGlassFinalOutput.cs:34-36 | the lens slant across the screen, mirrored by the horizontal flip; `FinalOutput.FlipImageXMirrorsLens` and `FinalOutput.TiltAndSubpNonZero` |
| FinalOutput.Center | Assets/RenderPipeline/render-pipelines.looking/Runtime/Passes/LookingGlassFinalOutput.cs:38-40 | the lens phase, moved half a lens by the horizontal flip; `FinalOutput.FlipImageXMirrorsLens` |
| FinalOutput.Subp | Assets/RenderPipeline/render-pipelines.looking/Runtime/Passes/LookingGlassFinalOutput.cs:45-47 | the width of one subpixel in screen widths, mirrored by the horizontal flip; `FinalOutput.FlipImageXMirrorsLens` and `FinalOutput.TiltAndSubpNonZero` |
| FinalOutput.RedIndex | Assets/RenderPipeline/render-pipelines.looking/Runtime/Passes/LookingGlassFinalOutput.cs:49 | the red subpixel index; `FinalOutput.SubpixelOrder` |
| FinalOutput.BlueIndex | Assets/RenderPipeline/render-pipelines.looking/Runtime/Passes/LookingGlassFinalOutput.cs:50 | the blue subpixel index; `FinalOutput.SubpixelOrder` |
| FinalOutput.TileVector | Assets/RenderPipeline/render-pipelines.looking/Runtime/Passes/LookingGlassFinalOutput.cs:57-62 | the tile counts and the portion packed for the shader; `FinalOutput.FlipImageXParams` shows the flip leaves it alone |
| FinalOutput.AspectVector | Assets/RenderPipeline/render-pipelines.looking/Runtime/Passes/LookingGlassFinalOutput.cs:63-68 | the screen aspect and the overscan flag; `FinalOutput.AspectVectorIsScreenRatio` |
| FinalOutput.FlipImageXParams | Assets/RenderPipeline/render-pipelines.looking/Runtime/Passes/LookingGlassFinalOutput.cs:34-47 | setting `flipImageX` negates `tilt` and `subp`, moves `center` by half a lens and stores the flag in `flipX`; the other seven properties are the same as without the flip, and the same eleven keys are written |
| FinalOutput.FlipImageXMirrorsLens | Assets/RenderPipeline/render-pipelines.looking/Runtime/Passes/LookingGlassFinalOutput.cs:34-47 | unflipped, tilt is `screenH / (screenW * slope)`, subp is `1 / (screenW * 3)` and centre is the calibrated centre. A horizontal flip negates tilt and subp and adds 0.5 to the centre |
| FinalOutput.TiltAndSubpNonZero | Assets/RenderPipeline/render-pipelines.looking/Runtime/Passes/LookingGlassFinalOutput.cs:34-47 | the subpixel width is never zero, and neither is the tilt on a screen of nonzero height, so the flip always changes them |
| FinalOutput.SubpixelOrder | Assets/RenderPipeline/render-pipelines.looking/Runtime/Passes/LookingGlassFinalOutput.cs:49-50 | red and blue take the indices 0 and 2: `(0, 2)` exactly when `flipSubp` is zero, `(2, 0)` otherwise. Flipping swaps them |
| FinalOutput.AspectVectorIsScreenRatio | Assets/RenderPipeline/render-pipelines.looking/Runtime/Passes/LookingGlassFinalOutput.cs:63-68 | the aspect vector holds `screenW / screenH` twice, then 0 for the disabled overscan |
| FinalOutput.ParamsKeys | Assets/RenderPipeline/render-pipelines.looking/Runtime/Passes/LookingGlassFinalOutput.cs:27-69 | exactly the eleven named properties are written |
| FinalOutput.OnlyPitchUsesTrigonometry | Assets/RenderPipeline/render-pipelines.looking/Runtime/Passes/LookingGlassFinalOutput.cs:29-68 | every property except `pitch` is independent of the trigonometric functions |
| FinalOutput.LatestConfigWins | Assets/RenderPipeline/render-pipelines.looking/Runtime/Passes/LookingGlassFinalOutput.cs:27-69 | passing a configuration again overwrites every property the previous pass wrote, so the material ends up the same whatever calibration, layout or portion was passed before |
| FinalOutput.DefaultCalibrationParams | Assets/RenderPipeline/render-pipelines.looking/Runtime/Passes/LookingGlassFinalOutput.cs:34-50 | with the default calibration nothing is flipped: tilt, centre and subp are the plain terms, and red is 0 and blue is 2 |
| CameraInfo.LookingGlassDeviceConfig.AsBool | Assets/RenderPipeline/render-pipelines.looking/Runtime/LookingGlassCameraInfo.cs:68-71 | a float flag is set exactly when it is nonzero; `FinalOutput.FlipSign` and `FinalOutput.SubpixelOrder` state the flips in its terms |
| FinalOutput.LookingGlassFinalOutput.constructor | Assets/RenderPipeline/render-pipelines.looking/Runtime/Passes/LookingGlassFinalOutput.cs:13-17 | a fresh pass has no material, no quilt texture, a zero layout, an unset colour handle and a zero calibration |
| FinalOutput.LookingGlassFinalOutput.SetUp | Assets/RenderPipeline/render-pipelines.looking/Runtime/Passes/LookingGlassFinalOutput.cs:19-26 | stores the colour handle, the quilt texture, the layout and the calibration; the material is kept |
| FinalOutput.LookingGlassFinalOutput.PassConfigToMaterial | Assets/RenderPipeline/render-pipelines.looking/Runtime/Passes/LookingGlassFinalOutput.cs:27-69 | the material's properties become the old ones overwritten by the eleven lenticular parameters; its texture is kept |
| FinalOutput.LookingGlassFinalOutput.Execute | Assets/RenderPipeline/render-pipelines.looking/Runtime/Passes/LookingGlassFinalOutput.cs:72-98 | the material is created from the lenticular shader only if there is none yet; otherwise the same one is reused. It gets the parameters and the quilt texture. One draw follows: camera target, identity view and projection, the camera's viewport, one full-screen quad |
| RendererSetup.TextureIncreasing | Assets/RenderPipeline/render-pipelines.looking/Runtime/DefaultRendererSetup.cs:92-100 | the attachment-creation part is at most one pass, of the first kind |
| RendererSetup.ShadowIncreasing | Assets/RenderPipeline/render-pipelines.looking/Runtime/DefaultRendererSetup.cs:103-109 | the shadow part is at most one pass, the main-light shadow caster |
| RendererSetup.ForwardIncreasing | Assets/RenderPipeline/render-pipelines.looking/Runtime/DefaultRendererSetup.cs:113-119 | forward set-up comes before the constants |
| RendererSetup.GameViewIncreasing | Assets/RenderPipeline/render-pipelines.looking/Runtime/DefaultRendererSetup.cs:121-136 | the game-view part is the multi-texture pass, then the lenticular pass |
| RendererSetup.SceneViewIncreasing | Assets/RenderPipeline/render-pipelines.looking/Runtime/DefaultRendererSetup.cs:138-154 | the scene-view part is opaque, optional skybox, transparent, optional blit, in that order |
| RendererSetup.SetupPasses | Assets/RenderPipeline/render-pipelines.looking/Runtime/DefaultRendererSetup.cs:75-164 | the pass list one `Setup` enqueues for a camera; its order, membership and per-view selection are proved by the lemmas below and by `RendererSetup.DefaultRendererSetup.Setup` |
| RendererSetup.TileMissing | Assets/RenderPipeline/render-pipelines.looking/Runtime/DefaultRendererSetup.cs:126 | the quilt texture must be created when none was made or the engine destroyed it; `RendererSetup.DefaultRendererSetup.Setup` creates one exactly then |
| RendererSetup.CommonIncreasing | Assets/RenderPipeline/render-pipelines.looking/Runtime/DefaultRendererSetup.cs:89-119 | the passes every camera gets are in set-up order, each kind at most once |
| RendererSetup.ViewIncreasing | Assets/RenderPipeline/render-pipelines.looking/Runtime/DefaultRendererSetup.cs:89-154 | the common passes precede the view-specific ones, still in order |
| RendererSetup.PassesInSetupOrder | Assets/RenderPipeline/render-pipelines.looking/Runtime/DefaultRendererSetup.cs:75-164 | a set-up enqueues each kind of pass at most once, always in the same relative order |
| RendererSetup.EnqueuedParts | Assets/RenderPipeline/render-pipelines.looking/Runtime/DefaultRendererSetup.cs:75-164 | a kind of pass is enqueued exactly when one of the parts of the set-up enqueues it |
| RendererSetup.SceneViewParts | Assets/RenderPipeline/render-pipelines.looking/Runtime/DefaultRendererSetup.cs:138-154 | a scene-view pass kind is enqueued exactly when its step of the scene-view branch enqueues it |
| RendererSetup.CreateTexturesIffRenderToTexture | Assets/RenderPipeline/render-pipelines.looking/Runtime/DefaultRendererSetup.cs:89-100 | the attachment-creation pass is enqueued exactly when render-to-texture is required. It is then first, with the colour and depth attachments and the camera's sample count |
| RendererSetup.SceneViewTargets | Assets/RenderPipeline/render-pipelines.looking/Runtime/DefaultRendererSetup.cs:138-154 | the scene-view passes draw into the chosen colour and depth targets |
| RendererSetup.TargetsSwitchOnlyForRenderToTexture | Assets/RenderPipeline/render-pipelines.looking/Runtime/DefaultRendererSetup.cs:89-154 | every pass that draws uses the same colour and depth targets. These are the camera target unless render-to-texture is required, and then the named attachments |
| RendererSetup.ShadowCasterIffSupportedAndSetUp | Assets/RenderPipeline/render-pipelines.looking/Runtime/DefaultRendererSetup.cs:103-109 | the shadow caster is enqueued exactly when main-light shadows are supported and its own set-up succeeds, with the shadow-map target |
| RendererSetup.GameViewEndsWithLookingGlassPasses | Assets/RenderPipeline/render-pipelines.looking/Runtime/DefaultRendererSetup.cs:113-136 | a game-view camera's list ends with forward set-up, constants, the multi-texture pass and the lenticular pass; the two quilt passes carry the quilt texture and the camera's layout |
| RendererSetup.UpperRanks | Assets/RenderPipeline/render-pipelines.looking/Runtime/DefaultRendererSetup.cs:121-163 | from the quilt passes onwards, only the view-specific and editor parts can contribute |
| RendererSetup.SceneViewRanks | Assets/RenderPipeline/render-pipelines.looking/Runtime/DefaultRendererSetup.cs:138-154 | opaque and transparent are always there, the skybox only with skybox clearing and an assigned skybox, and the blit only on-screen with an intermediate colour target |
| RendererSetup.SceneViewRank | Assets/RenderPipeline/render-pipelines.looking/Runtime/DefaultRendererSetup.cs:138-163 | for a scene-view camera, which later kinds of pass are enqueued, each under its condition |
| RendererSetup.SceneViewPassSelection | Assets/RenderPipeline/render-pipelines.looking/Runtime/DefaultRendererSetup.cs:138-163 | a scene-view camera gets no quilt pass, always opaque and transparent, and the skybox iff skybox clearing has a skybox. The blit comes iff the camera is on-screen and draws to an intermediate texture, and the depth copy iff the build is an editor build |
| RendererSetup.GameViewHasNoSceneViewPasses | Assets/RenderPipeline/render-pipelines.looking/Runtime/DefaultRendererSetup.cs:121-163 | a game-view camera gets none of the scene view's forward passes, nor the depth copy |
| RendererSetup.CanCopyDepth | Assets/RenderPipeline/render-pipelines.looking/Runtime/DefaultRendererSetup.cs:166-178 | depth can be copied exactly when the camera is not multisampled and either depth targets or texture copies are supported |
| RendererSetup.DefaultRendererSetup.constructor | Assets/RenderPipeline/render-pipelines.looking/Runtime/DefaultRendererSetup.cs:20-38 | a fresh set-up is uninitialised, has no passes and no quilt texture, and its five targets are unset |
| RendererSetup.DefaultRendererSetup.Init | Assets/RenderPipeline/render-pipelines.looking/Runtime/DefaultRendererSetup.cs:40-73 | the first call creates the passes and names the targets. Every later call changes nothing |
| RendererSetup.DefaultRendererSetup.NameTargets | Assets/RenderPipeline/render-pipelines.looking/Runtime/DefaultRendererSetup.cs:65-69 | the five targets get their shader names |
| RendererSetup.DefaultRendererSetup.Setup | Assets/RenderPipeline/render-pipelines.looking/Runtime/DefaultRendererSetup.cs:75-164 | the renderer's queue grows by exactly the model's pass list for this camera. A game-view camera creates a `renderTargetW` x `renderTargetH` quilt texture only if none exists or the engine destroyed it, and otherwise reuses it; the multi-texture pass gets that texture and the camera's layout. A scene-view camera leaves the quilt texture, the trace and an existing multi-texture pass's texture and layout as they were |
| RendererSetup.DefaultRendererSetup.SetupGameView | Assets/RenderPipeline/render-pipelines.looking/Runtime/DefaultRendererSetup.cs:121-136 | the game-view branch: the quilt texture (kept or created), the multi-texture pass set up and both quilt passes enqueued |
| RendererSetup.EnqueueCommonPasses | Assets/RenderPipeline/render-pipelines.looking/Runtime/DefaultRendererSetup.cs:87-119 | picks the colour and depth targets. It enqueues attachment creation when needed, the shadow caster when supported and set up, then forward set-up and constants |
| RendererSetup.EnqueueSceneViewPasses | Assets/RenderPipeline/render-pipelines.looking/Runtime/DefaultRendererSetup.cs:138-154 | the scene-view branch enqueues exactly the scene-view part |
| PipelineAsset.SerializedSettings.WithMsaaSampleCount | Assets/RenderPipeline/render-pipelines.looking/Runtime/Data/LookingGlassRenderPipelineAsset.cs:263-267 | setting the sample count and reading it back gives the value set; no other setting changes |
| PipelineAsset.SerializedSettings.CascadeCount | Assets/RenderPipeline/render-pipelines.looking/Runtime/Data/LookingGlassRenderPipelineAsset.cs:316-322 | always one cascade, whatever is stored |
| PipelineAsset.SerializedSettings.GetLookingGlassInfo | Assets/RenderPipeline/render-pipelines.looking/Runtime/Data/LookingGlassRenderPipelineAsset.cs:323-339 | the layout copies the eight Looking Glass fields one to one |
| PipelineAsset.Defaults | Assets/RenderPipeline/render-pipelines.looking/Runtime/Data/LookingGlassRenderPipelineAsset.cs:69-123 | a new asset is at version 4 with 4x MSAA. Its quilt is laid out 4096 x 4096 with 4 x 9 tiles, fov 13.5, size 2 and clip factors 1.0 and 1.5 |
| PipelineAsset.DefaultQuiltHas36Views | Assets/RenderPipeline/render-pipelines.looking/Runtime/Data/LookingGlassRenderPipelineAsset.cs:106-113 | the default layout has 36 views of 1024 x 455 pixels |
| PipelineAsset.Migrate | Assets/RenderPipeline/render-pipelines.looking/Runtime/Data/LookingGlassRenderPipelineAsset.cs:462-478 | the version becomes the larger of the old one and 4. Below 3, soft shadows come from the deprecated shadow type. Below 4, the four settings take their deprecated values. At 4 or above, nothing changes |
| PipelineAsset.MigrateTo3 | Assets/RenderPipeline/render-pipelines.looking/Runtime/Data/LookingGlassRenderPipelineAsset.cs:464-468 | the version-3 step: soft shadows come from the deprecated shadow type; `PipelineAsset.Migrate` and `PipelineAsset.MigrateKeepsOtherSettings` state the whole upgrade |
| PipelineAsset.MigrateTo4 | Assets/RenderPipeline/render-pipelines.looking/Runtime/Data/LookingGlassRenderPipelineAsset.cs:470-477 | the version-4 step: the four light and shadow settings come from their deprecated fields; same partner lemmas as `MigrateTo3` |
| PipelineAsset.MigrateKeepsOtherSettings | Assets/RenderPipeline/render-pipelines.looking/Runtime/Data/LookingGlassRenderPipelineAsset.cs:462-478 | no setting other than the version, soft shadows and the four migrated ones is touched |
| PipelineAsset.MigrateIdempotent | Assets/RenderPipeline/render-pipelines.looking/Runtime/Data/LookingGlassRenderPipelineAsset.cs:462-478 | migrating twice is migrating once |
| PipelineAsset.MigrateMonotone | Assets/RenderPipeline/render-pipelines.looking/Runtime/Data/LookingGlassRenderPipelineAsset.cs:462-478 | the version never decreases, and a newer asset never ends up older than an older one |
| PipelineAsset.DefaultsNeedNoMigration | Assets/RenderPipeline/render-pipelines.looking/Runtime/Data/LookingGlassRenderPipelineAsset.cs:69 | a newly created asset is already current |
| PipelineAsset.LookingGlassRenderPipelineAsset.constructor | Assets/RenderPipeline/render-pipelines.looking/Runtime/Data/LookingGlassRenderPipelineAsset.cs:69-123 | a new asset carries the defaults |
| PipelineAsset.LookingGlassRenderPipelineAsset.SetMsaaSampleCount | Assets/RenderPipeline/render-pipelines.looking/Runtime/Data/LookingGlassRenderPipelineAsset.cs:263-267 | only the sample count changes, and reading it back gives the value set |
| PipelineAsset.LookingGlassRenderPipelineAsset.SetRenderScale | Assets/RenderPipeline/render-pipelines.looking/Runtime/Data/LookingGlassRenderPipelineAsset.cs:269-273 | only the render scale changes |
| PipelineAsset.LookingGlassRenderPipelineAsset.SetShadowDistance | Assets/RenderPipeline/render-pipelines.looking/Runtime/Data/LookingGlassRenderPipelineAsset.cs:310-314 | only the shadow distance changes |
| PipelineAsset.LookingGlassRenderPipelineAsset.SetShadowDepthBias | Assets/RenderPipeline/render-pipelines.looking/Runtime/Data/LookingGlassRenderPipelineAsset.cs:342-346 | only the depth bias changes |
| PipelineAsset.LookingGlassRenderPipelineAsset.SetShadowNormalBias | Assets/RenderPipeline/render-pipelines.looking/Runtime/Data/LookingGlassRenderPipelineAsset.cs:348-352 | only the normal bias changes |
| PipelineAsset.LookingGlassRenderPipelineAsset.OnAfterDeserialize | Assets/RenderPipeline/render-pipelines.looking/Runtime/Data/LookingGlassRenderPipelineAsset.cs:462-478 | the step-by-step upgrade leaves the settings equal to their migration. An asset already at version 4 or above is left untouched |

## Left out

- Floating point: `float` is modelled as `real`. IEEE rounding, infinities and NaN are not modelled. Every float division the source makes is a precondition that its divisor is nonzero (tan of half the field of view, `size * aspect`, `size`, DPI, slope and the screen size).
- Trigonometry: `Mathf.Tan`, `Cos` and `Atan` are function values passed in (`Engine.Mathf`). A property that needs `tan 0 = 0`, or an odd `tan`, takes it as a premise. Nothing is claimed about the numeric value of `pitch` or of the adjusted distance. `Mathf.Deg2Rad` is the single-precision constant written as a decimal.
- The camera's `projectionMatrix` and `worldToCameraMatrix` are derived by the engine from its field of view, clip planes, aspect and transform (`Engine.CameraMath`, a pair of function values fixed per camera). Unity's formulas for them are not modelled, so nothing is claimed about the matrices' entries beyond which framing they come from.
- C# 32-bit integer overflow is not modelled: tile counts, sizes and the counter are unbounded integers. Integer division truncates toward zero, as in C# (`Engine.CsDiv`).
- Unity engine calls are trace events. This covers command buffers and `CommandBufferPool`, the render context, `DrawRenderers` (culling and sort settings are not modelled), `RenderObjectsWithError`, global keywords, temporary textures, `Shader.Find` and `RenderTexture` creation. The engine decides when a texture is destroyed, so that is outside input.
- `LookingGlassRenderingInfo.CalculatePortion` and its type are not part of this model. The portion is a function passed to the final pass (`PortionOf`), and only the tile counts are modelled.
- `Resources.FindObjectsOfTypeAll<MeshFilter>()` is not modelled: the instanced pass receives the mesh filters as a sequence, in the order the engine returns them.
- `MaterialPropertyBlock` is a value: the pass's block is recorded with each draw, and its copy and update semantics are not modelled.
- The renderer set-up records each enqueued pass as a value holding the targets and settings passed to its `Setup`. The pass objects behind them are not modelled: forward set-up, constants, opaque, skybox, transparent, blit, shadow caster, attachment creation and depth copy. Nor are their arguments for the render-texture descriptor, clear flag, background colour and renderer configuration.
- The multi-texture pass's `Setup` is called for real. The lenticular pass's three-argument `SetUp` at DefaultRendererSetup.cs:134 does not match the four-argument `SetUp` in LookingGlassFinalOutput.cs:19-20, so that call is recorded as a pass value, and `FinalOutput.LookingGlassFinalOutput.SetUp` models the four-argument method as written.
- `ScriptableRenderer.SetupPerObjectLightIndices`, `CreateRenderTextureDescriptor`, `GetCameraClearFlag`, `GetRendererConfiguration` and `RequiresIntermediateColorTexture` are not modelled. The engine queries the set-up depends on (whether render-to-texture is required, whether the shadow caster's set-up succeeds, whether a skybox is assigned) are outside input (`EngineQueries`).
- `#if UNITY_EDITOR` is a constant field of the set-up object (`editorBuild`), fixed by its constructor.
- `CanCopyDepth`'s `SystemInfo` queries are parameters, and its always-false multisample depth resolve is folded into the result.
- The pipeline asset's editor paths (`LoadResourceFile`, the menu items), its resource, material and shader getters, and `OnBeforeSerialize` (empty) are not modelled. The plain field getters (`supportsHDR`, `renderScale` and the like) are plain field reads of the settings record. Of these, only the three with their own logic have contracts: `msaaSampleCount`, `cascadeCount` and `lookingGlassInfo`.
- Serialisation itself (Unity reading and writing the asset) is not modelled; the migration starts from a settings record.
- `AngleAtView`, `GetAdjustedDistance`, `GetVPMatrixOffsets` and `SetupCameraInfo` are repeated in both render passes with the same bodies. Each is modelled once in `Util` and used by both passes.
- `Dispose` and the release of a pass's command buffer are not modelled: garbage collection and pooled resources are not part of the model.
- Unity's component lifecycle (when `Awake` runs) is not modelled. `Awake` is a method on the component's object.
- Assets/HoloPlayToLGRP/Script/LookingGlassCameraInfoSetup.cs reads the calibration from a file through the HoloPlay library, which is not part of this model.
- The sample scripts (keyboard input, time-based rotation) and the `IRendererSetup` interface (no behaviour) are not part of this model.
