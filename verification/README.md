# Renderer core: a Dafny model

This project models the logic inside a small OpenGL deferred-style renderer.
GL calls are treated as abstract effects on a render-state record or on pools
of GL object names. The parts modelled are:

- **Water surface.** The Perlin-noise permutation table, its lattice hashing,
  `grad`, `fade` and `lerp`. The rebuild of the (R+1)×(R+1) vertex grid and its
  two-triangles-per-cell index buffer. The clamped neighbour lookup of
  `computeNormal`. The parameter setters with their clamps and 1e-4 change
  threshold. The control flow of `update`: recentring, the dirty flag, a full
  rebuild or an in-place refresh.
- **Lights.** The shadow near/far rules and the spot field-of-view clamp. The
  fallbacks for a degenerate target or direction. Ownership of each light's two
  shadow framebuffers and two depth textures across construction, moves and
  destruction.
- **GPU-handle ownership.** `RS_Texture`, `RS_Cubemap` and `RS_Light` move
  constructors, move assignments and destructors act on name pools. Across any
  sequence of them, every held name is alive and held by exactly one object, so
  every deletion is of a live name held by exactly the deleting object, which is
  then cleared. The modelled driver never reissues a deleted name (see "Left out").
- **Render passes.** `draw`, `drawEnvironment`, `drawSkybox` and
  `renderShadowMaps` as transitions of a GL-state record (blend, depth function,
  depth mask, depth test, cull face, viewport, framebuffer). Each pass returns
  the state it leaves behind and a trace of what it did.
- **Cubemap conversion.** The face/up table, the 36-vertex capture cube and the
  six-face conversion pass.
- **Texture loading.** The existence check, HDR detection by extension, and the
  channel-count → format table with its failure case.
- **Models.** `addMesh` and `addMaterial`, and `draw` pairing mesh i with
  material i.

Modules, one per file:

| file | module | models |
|---|---|---|
| results.dfy | Results | `Option`, `Result` |
| vectors.dfy | Vectors | real and integer 3-vectors, dot and cross products |
| render_state.dfy | RenderState | the GL state the passes set |
| ownership.dfy | Ownership | name pools (`glGen*` / `glDelete*`) and exclusive ownership of names by slots |
| textures.dfy | Textures | `RS_Texture` |
| cubemaps.dfy | Cubemaps | `RS_Cubemap` |
| lights.dfy | Lights | `RS_Light` |
| models.dfy | Models | `RS_Model` |
| scenes.dfy | Scenes | `RS_Scene` render passes |
| perlin_noise.dfy | Perlin | `PerlinNoise` |
| water_grid.dfy | WaterGrid | grid indexing, topology and normals of the water mesh |
| water_surface.dfy | WaterSurface | `WaterSurface` parameters, `rebuild` and `update` |

Floats are modelled as `real`, and every threshold is an exact real comparison.
Where the source compares `glm::length(v)` with ε, the model compares
`|v|²` with ε². For reals the two are equivalent.

## Model

| member | source | states |
|---|---|---|
| Ownership.Acquire | src/texture.cpp:56 | a generated name is never 0 or the sentinel and is not currently alive; the pool gains exactly that live name and keeps its bookkeeping (the modelled driver also never reissues a deleted name) |
| Ownership.Release | src/texture.cpp:143-145 | only a live name can be deleted; deleting it removes exactly it from the live set and records the deletion |
| Ownership.Destroy | src/cubemap.cpp:212-217 | a destructor deletes its slot's name only when it is valid; ownership is kept and the slot is left holding the sentinel |
| Ownership.MoveConstruct | src/cubemap.cpp:190-195 | a move-constructed slot takes the source's name, the source holds the sentinel, and no name is generated or deleted |
| Ownership.MoveAssign | src/cubemap.cpp:197-210 | self-assignment changes nothing; otherwise the destination's valid name is deleted, the destination takes the source's name and the source holds nothing, and ownership is kept |
| Ownership.DestroyPair | src/light.cpp:110-121 | two guarded deletions clear both slots, delete exactly their valid names, and do nothing when both hold the sentinel |
| Ownership.ReplacePair | src/light.cpp:77-82 | destroying then regenerating two slots deletes only their valid names and leaves the slots owning two distinct names that were not alive before |
| Ownership.MovePair | src/light.cpp:38-55 | two moves over four distinct slots delete the destinations' valid names and transfer the sources' names, keeping ownership |
| Textures.SelectFormat | src/texture.cpp:66-98 | a format exists exactly for 1, 3 and 4 channels; its component count is the channel count and it is half-float exactly when the image is HDR |
| Textures.FormatDetermined | src/texture.cpp:66-98 | component count and half-float-ness together identify the format, so the switch picks exactly one format per case |
| Textures.LowerCase | src/texture.cpp:24 | lower-casing keeps the length and lower-cases each character in the "C" locale |
| Textures.DetectHdr | src/texture.cpp:22-26 | an explicit HDR request stays HDR; otherwise HDR holds exactly when the lower-cased extension is ".hdr" or ".exr" |
| Textures.DetectHdrIgnoresCase | src/texture.cpp:22-26 | ".HDR" and ".Exr" are detected as HDR, ".png" is not, and an explicit request wins over the extension |
| Textures.LoadAsWritten | src/texture.cpp:14-98 | the constructor as written: a missing file or a failed decode throws before a name is generated |
| Textures.LoadLeaksNameOnUnsupportedChannels | src/texture.cpp:56-98 | a two-channel image makes the constructor as written throw while its freshly generated texture name stays alive with no owner |
| Textures.Load | src/texture.cpp:10-108 | the loader: a missing file, a failed decode and an unsupported channel count are the three errors, and none touches the pool; success holds one fresh name and the image's size, channels and HDR flag |
| Textures.LoadAgreesExceptLeak | src/texture.cpp:10-108 | the corrected loader returns the same result as the loader as written on every input, and the same pool whenever the load succeeds |
| Textures.MoveOptional | src/light.cpp:49 | moving a `std::optional<RS_Texture>` leaves the destination with the source's name and the source with no valid name, in every engaged/empty combination |
| Textures.LoadInto | src/texture.cpp:10-108 | a failed load changes nothing; a successful one appends the texture and keeps every name owned once |
| Textures.MoveConstruct | src/texture.cpp:110-118 | the new texture copies every field of the source, the source's name becomes INVALID, and no name is generated or deleted |
| Textures.MoveAssign | src/texture.cpp:120-139 | self-assignment is a no-op; otherwise the destination's valid name is deleted, every field is moved, and the source's name becomes INVALID |
| Textures.Destroy | src/texture.cpp:141-146 | the destructor deletes the name only when it is valid |
| Textures.Run | src/texture.cpp:110-146 | across any sequence of loads, moves and destructions every held texture name is alive and held by exactly one texture, so every deletion is of a live name held by exactly the deleting texture, which is then cleared; with names never reissued, no name is deleted twice |
| Cubemaps.CaptureViewsWellFormed | src/cubemap.cpp:82-89 | the capture views look along +X, −X, +Y, −Y, +Z, −Z in order, each with an axis up vector perpendicular to its direction |
| Cubemaps.CubeMeshShape | src/cubemap.cpp:102-145 | the capture cube is 36 vertices (108 floats, 12 triangles), every coordinate is ±1, each group of six lies in one face plane, and the six groups cover six distinct faces |
| Cubemaps.ConvertFaces | src/cubemap.cpp:68-188 | faces 0..5 are drawn exactly once each, in order, with their capture view, 36 vertices and a resolution-square viewport; the capture framebuffer is fresh and deleted afterwards; the default framebuffer and the saved viewport are restored |
| Cubemaps.FromEquirect | src/cubemap.cpp:14-38 | the equirectangular constructor adds one cubemap with a fresh name and the requested resolution, and converts its six faces without leaking a framebuffer |
| Cubemaps.CreateDepth | src/cubemap.cpp:41-66 | a depth cubemap holds one fresh name at the requested resolution |
| Cubemaps.MoveOptional | src/light.cpp:50 | moving a `std::optional<RS_Cubemap>` leaves the destination with the source's name and the source with none |
| Cubemaps.Create | src/cubemap.cpp:41-61 | a new cubemap is appended with a fresh valid name and the other cubemaps are unchanged |
| Cubemaps.MoveConstruct | src/cubemap.cpp:190-195 | the new cubemap takes name and resolution and the source becomes INVALID |
| Cubemaps.MoveAssign | src/cubemap.cpp:197-210 | self-assignment is a no-op; otherwise the destination's valid name is deleted, name and resolution move, and the source becomes INVALID |
| Cubemaps.Destroy | src/cubemap.cpp:212-217 | the destructor deletes only a valid name |
| Cubemaps.Run | src/cubemap.cpp:190-217 | across any creations, moves and destructions every held cubemap name is alive and held by exactly one cubemap, so every deletion is of a live name held by exactly the deleting cubemap, which is then cleared; with names never reissued, no name is deleted twice |
| Lights.TypeCode | src/light.h:16-20 | point lights are type 0 and spot lights type 1 |
| Lights.Initialised | src/light.h:65-84 | the member initialisers hold no framebuffer (0), no textures, near 0.1 and far 50, which already satisfy the shadow-range invariant |
| Lights.SetShadowNearPlane | src/light.cpp:123-128 | near becomes max(0.01, n); far is raised to near + 0.05 exactly when it is at most that, and is otherwise untouched; nothing else changes |
| Lights.SetShadowFarPlane | src/light.cpp:130-133 | far becomes max(near + 0.05, f), so it equals f exactly when f ≥ near + 0.05; near and the rest are untouched |
| Lights.SetShadowRange | src/light.cpp:135-139 | near is set first, then far against the new near; the invariant holds |
| Lights.RangeSettersPreserve | src/light.cpp:123-139 | any sequence of near, far and range setters keeps near ≥ 0.01 and far ≥ near + 0.05 and changes no other field |
| Lights.DefaultsSatisfyRange | src/light.h:82-83 | the default near 0.1 and far 50 satisfy the range invariant |
| Lights.SetSpotFov | src/light.cpp:141-146 | the field of view lands in [radians(5), radians(170)], equals the request inside that range and the nearer bound outside it |
| Lights.SetSpotFovIdempotent | src/light.cpp:141-146 | applying the clamp to its own result changes nothing |
| Lights.SetLookAtTarget | src/light.cpp:148-154 | the target is kept exactly when it is at least 0.001 from the position, and replaced by the point one unit below the light otherwise; the stored target is never degenerate |
| Lights.GetDirection | src/light.cpp:156-162 | the direction runs from the position to the target, falls back to (0, −1, 0) when they nearly coincide, and is never degenerate |
| Lights.DirectionAfterLookAt | src/light.cpp:148-162 | after setLookAtTarget the direction points at the new target, or straight down in the degenerate case |
| Lights.SetDirection | src/light.cpp:164-169 | a direction shorter than 0.001 changes nothing; otherwise the target becomes position plus the unit vector along the direction |
| Lights.DirectionAfterSetDirection | src/light.cpp:156-169 | after a non-degenerate setDirection the light's direction is the normalised direction, of length 1 |
| Lights.DestroyShadowResources | src/light.cpp:110-121 | each non-zero framebuffer is deleted once and zeroed; a light without framebuffers is left unchanged, so a second call does nothing |
| Lights.DestroyShadowResourcesIdempotent | src/light.cpp:110-121 | destroying the shadow resources twice is the same as destroying them once |
| Lights.InitializeShadowResources | src/light.cpp:77-108 | the old framebuffers are destroyed before two distinct fresh ones are generated, so the light holds exactly its two new framebuffers |
| Lights.New | src/light.cpp:14-26 | the constructor appends a light with a 512 depth cubemap, a 1024×1024 shadow map, two fresh framebuffers, the target straight below and the default range; no existing light changes and nothing is deleted |
| Lights.MovedFrom | src/light.cpp:49-55 | a moved-from light holds no framebuffer and no valid texture name, and keeps its plain fields |
| Lights.MoveAssign | src/light.cpp:33-58 | self-assignment is a no-op; otherwise the destination's framebuffers and valid textures are deleted, it takes every field and handle of the source, and the source's handles are zeroed or invalidated; ownership is kept |
| Lights.MoveConstruct | src/light.cpp:28-31 | a move-constructed light takes all of the source's handles without generating or deleting any name |
| Lights.Destroy | src/light.cpp:60-63 | the destructor deletes exactly the light's non-zero framebuffers and valid texture names |
| Lights.Configure | src/light.cpp:123-139 | a range setter on one light generates and deletes nothing and changes no other light |
| Lights.Run | src/light.cpp:14-139 | across any constructions, moves, destructions and setter calls every held framebuffer or texture name is alive and held by exactly one slot of one light, so every deletion is of a live name held by exactly the deleting slot, which is then cleared; with names never reissued, no name is deleted twice |
| Models.NewModel | src/model.cpp:13-16 | a new model has no meshes and no materials |
| Models.AddMesh | src/model.cpp:56-59 | exactly one mesh is appended and the materials do not change |
| Models.AddMaterial | src/model.cpp:61-64 | exactly one material is appended and the meshes do not change |
| Models.DrawOne | src/model.cpp:42-49 | the base-colour texture is bound to unit 0 exactly when the material has one; hasTexCoords is 1 exactly when the mesh has texture coordinates; useMaterial is always 1 |
| Models.DrawListAt | src/model.cpp:32-34 | entry i of the draw list is mesh i drawn with material i |
| Models.Draw | src/model.cpp:19-54 | given at least as many materials as meshes, the meshes are drawn in index order, exactly once each, mesh i with material i |
| Models.AddMaterialKeepsDraws | src/model.cpp:32-64 | adding a material to a drawable model does not change what is drawn |
| Models.AddMeshAppendsDraw | src/model.cpp:32-59 | adding a mesh whose material already exists appends exactly one draw, for that mesh and material |
| Models.AddPairDrawsLast | src/model.cpp:32-64 | a mesh added together with its material is drawn last, with that material |
| Scenes.Binding | src/scene.cpp:71-85 | a shadow texture is bound only with shadows on: a spot light's shadow map to unit 5, a point light's cubemap to unit 6, and nothing otherwise |
| Scenes.Additive | src/scene.cpp:49-54 | the lighting passes blend ONE, ONE with depth EQUAL and depth writes off; nothing else changes |
| Scenes.AfterLighting | src/scene.cpp:92-96 | after the lighting passes blending is off, depth is LESS and writes are on; the blend factors and everything else are left as they were |
| Scenes.Draw | src/scene.cpp:21-97 | without a camera nothing happens; with one, each light in order gets one pass that uploads its type code, binds its shadow texture and draws every model; the blend/depth state is entered and left only when there is at least one light |
| Scenes.DrawRestoresStandardState | src/scene.cpp:49-96 | from the standard state (blend off, LESS, writes on) the lighting passes restore everything except the blend factors, which they leave at ONE, ONE; so the state is restored exactly when the factors were already ONE, ONE, and not on the first frame from GL's initial ONE, ZERO |
| Scenes.DrawEnvironment | src/scene.cpp:99-130 | the environment pass runs exactly when there is a camera and an environment cubemap; it binds that cubemap, uploads the brightness, draws every model, and never changes the GL state |
| Scenes.DrawSkybox | src/scene.cpp:132-159 | the skybox draws exactly when there is a camera and an environment cubemap; it draws 36 vertices under LEQUAL and leaves LESS |
| Scenes.SkyboxPreservesStandardState | src/scene.cpp:154-158 | from depth LESS the skybox pass leaves the state unchanged and can be repeated with the same result |
| Scenes.PointFacesWellFormed | src/scene.cpp:226-233 | the point-light faces are +X, −X, +Y, −Y, +Z, −Z in order, each up vector perpendicular to its face direction, and the table equals the cubemap capture table |
| Scenes.SpotUp | src/scene.cpp:190-191 | the up vector is +Z or +Y, and is never parallel to a non-degenerate light direction |
| Scenes.SpotUpIsNormalisedTest | src/scene.cpp:190-191 | the model's squared test picks +Z exactly when the normalised direction has abs(y) > 0.99 |
| Scenes.SpotTarget | src/scene.cpp:193-195 | the stored target is used unless it coincides with the position, in which case position plus the fallback direction is used; the result is never degenerate |
| Scenes.FaceTransforms | src/scene.cpp:223-234 | the six face transforms use the light's position, near and far and the face table in order, each up perpendicular to its direction |
| Scenes.ShadowState | src/scene.cpp:171-172 | the shadow passes enable the depth test and cull front faces |
| Scenes.ShadowPassFor | src/scene.cpp:174-251 | a spot light with a shadow map renders into its shadow framebuffer with a 1024 viewport and stores its light-space transform; a point light with a cubemap renders into its cubemap framebuffer at the cubemap resolution and stores its six face transforms; any other light is skipped unchanged |
| Scenes.AfterShadows | src/scene.cpp:254-257 | after the shadow passes the framebuffer is 0, back faces are culled, the saved viewport is back and depth writes are on |
| Scenes.RenderShadowMaps | src/scene.cpp:161-258 | without shadows, lights or models nothing happens; otherwise every light in order gets its depth pass, only its stored transforms change, and the exit state is restored |
| Scenes.PassIgnoresPrior | src/scene.cpp:175-211 | a depth pass sets its own viewport and framebuffer, so what it does does not depend on the previous light's pass |
| Perlin.Identity | src/water_surface.cpp:35-37 | the base table before the shuffle holds 0..255 in order |
| Perlin.PermutationInRange | src/water_surface.cpp:35-40 | every entry of a rearrangement of 0..255 lies in 0..255 |
| Perlin.Swap | src/water_surface.cpp:39-40 | one exchange swaps two entries, keeps the others and the multiset |
| Perlin.Shuffle | src/water_surface.cpp:39-40 | any schedule of in-range exchanges keeps the length 256 and the multiset of entries |
| Perlin.ShuffleIsPermutation | src/water_surface.cpp:35-40 | whatever the exchanges, the shuffled base is a permutation of 0..255 |
| Perlin.BuildTable | src/water_surface.cpp:42-45 | the stored table has 512 entries; both halves are the base, so entry 256 + i mirrors entry i |
| Perlin.TableInRange | src/water_surface.cpp:33-45 | every entry of a constructed table lies in 0..255 |
| Perlin.NewTable | src/water_surface.cpp:33-46 | the constructor yields a 512-entry table whose lower half is a permutation of 0..255 mirrored into the upper half |
| Perlin.Mask | src/water_surface.cpp:72-74 | `& 255` yields a value in 0..255 congruent to its argument modulo 256 |
| Perlin.PermInRange | src/water_surface.cpp:84-86 | every lookup is masked, so it is in bounds for every argument, and on a constructed table its result lies in 0..255 |
| Perlin.Fade | src/water_surface.cpp:50-53 | fade(0) = 0 and fade(1) = 1 |
| Perlin.Lerp | src/water_surface.cpp:55-58 | lerp(0, a, b) = a, lerp(1, a, b) = b, and a blend of equal values is that value |
| Perlin.GradIsTableDot | src/water_surface.cpp:60-66 | `grad` (Perlin.Grad) is the dot product of (x, y, z) with gradient `hash & 15` of Perlin's 16-entry table, and every entry is a cube-edge direction |
| Perlin.GradUsesLowBits | src/water_surface.cpp:60-66 | grad depends only on the low four bits of the hash |
| Perlin.Frac | src/water_surface.cpp:76-78 | the fractional offset lies in [0, 1) |
| Perlin.CellNoiseAtCorner | src/water_surface.cpp:80-105 | the blend at a cell's own corner is zero |
| Perlin.NoiseVanishesOnLattice | src/water_surface.cpp:70-106 | `noise` (Perlin.Noise: masked lattice cell, fractional offsets, fade, eight hashed gradients blended by lerp) is zero at every integer lattice point |
| Perlin.NoisePeriodicX | src/water_surface.cpp:72-78 | the noise repeats with period 256 along x |
| Perlin.NoisePeriodicY | src/water_surface.cpp:72-78 | the noise repeats with period 256 along y |
| Perlin.NoisePeriodicZ | src/water_surface.cpp:72-78 | the noise repeats with period 256 along z |
| Perlin.ShiftedFloor | src/water_surface.cpp:72-78 | shifting by 256 leaves the masked lattice cell and the fractional offset unchanged |
| WaterGrid.FlatIndex | src/water_surface.cpp:186 | the row-major index of a grid point is in range and division and remainder recover its row and column |
| WaterGrid.CoordinatesRoundTrip | src/water_surface.cpp:186 | storing a grid point and reading its coordinates back gives the point |
| WaterGrid.IndexRoundTrip | src/water_surface.cpp:186 | reading an index's coordinates and storing them gives the index |
| WaterGrid.RowMajorAtPoint | src/water_surface.cpp:184-199 | grid point (x, z) of a filled grid holds the value computed for (x, z) |
| WaterGrid.FillGrid | src/water_surface.cpp:184-199 | the double loop over z then x writes the value of every grid point at its row-major index |
| WaterGrid.CellIndices | src/water_surface.cpp:203-214 | cell (x, z) emits (TL, BL, TR) then (TR, BL, BR), with TL = z(R+1) + x |
| WaterGrid.EmitIndices | src/water_surface.cpp:201-216 | the index loop emits the six indices of every cell in row-major cell order, R²·6 in all |
| WaterGrid.CellsAt | src/water_surface.cpp:201-216 | entry 6c + j of the index buffer is entry j of cell c |
| WaterGrid.TopologyCell | src/water_surface.cpp:201-216 | entry j of cell (x, z) sits at 6(zR + x) + j |
| WaterGrid.TopologyInRange | src/water_surface.cpp:201-216 | every emitted index is below (R+1)², so it names a vertex of the grid |
| WaterGrid.CellAreas | src/water_surface.cpp:203-214 | both triangles of a cell have the same signed area, half a cell |
| WaterGrid.CellWinding | src/water_surface.cpp:208-214 | both triangles of every cell are wound the same way round |
| WaterGrid.Clamp | src/water_surface.cpp:258-259 | std::clamp: the result lies in [lo, hi], equals v inside, and the nearer bound outside |
| WaterGrid.NeighbourIndex | src/water_surface.cpp:257-261 | neighbour coordinates are clamped into [0, R], so every heights access is in range, and an inside point maps to its own index |
| WaterGrid.Normal | src/water_surface.cpp:255-270 | the unnormalised normal has y = 2·step, positive for a positive step |
| WaterGrid.NormalIsPerpendicular | src/water_surface.cpp:263-268 | the normal is perpendicular to both central-difference tangents of the surface |
| WaterGrid.FlatWaterNormal | src/water_surface.cpp:263-268 | over flat water every normal points straight up |
| WaterGrid.BorderNeighbours | src/water_surface.cpp:257-266 | at the border the missing neighbour is the vertex itself |
| WaterSurface.NewSurface | src/water_surface.h:67-83 | a new surface is enabled and dirty, centred at the origin at time 0, with parameters already inside the setters' ranges; its first rebuild gives 9409 vertices and 55296 indices |
| WaterSurface.Adjust | src/water_surface.cpp:134-137 | a request is accepted exactly when it differs from the current value by at least 1e-4; a refused request keeps the current value; either way the result is within 1e-4 of the request |
| WaterSurface.AdjustSettles | src/water_surface.cpp:134-137 | asking again for the value just accepted is refused and changes nothing |
| WaterSurface.ClampReal | src/water_surface.cpp:159 | std::clamp on floats: the result lies in [lo, hi], equals v inside, is lo below the range and hi above it (a tile size of 1000 becomes 400) |
| WaterSurface.SetAmplitude | src/water_surface.cpp:131-138 | the amplitude is floored at 0.005 and changed only by at least 1e-4 |
| WaterSurface.SetFrequency | src/water_surface.cpp:140-147 | the frequency is floored at 0.001 and changed only by at least 1e-4 |
| WaterSurface.SetSpeed | src/water_surface.cpp:149-155 | any speed is accepted when it differs by at least 1e-4; otherwise nothing changes |
| WaterSurface.SetTileSize | src/water_surface.cpp:157-165 | the tile size is clamped to [20, 400]; an accepted change marks the mesh dirty |
| WaterSurface.SetHeightOffset | src/water_surface.cpp:167-173 | any offset is accepted when it differs by at least 1e-4; otherwise nothing changes |
| WaterSurface.Set | src/water_surface.cpp:131-173 | no setter touches the enabled flag, centre, time, resolution or buffers |
| WaterSurface.SetPreservesValid | src/water_surface.cpp:131-173 | every setter keeps the parameters in their ranges and the buffers usable |
| WaterSurface.OnlyTileSizeDirties | src/water_surface.cpp:131-173 | only an accepted tile-size change sets the dirty flag, and no setter clears it |
| WaterSurface.RepeatedSetIsRefused | src/water_surface.cpp:131-173 | calling a setter twice with the same value refuses the second call and leaves the surface as the first call left it |
| WaterSurface.Step | src/water_surface.cpp:182 | the grid spacing is positive for every positive tile size |
| WaterSurface.GridSpansTile | src/water_surface.cpp:188-189 | grid lines 0 and R lie on the tile's two edges, ±extent/2 |
| WaterSurface.TexCoord | src/water_surface.cpp:196 | the texture coordinates of the grid cover the unit square, corner (0,0) to corner (1,1) |
| WaterSurface.Rebuild | src/water_surface.cpp:175-238 | the rebuild writes (R+1)² vertices and the R²·6 grid indices, sets the index count to that size, clears the dirty flag, and changes nothing else |
| WaterSurface.RebuiltVertexAt | src/water_surface.cpp:184-199 | each rebuilt vertex holds its tile-local position, lifted by the offset and by the sampled height of `sampleHeight` (WaterSurface.SampleHeight, src/water_surface.cpp:246-253): noise at (world x · frequency, time · speed, world z · frequency) times the amplitude; its normal points up and it carries its texture coordinate |
| WaterSurface.Advance | src/water_surface.cpp:283-288 | time advances by dt; a focus more than 5 away recentres the tile and marks it dirty; otherwise the centre stays |
| WaterSurface.Update | src/water_surface.cpp:278-323 | a disabled surface is unchanged; otherwise time advances, the tile recentres when the focus is more than 5 away, a full rebuild happens exactly when the mesh was dirty or recentred, the index buffer is untouched without a rebuild, and every vertex is refreshed; since a new surface is dirty, its first enabled update rebuilds |
| WaterSurface.Refresh | src/water_surface.cpp:294-320 | the in-place refresh rewrites only the vertices, each from the current parameters |
| WaterSurface.RefreshedVertexAt | src/water_surface.cpp:298-320 | each refreshed vertex holds its tile-local position lifted by the offset and by the sampled height of `sampleHeight` (WaterSurface.SampleHeight, src/water_surface.cpp:246-253): noise at (world x · frequency, time · speed, world z · frequency) times the amplitude; its normal is computed from the clamped neighbour heights and points upward; and it carries its texture coordinate |

## Left out

- GL calls (buffer uploads, uniforms, texture parameters, shader binds, draw calls) are not modelled beyond the state and name effects above. Vertex arrays, buffers, renderbuffers and uniform buffers are not tracked as names.
- glm `lookAt`, `perspective`, the inverse-transpose and the matrix products are kept symbolic: a transform records the eye, target, up and planes it was built from.
- IEEE float rounding: every value is a `real`, and every threshold is an exact comparison.
- Perlin.Mask: `value & 255` is written as the Euclidean remainder `value % 256`. For two's-complement ints the two agree, but the bit-level equivalence is not proved.
- Perlin.Shuffle: `std::mt19937` and `std::shuffle` are foreign code. The shuffle is taken as an arbitrary schedule of in-range exchanges, so the seed does not appear.
- The actual range of the noise output is not modelled (a claim that heights stay within the offset ± the amplitude would need it).
- WaterSurface.Update: the noise function is a parameter. `PerlinNoise(m)` binds it to the table's noise, so the vertex contents are stated relative to whichever noise the surface holds.
- WaterSurface.Update: the source fills heights and positions in one loop and normals in a second. The model fills the heights, then the vertices, as two grid fills with the same values.
- WaterGrid.Normal: `glm::normalize` is not applied. The normal is the unnormalised vector, whose direction is the same. That it is non-zero follows from y = 2·step > 0.
- Lights.GetDirection: returns the direction before `glm::normalize`. After `setDirection` it is proved to be of unit length.
- Lights.SetDirection: `glm::length(direction)` is passed in as a parameter whose square equals the squared length, because reals have no square root here.
- `int` and `uint32_t` overflow in index arithmetic is not modelled. For the resolutions the setters allow (a fixed 96), every index is far below 2³².
- Texture decoding (stb_image) and extension parsing (`std::filesystem`) are inputs: whether the file exists, the extension string, and what the decoder returned.
- `RS_Texture::createDepthTexture`, called at src/light.cpp:23, is not part of this model: its definition is absent from the source. The light's shadow map is modelled as a fresh 1024×1024 single-channel texture name.
- Camera contents (view and projection matrices, position) are not modelled. A scene records only how many cameras it has.
- The `RS_Scene` accessors and `addLight` are left out (src/scene.h), and so is `WaterSurface::setEnabled` with the water getters: they are one-line field accesses.
- `WaterSurface::draw`, `drawEnvironment`, `drawDepth`, `drawDepthCubemap`, `updateBuffers`, `uploadMaterial`, and the constructor and destructor of its GL buffers are pure GL plumbing.
- `RS_Model::drawDepth` and `drawDepthCubemap` are recorded as "every model drawn" in the shadow passes. Their bodies are not in the source.
- Copying a light, texture or cubemap is not an operation of the model, matching the deleted copy constructor and copy assignment (src/light.h:33-34); objects only move.
- src/application.cpp (window, ImGui panel, main loop) and src/constants.h (window size and title) are UI and I/O.
- Header revisions:
  - The headers come from a different revision than the `.cpp` files; the `.cpp` files are followed.
  - The render settings carry the `enableShadows` and `enableShadowPCF` fields that src/scene.cpp:45-46 reads, although src/scene.h:17-24 lacks them.
  - src/scene.h:59 copies a move-only light; the model stores lights in a sequence and moves them explicitly.
- The default surface (R = 96) emits R²·6 = 96·96·6 = 55296 indices, as WaterSurface.NewSurface states.
- Ownership.Acquire: the modelled driver never reissues a name, not even a deleted one, while a real `glGen*` only promises a name not currently in use and may hand out a deleted name again. The `released[h] == 1` clauses of Textures.Run, Cubemaps.Run and Lights.Run ("no name is deleted twice") rest on this restriction. The safety property does not: `Release` requires a live name, and `Owns` makes every held name alive and held by exactly one slot.
- Textures.World and Cubemaps.World each carry their own texture pool, while GL has one texture-name space. The two worlds are separate views of that one namespace; Lights.World shares one texture pool between a light's shadow map and its depth cubemap.
- Cubemaps.ConvertFaces: the temporary renderbuffer, vertex array and vertex buffer of the conversion are not tracked; only the capture framebuffer is.

## Findings

| source | as written | input that shows it | evidently intended | confidence | as-written member | corrected member |
|---|---|---|---|---|---|---|
| src/texture.cpp:56-98 | `glGenTextures` runs before the channel switch; the switch throws for an unsupported channel count, so the constructor never completes and its destructor never deletes the generated name | an existing ".png" whose decoder reports 2 channels (grey and alpha): the constructor throws and the fresh texture name stays alive with no owner | check the channel count before generating the name, or delete the name before throwing, so a failed load leaks nothing | not executed | Textures.LoadAsWritten | Textures.Load |
