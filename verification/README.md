# Print-order estimator, modelled in Dafny

The repository is a small web shop for 3D prints. The browser loads an STL
mesh or a 3MF scene. It centres the model, measures its bounds and enclosed
volume, and shows the chosen material, colour, stock flag and scaled
dimensions. It also computes a filament, time and price estimate for the
material and scale into page state. The estimate's display and the infill
slider are commented out of the page (App.jsx:694-703 and 749-761), so the
infill stays at its initial 15 % (App.jsx:270). A server endpoint,
`/api/slice`, runs a slicing engine on an upload. It reads the filament
length and print time out of the engine's text output and turns them into
a second estimate.

This project models both pipelines over Dafny's `real` numbers, which stand
in for JavaScript doubles. Where the code would produce NaN or throw, the
model returns `None` or a named outcome.

- **vectors.dfy** (`Vectors`) holds 3-vectors and their algebra, including
  the cube law of the triple product.
- **volume.dfy** (`Volume`) models `computeGeometryVolume`:
  - the signed-tetrahedron sum over a flat position buffer, reading an
    index past the end as 0, as `new Vector3` does with `undefined`;
  - the loop itself, as a method;
  - scaling by `|s|³`;
  - additivity over concatenation.
- **bounds.dfy** (`Bounds`) covers the axis-aligned bounding box of a
  buffer, its centre and size, translation, and `centerGeometry`.
- **scene.dfy** (`Scene`) models the scene tree and its functions:
  - `getAllMeshes`, which walks the tree in pre-order with an accumulator;
  - `createMergedGeometry`, where the library merge's outcome is a
    parameter;
  - `calculateBounds`;
  - `centerGroup`, measured against three.js's `Box3.setFromObject`.
- **catalog.dfy** (`Catalog`) holds the `MATERIALS` and `COLORSLIST` tables,
  the selection state, and the two change handlers.
- **estimate.dfy** (`Estimate`) models `calculateEstimate`: volume × scale³,
  then infill, grams, filament cost and electricity cost.
- **text.dfy**, **pattern.dfy** and **number.dfy** model the server's text
  handling:
  - ASCII lower-casing;
  - the two stdout regular expressions, with their meaning, the leftmost
    match, and the greedy matcher;
  - `parseFloat` on `[0-9.]` runs.
- **slicer.dfy** (`Slicer`) models the `/api/slice` handler:
  - the 400, crash, 500 and success paths;
  - the zero defaults;
  - the density lookup;
  - the metres → "grams" → price conversion.

The server divides the volume by 1000 to get cm³, and then multiplies by
`density / 1000`. Its `filamentGrams` figure is therefore one thousandth of
the filament's mass in grams, as `Slicer.FilamentGramsIsThousandthOfMass`
states. The model keeps the formula as written.

## Model

| member | source | states |
|---|---|---|
| Volume.GeometryVolume | frontend/src/App.jsx:518-529 | The volume is a number for every buffer, a partial last triangle included. It is never negative, and an empty buffer gives 0. |
| Volume.ComputeGeometryVolume | frontend/src/App.jsx:518-529 | The stride-9 accumulation loop returns the absolute value of the sum of the triangles' signed tetrahedron volumes, with every index past the end read as 0. |
| Volume.MissingVertexVanishes | frontend/src/App.jsx:521-526 | A last triangle that lacks its third vertex, or its last two, contributes no volume: the padded vertex is the origin. |
| Volume.WholeVerticesIgnorePadding | frontend/src/App.jsx:521-526 | For a buffer of whole vertices, the padded read gives the same signed sum as the buffer cut to its whole triangles. |
| Volume.PartialTriangleExample | frontend/src/App.jsx:521-528 | `[0,1,0, 0,0,1, 1]` has volume 1/6: the missing y and z of the third vertex are read as 0, and the result is not NaN. |
| Volume.VolumeScales | frontend/src/App.jsx:518-529 | Scaling every coordinate by s multiplies the computed volume by \|s\|³, for every buffer. |
| Volume.SignedVolumeScales | frontend/src/App.jsx:522-526 | The signed sum of a scaled buffer is s³ times the signed sum. |
| Volume.SignedVolumeAppend | frontend/src/App.jsx:522-526 | The signed sum of a whole-triangle buffer followed by any buffer is the sum of their signed sums. |
| Volume.SignedVolumeConcat | frontend/src/App.jsx:522-526 | The signed sum of a concatenation of whole-triangle buffers is the sum of the parts' signed sums. |
| Vectors.TripleScales | frontend/src/App.jsx:522-525 | Scaling all three vertices by s scales v0·(v1×v2) by s³. |
| Bounds.BoundsTight | frontend/src/App.jsx:244-251 | The min/max box of a non-empty point list contains every point, and each of its six faces is attained by some point. |
| Bounds.CenterGeometry | frontend/src/App.jsx:244-251 | After centring, the bounds' centre is the origin and their size is unchanged. Every vertex moved by one common offset. |
| Bounds.TranslateBounds | frontend/src/App.jsx:244-251 | Translating the buffer translates its vertices and its bounding box by the same offset. |
| Bounds.BoundsAppend | frontend/src/App.jsx:361-380 | The box of two point lists together is the union of their boxes. |
| Scene.CollectIsPreorder | frontend/src/App.jsx:307-319 | The accumulator walk appends exactly the structural pre-order list of mesh nodes: node before children, children left to right. |
| Scene.MeshesCounted | frontend/src/App.jsx:307-319 | The walk lists as many entries as the tree has mesh nodes, and every entry is a mesh. |
| Scene.GetAllMeshes | frontend/src/App.jsx:307-319 | `getAllMeshes` from an empty list is the pre-order mesh list, each mesh once, with length equal to the mesh count. |
| Scene.CreateMergedGeometry | frontend/src/App.jsx:322-359 | The result is null exactly when no mesh has a position attribute (including no meshes at all) or the library merge returns null. |
| Scene.TransformedEmpty | frontend/src/App.jsx:334-349 | The list of world-space clones is empty exactly when no mesh has positions. |
| Scene.ThrowFallsBackToFirstMesh | frontend/src/App.jsx:351-358 | When the merge throws, the result is the world-space clone of the first mesh in walk order that has positions. Later meshes are dropped, not skipped past. |
| Scene.MergedVolume | frontend/src/App.jsx:351-355 | When every clone holds whole triangles, the signed volume of the merged buffer is the sum of the clones' signed volumes. |
| Scene.CalculateBounds | frontend/src/App.jsx:361-380 | Bounds of a scene are defined (no throw) exactly when every mesh has a position attribute. |
| Scene.CalculateBoundsAgrees | frontend/src/App.jsx:361-380 | The union of per-mesh world boxes equals `Box3.setFromObject` of the scene. |
| Scene.MergedBoundsAgree | frontend/src/App.jsx:351-380 | With whole vertices, the scene bounds equal the bounding box of the merged buffer. |
| Scene.CenterGroup | frontend/src/App.jsx:252-258 | `centerGroup` changes only the root's position, and moves it by exactly minus the scene box's centre. An empty box (no mesh with positions) leaves the position unchanged. Afterwards the scene box is the old box shifted by minus its centre: centred on the origin, same size. |
| Scene.ShiftExpand | frontend/src/App.jsx:252-258 | Moving the root by d moves every world-space mesh box, and so the scene box, by d. |
| Catalog.EveryMaterialHasColours | frontend/src/App.jsx:18-242 | Every key of `MATERIALS` has a non-empty colour list in `COLORSLIST`, so the first-variant pick is always defined. |
| Catalog.HandleMaterialChange | frontend/src/App.jsx:531-536 | A material change succeeds exactly for a material with a non-empty colour list. It selects the first variant and copies its information and stock flag. The colour drop-down value is untouched. |
| Catalog.MaterialChangeConsistent | frontend/src/App.jsx:531-536 | After a material change to a table material, the state is consistent: the information and stock shown are those of a colour of the new material. |
| Catalog.MaterialChangeKeepsStaleColourName | frontend/src/App.jsx:531-536 | The drop-down keeps its old name, which need not be a colour of the new material (PLA/Green → TPU). |
| Catalog.HandleColorChange | frontend/src/App.jsx:543-548 | A colour change succeeds exactly for a colour of the current material. It never changes the material, and it records the chosen name. |
| Catalog.ColorChangeSynced | frontend/src/App.jsx:543-548 | After a colour change the information, stock flag and drop-down all belong to the picked variant. |
| Catalog.InitialStateInconsistent | frontend/src/App.jsx:263-269 | The initial state says "in stock" for PLA/Green, whose table entry is out of stock, and it is not consistent. |
| Catalog.CorrectedInitialStateSynced | frontend/src/App.jsx:263-269 | The corrected initial state is synced with the table, and a colour pick of Green under PLA reproduces it. |
| Estimate.CalculateEstimate | frontend/src/App.jsx:481-516 | No positions: nothing happens. Unknown material: throws. Every other call gives an estimate, the formula chain on volume × scale³. |
| Estimate.ScaleEquivalence | frontend/src/App.jsx:485 | Multiplying the volume by scale³ gives the same estimate as computing on the geometry actually scaled by the (non-negative) slider value. |
| Estimate.GramsExample | frontend/src/App.jsx:484-490 | 1000 mm³, scale 1, infill 100, PLA: 1.24 g. |
| Estimate.GramsHalfInfill | frontend/src/App.jsx:486-490 | The same at infill 50: 0.62 g. |
| Estimate.GramsLinearInInfill | frontend/src/App.jsx:486-490 | Filament grams are proportional to the infill percentage. |
| Estimate.PriceIsAlwaysDefault | frontend/src/App.jsx:492 | No table material has a price, so the price per kg is always the default 25. |
| Estimate.PriceDecomposes | frontend/src/App.jsx:492-509 | Total = grams/1000·25 + (150·hours/1000)·0.3 + 0 for every table material. |
| Estimate.EstimateNonNegative | frontend/src/App.jsx:481-509 | Positions and a known material give an estimate; its grams, hours and price are non-negative for non-negative scale and infill, given a non-negative cube root. |
| Pattern.MatchAtIff | backend/server.js:47-48 | The greedy attempt at an index succeeds with a capture exactly when the expression `tag([0-9.]+)unit` matches there with that capture. |
| Pattern.CaptureUnique | backend/server.js:47-48 | At a given index at most one capture can match. |
| Pattern.FirstMatchIsFirst | backend/server.js:47-48 | The search returns the attempt at the first index where one succeeds, and nothing when none does. |
| Pattern.CaptureIsLeftmost | backend/server.js:47-48 | `match` yields a non-empty `[0-9.]` run matched at the leftmost matching index, and nothing exactly when the expression matches nowhere. |
| Pattern.CaptureExample | backend/server.js:47 | `Filament used: 12.5m` captures `12.5`. |
| Number.ParseFloat | backend/server.js:54-55 | The parsed value, when a number, is non-negative. |
| Number.LongestDecimalPrefix | backend/server.js:54-55 | The parser reads the longest prefix of decimal-literal form, and no longer prefix has that form. |
| Number.ParseFloatMeaning | backend/server.js:54-55 | NaN exactly when no prefix is a decimal literal. Otherwise the value of the longest such prefix. |
| Number.ParseFloatNat | backend/server.js:54-55 | The decimal rendering of any whole number parses back to that number. |
| Number.ParseFloatSecondPoint | backend/server.js:54-55 | `"1.2.3"` parses as 1.2. |
| Number.ParseFloatTrailingPoint | backend/server.js:54-55 | `"5."` parses as 5. |
| Number.ParseFloatLonePoint | backend/server.js:54-55 | `"."` parses as NaN. |
| Number.ParseFloatLeadingPoint | backend/server.js:54-55 | `".5"` parses as 0.5. |
| Slicer.Density | backend/server.js:58-61 | The density is one of 1.27, 1.04, 1.07, 1.24. |
| Slicer.DensityDefault | backend/server.js:58-61 | Any name that does not lower-case to `petg`, `abs` or `asa` gets the PLA density 1.24. |
| Slicer.DensityIgnoresCase | backend/server.js:58-61 | Names that lower-case alike get the same density. |
| Slicer.DensityExamples | backend/server.js:58-61 | PETG → 1.27, Abs → 1.04, asa → 1.07, PLA → 1.24. |
| Slicer.DensityAgreesWithCatalog | backend/server.js:58-61 | The server density equals the client table's density for every client material except TPU. |
| Slicer.TpuDensityDiffers | backend/server.js:58-61 | TPU is read as PLA (1.24) on the server but is 1.3 in the client table. |
| Slicer.FilamentGramsLinear | backend/server.js:63-66 | The filament figure is additive and homogeneous in the length, and 0 at length 0. |
| Slicer.FilamentGramsNonNegative | backend/server.js:63-66 | Non-negative for a non-negative length and density. |
| Slicer.FilamentGramsIsThousandthOfMass | backend/server.js:63-66 | The figure is the filament mass in grams divided by 1000. |
| Slicer.PriceNonNegative | backend/server.js:71-73 | The price is non-negative for non-negative grams and hours. |
| Slicer.Measured | backend/server.js:54-55 | A measured quantity, when a number, is non-negative. |
| Slicer.Interpret | backend/server.js:47-73 | The price is a number exactly when both figures are, and then equals grams·0.05 + hours·0.20. |
| Slicer.MeasuredFromLeftmostMatch | backend/server.js:47-55 | The quantity read is `parseFloat` of the run captured at the leftmost index where the expression matches. |
| Slicer.InterpretFromLeftmostMatches | backend/server.js:47-68 | When the filament and time expressions first match with captures c and d, the quote's filament is `parseFloat(c)` turned into grams at the material's density, and its time is `parseFloat(d)` in hours; NaN stays NaN. |
| Slicer.FilamentDefaultsToZero | backend/server.js:54 | No filament match anywhere: filament is 0, and the time is still read from its own pattern. |
| Slicer.TimeDefaultsToZero | backend/server.js:55 | No time match anywhere: time is 0, and the filament is still read from its own pattern. |
| Slicer.QuotePriceNonNegative | backend/server.js:54-73 | Every figure of a quote, when a number, is non-negative. |
| Slicer.InterpretExample | backend/server.js:47-68 | `Filament used: 2.500m` and `Print time: 120min` with PETG give the figure for 2.5 m at density 1.27, and 2 hours. |
| Slicer.Slice | backend/server.js:20-43 | A crash exactly when the body is absent (destructuring `undefined`), or a file comes without material or quality. Otherwise 400 "No file uploaded" exactly when there is no file. A 500 "Slicing failed" exactly when the engine fails on a complete request. An estimate is the interpretation of the engine's output for the requested material. |
| Slicer.NoFileNoSlicing | backend/server.js:20-24 | Without a file the engine is never consulted: the response is 400 when there is a body, and a crash when there is none. |
| Slicer.EngineErrorNoEstimate | backend/server.js:38-43 | An engine error gives exactly the 500 "Slicing failed" response with no estimate. A completed run gives an estimate. |

## Left out

- Parsing of STL and 3MF files (`STLLoader`, `ThreeMFLoader`) is out of the model. A scene is given directly as a tree of nodes with optional position buffers.
- World transforms are translations only. A node's world offset is the sum of positions down the path, so rotation and scale in `matrixWorld` are out. `applyMatrix4` on a geometry and on a box is modelled as a translation.
- `mergeGeometries` is a parameter (merged, returned null, threw). A successful merge concatenates position buffers. Normals (`computeVertexNormals`) are out.
- When `mergeGeometries` throws, the code returns only the first clone (App.jsx:357). Meshes that fail are not skipped, and the model follows the code.
- `Math.cbrt` is a function parameter of the estimate. `Math.PI` is the decimal 3.141592653589793, taken as exact.
- IEEE rounding and `toFixed(2)` formatting are out: the model's figures are exact reals, and NaN is None.
- Estimate.CalculateEstimate: takes material and infill as explicit arguments. When called from the change handlers, the source reads the values of the previous render, because React state updates are scheduled. `layerHeight` never enters the estimate.
- The estimate's `MATERIALS[material]` lookup models only the table's own keys. Inherited object keys such as `constructor` are not modelled.
- Bounds.Points: a trailing partial vertex (a buffer length not divisible by 3) is dropped, where three.js's bounding-box walk would read undefined coordinates. The volume loop instead reads them as 0, and the model follows that.
- Bounds.Translate: a trailing partial vertex is shifted by the offset like any other. In three.js, `applyMatrix4` computes with its undefined coordinates and the vertex becomes NaN. This carries over to `Bounds.CenterGeometry` and `Scene.Transformed`. The loaders never produce such a buffer.
- Scene.CalculateBounds: only the group branch of `calculateBounds` (App.jsx:366-377) is modelled. The `isBufferGeometry` branch (App.jsx:364-365) is out, because every caller (App.jsx:291, 457, 582) passes a loaded group.
- Scene.MergedVolume: additivity is stated for clones of whole triangles only. A clone with a partial last triangle makes the merged buffer regroup the floats after it into different triangles.
- Handler throws (an unknown material or colour) are modelled as None, not as a JavaScript exception propagating through React.
- Number.ParseFloat: defined only on strings of digits and dots, the only strings the capture can hold. Signs, exponents, whitespace and `Infinity` are out.
- Text.Lower: lower-cases ASCII letters only, not all of Unicode.
- Slicer.Response.Status: the status of a `Crashed` response is left open. It depends on the web framework's default error handler.
- Slicer.Request: the body is present or absent. A body that is present but is not an object of strings (a field sent twice, say) is out.
- Rendering, camera centring, the per-vertex colour gradient, resize handling and JSX layout are out. Express/multer/CORS plumbing, config-path construction, the shell command and the file cleanup are out as well.

## Findings

| source | as written | input that shows it | evidently intended | confidence | as-written member | corrected member |
|---|---|---|---|---|---|---|
| frontend/src/App.jsx:263-269 | The initial state holds the bare name "Green" and `instock = true`. | Page load with PLA selected: the PLA/Green variant has `stock: false` (App.jsx:202), yet the page shows it as in stock. | The initial state as a pick of PLA/Green would leave it: the variant itself, its information, `instock = false`. | medium, not executed | Catalog.InitialStateInconsistent | Catalog.CorrectedInitialStateSynced |
