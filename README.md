# Real-time face ageing: the warp-and-blend core in Dafny

This project models the geometric core of a browser application. The application is meant to age a
live face by blending it with two average faces, one of the subject's current age group
and one of the target age group. The model covers four source files:

- `src/js/procrustes_align.js`: the point-set aligner.
  - It centres both landmark sets on their centroids.
  - It scales the source by the ratio `s2 / s1` of the two sums of squared norms.
  - It rotates the source by `atan2(A, B)`, built from the cross sums `A` and `B`.
  - It moves the result onto the target's centroid.
- `src/js/face_ager.js`: the mesh geometry builder.
  - `findDimensions` computes the integer bounding box of the tracked landmarks.
  - `correctPoints` moves the landmarks into that box.
  - `createTextureVertices` and `createPositionVertices` lay out six numbers per
    face-model triangle.
  - The `FaceAger` object stores these in `load` and reads them back in `draw`.
- `src/js/vertex_shader.js`: a GLSL vertex shader for the ageing warp.
  - It moves each subject vertex by twice the target-minus-current average displacement.
  - It converts pixels to clip space, flipping y.
  - It passes the three texture coordinates through.
- `src/js/fragment_shader.js`: a GLSL fragment shader for the ageing blend.
  - It adds three quarters of the target-minus-current average colour to the subject's
    colour, unclamped.

## Modules

| File | Module | Contents |
|---|---|---|
| `points.dfy` | `Points` | A landmark `Point(x, y)` with real coordinates, and the `Xs` / `Ys` projections (`map(point => point[0])`). |
| `real_facts.dfy` | `RealFacts` | Small facts of real arithmetic that the proofs call on exact terms. |
| `math_model.dfy` | `MathModel` | `Math`, a value carrying `cos`, `sin`, `atan2` and `sqrt` as functions, plus the predicates `TrigLaws` and `SqrtLaws` (described below). |
| `procrustes.dfy` | `Procrustes` | The aligner (details below). |
| `mesh.dfy` | `Mesh` | The mesh builder (details below). |
| `glsl.dfy` | `Glsl` | `Vec2`, `Vec4`, their componentwise operations, and the varyings. |
| `vertex_shader.dfy`, `fragment_shader.dfy` | `VertexShader`, `FragmentShader` | The two shader `main`s as functions. |

Each source function maps to one Dafny function of the same role: `calcMean` is `Procrustes.CalcMean`, `findDimensions` is specified by `Mesh.BoundingBox`, the vertex shader's displacement and pixel-to-clip steps are `VertexShader.NewPosition` and `VertexShader.PixelToClip` and its `main` is `VertexShader.Main`, and the fragment shader's colour step is `FragmentShader.Blend` and its `main` is `FragmentShader.Main`. The remaining helpers keep their source names in Dafny style (`subtractFromPoints` is `Procrustes.SubtractFromPoints`, `createTextureVertices` is `Mesh.CreateTextureVertices`, and so on).

`TrigLaws` holds `cos 0 = 1`, `sin 0 = 0`, `cos² + sin² = 1` and `atan2(0, b) = 0` for `b > 0`. Lemmas that need these laws take them as a precondition. `SqrtLaws` plays the same role for `sqrt`.

The `Procrustes` module:
- The `map`/`reduce` helpers are functions.
- The loops are methods proved equal to fold functions: `calcSumOfSquaredDistance`, and the `A` and `B` accumulators.
- `procrustesAlign` is a method that reassigns `points1` step by step, proved equal to the function `Align`.

The `Mesh` module:
- The four geometry functions of `face_ager.js` are loop methods, each proved equal to a function that states its result.
- `FaceAger` is a class. Its fields are `vertices`, `dimensions`, `points` and `textureVertices`.
- A ghost flag `loaded` records that `load` has run.

Two points where the program's own text and its code part ways; the model follows the code:
- **Scaling.** The function is named `procrustesAlign`, and its comment says it "aligns pointSet1 to pointSet2" (`src/js/procrustes_align.js:2`). A similarity fit of that kind returns a scaled and moved copy of the source unchanged when aligning the source onto it. The code scales by `s2 / s1` (line 17), the square of the size ratio, so aligning `[[0,0],[2,0],[0,2]]` onto `[[10,10],[14,10],[10,14]]` comes back four times the source's centred size instead of twice (see Findings).
- **`draw`.** `FaceAger.draw(points)` (`src/js/face_ager.js:42`) takes one argument, the subject's landmarks, and builds the position array from them and the triangles `load` stored in `this.vertices` (line 43). Its caller, `src/js/app.js:63`, passes two more point sets, the current and target averages, which `draw` ignores. The model's `Draw` takes only the landmarks, as the code does.
- **Unconnected modules.** `FaceAger` compiles its own single-texture shaders in `createShaderProgram` (`src/js/face_ager.js:128-156`): that vertex shader only converts pixels to clip space, with no displacement, and that fragment shader only samples one texture. No source file imports `procrustes_align.js`, `vertex_shader.js` or `fragment_shader.js` (`src/js/app.js:1-6`, `src/js/index.js:1-4`; `face_ager.js` imports nothing). So the modelled `Procrustes`, `VertexShader` and `FragmentShader` modules describe code that the rendering path of this version never reaches, and nothing in the model connects them to `Draw`.

## Model

| member | source | states |
|---|---|---|
| Procrustes.SumOfOffsets | src/js/procrustes_align.js:47-50 | Adding `c` to each of `n` values adds `n·c` to their `reduce` sum. |
| Procrustes.SumOfMultiples | src/js/procrustes_align.js:47-50 | Multiplying each value by `k` multiplies the `reduce` sum by `k`. |
| Procrustes.SubtractFromPoints | src/js/procrustes_align.js:67-73 | The result has the input's length, and point i is input point i minus the offset, for every i. |
| Procrustes.AddToPoints | src/js/procrustes_align.js:78-84 | The result has the input's length, and point i is input point i plus the offset. |
| Procrustes.ScalePoints | src/js/procrustes_align.js:97-104 | The result has the input's length, and point i is input point i times the scale on both axes. |
| Procrustes.RotatePoints | src/js/procrustes_align.js:109-116 | The result has the input's length, and point i is input point i under the rotation matrix of the angle. |
| Procrustes.AddUndoesSubtract | src/js/procrustes_align.js:67-84 | `addToPoints(subtractFromPoints(P, d), d) == P` for every offset `d`. |
| Procrustes.SubtractUndoesAdd | src/js/procrustes_align.js:67-84 | `subtractFromPoints(addToPoints(P, d), d) == P`. |
| Procrustes.ScaleByOne | src/js/procrustes_align.js:97-104 | Scaling by 1 is the identity. |
| Procrustes.RotateByZero | src/js/procrustes_align.js:109-116 | Given `cos 0 = 1` and `sin 0 = 0`, rotating by 0 is the identity. |
| Procrustes.MeanBalancesDeviations | src/js/procrustes_align.js:46-58 | The deviations of a non-empty set from `calcMean` sum to zero on each axis. |
| Procrustes.MeanIsUnique | src/js/procrustes_align.js:46-58 | Any point whose deviations sum to zero on both axes is `calcMean`, so `calcMean` is exactly the centroid (Σx/n, Σy/n). |
| Procrustes.CentredMeanIsZero | src/js/procrustes_align.js:8-13 | Once a set has its own mean subtracted, its mean is (0, 0). |
| Procrustes.MeanOfTranslated | src/js/procrustes_align.js:46-58 | Moving a set by `d` moves its mean by `d`. |
| Procrustes.MeanOfScaled | src/js/procrustes_align.js:46-58 | Scaling a set by `k` scales its mean by `k`. |
| Procrustes.Centred | src/js/procrustes_align.js:8-13 | A set minus its own mean keeps its length and has coordinate sums of zero. |
| Procrustes.CentredOfTranslated | src/js/procrustes_align.js:8-13 | Centring ignores a translation of the set. |
| Procrustes.CentredOfScaledCopy | src/js/procrustes_align.js:8-13 | The centred form of `k·P + d` is `k` times the centred form of `P`. |
| Procrustes.CentredAndMeanRebuild | src/js/procrustes_align.js:8-13 | Adding the mean back to the centred set gives the set again. |
| Procrustes.CalcSumOfSquaredDistance | src/js/procrustes_align.js:86-92 | The loop returns Σ(x² + y²) over the set. |
| Procrustes.SqNormFacts | src/js/procrustes_align.js:89 | A point's squared norm is ≥ 0, and > 0 unless the point is the origin. |
| Procrustes.SumSqNonNegative | src/js/procrustes_align.js:86-92 | The sum of squared distances is never negative. |
| Procrustes.SumSqPositive | src/js/procrustes_align.js:86-92 | One point off the origin makes the sum of squared distances positive. |
| Procrustes.SumSqZeroIff | src/js/procrustes_align.js:86-92 | The sum is 0 if and only if every point is the origin. |
| Procrustes.ScaleSumSq | src/js/procrustes_align.js:97-104 | Scaling by `k` multiplies the sum of squared distances by `k²`. |
| Procrustes.RotatePreservesSqNorms | src/js/procrustes_align.js:109-116 | Given `cos² + sin² = 1`, rotation keeps every point's squared distance from the origin, and so the sum. |
| Procrustes.AccumulateA | src/js/procrustes_align.js:21-24 | The loop returns `A = Σ(x1·y2 − y1·x2)` over the first set's indices. |
| Procrustes.AccumulateB | src/js/procrustes_align.js:27-30 | The loop returns `B = Σ(x1·x2 + y1·y2)`. |
| Procrustes.SelfCrossSums | src/js/procrustes_align.js:20-30 | A set against itself has `A = 0` and `B` equal to its sum of squared distances. |
| Procrustes.ScaledCopiesCrossSums | src/js/procrustes_align.js:20-30 | For two scalings `g·P` and `k·P` of one set, `A = 0` and `B = gk·Σ‖p‖²`, where `gk = g·k`. |
| Procrustes.Align | src/js/procrustes_align.js:7-40 | The aligned set has the length of `pointSet1`. |
| Procrustes.ProcrustesAlign | src/js/procrustes_align.js:7-40 | The step-by-step method returns `Align` of its inputs. |
| Procrustes.SelfAlignmentTerms | src/js/procrustes_align.js:15-30 | Aligning a set to itself gives scaling 1, `A = 0` and `B = s1 > 0`. |
| Procrustes.AlignSelf | src/js/procrustes_align.js:7-40 | Given the trigonometric laws, aligning a non-degenerate set to itself returns it unchanged. |
| Procrustes.AlignIgnoresSourceTranslation | src/js/procrustes_align.js:7-40 | Moving the source set changes neither the degeneracy condition nor the result. |
| Procrustes.AlignKeepsTargetCentroid | src/js/procrustes_align.js:7-40 | For every admissible pair of sets and any `cos`, `sin` and `atan2`, the aligned set's centroid is the centroid of `pointSet2`. |
| Procrustes.RotationKeepsBalance | src/js/procrustes_align.js:109-116 | Rotating a set whose coordinates sum to zero on both axes keeps both sums at zero, for any `cos` and `sin`. |
| Procrustes.SumOfCombination | src/js/procrustes_align.js:47-50 | The `reduce` sum is linear: the sum of `a·s + b·t` is `a·Σs + b·Σt`. |
| Procrustes.AlignCentredOfScaledCopy | src/js/procrustes_align.js:15-37 | A centred set aligned onto `k` times itself (`k > 0`) comes out as `k²` times itself on the target's mean. |
| Procrustes.AlignOfScaledCopy | src/js/procrustes_align.js:7-40 | Aligning `P` onto `k·P + d` gives `P`'s centred shape scaled by `k²` on the target's centroid. |
| Procrustes.AlignMissesScaledCopy | src/js/procrustes_align.js:17 | For `k > 0` with `k ≠ 1`, aligning `P` onto `k·P + d` does not return `k·P + d`. |
| Procrustes.ExampleMean | src/js/procrustes_align.js:46-58 | The mean of `[[0,0],[2,0],[0,2]]` is (2/3, 2/3). |
| Procrustes.AlignExampleAsWritten | src/js/procrustes_align.js:7-40 | `[[0,0],[2,0],[0,2]]` aligned onto `[[10,10],[14,10],[10,14]]` has first point (26/3, 26/3), not the target. |
| Procrustes.ExampleAlignment | src/js/procrustes_align.js:7-40 | That alignment is the source's centred shape times 4 on the centroid (34/3, 34/3). |
| Procrustes.AlignIntended | src/js/procrustes_align.js:7-40 | The corrected aligner scales by `sqrt(s2 / s1)`, and the result has the length of `pointSet1`. |
| Procrustes.AlignIntendedRecoversScaledCopy | src/js/procrustes_align.js:17 | With the square root, aligning `P` onto `k·P + d` (`k > 0`) returns exactly `k·P + d`. |
| Procrustes.AlignExampleIntended | src/js/procrustes_align.js:7-40 | With the square root, the example alignment returns the target `[[10,10],[14,10],[10,14]]`. |
| Procrustes.AlignIntendedKeepsTargetCentroid | src/js/procrustes_align.js:7-40 | The corrected aligner also puts its result's centroid on the centroid of `pointSet2`. |
| Mesh.Floor | src/js/face_ager.js:75 | `Math.floor`: the greatest integer not above `x`. |
| Mesh.Ceil | src/js/face_ager.js:76 | `Math.ceil`: the least integer not below `x`. |
| Mesh.RunningMax | src/js/face_ager.js:69 | The running maximum is ≥ the seed and every value, and is the seed or one of the values. |
| Mesh.RunningMin | src/js/face_ager.js:70 | The running minimum is ≤ the seed and every value, and is the seed or one of the values. |
| Mesh.FindDimensions | src/js/face_ager.js:62-83 | The loop and the floor/ceiling return the bounding box seeded with `[textureWidth, 0]` and `[textureHeight, 0]`. |
| Mesh.BoxContainsPoints | src/js/face_ager.js:62-78 | Every point lies in `[minX, maxX] × [minY, maxY]`. |
| Mesh.BoxCoversSeeds | src/js/face_ager.js:63-78 | Because of the seeds, `minX ≤ textureWidth`, `maxX ≥ 0`, `minY ≤ textureHeight` and `maxY ≥ 0`. |
| Mesh.BoxSize | src/js/face_ager.js:75-82 | `width = maxX − minX` and `height = maxY − minY`, both ≥ 0 for a non-empty point set. |
| Mesh.BoxIsSmallest | src/js/face_ager.js:62-78 | The box is the smallest integer one on both axes: any integer x range and y range that contain the points and respect the seeds contain `[minX, maxX]` and `[minY, maxY]`. |
| Mesh.AxisIsSmallest | src/js/face_ager.js:62-74 | On one axis, the running minimum and maximum stay inside any bounds that hold every coordinate and the seeds. |
| Mesh.ExampleTriangleBox | src/js/face_ager.js:62-83 | The box of `[[0,0],[4,0],[0,4]]` on a 640 × 480 texture is `[0, 4] × [0, 4]`, of width and height 4. |
| Mesh.Corrected | src/js/face_ager.js:85-95 | Length kept; point i is input point i minus `(minX, minY)`, and nothing else changes. |
| Mesh.CorrectPoints | src/js/face_ager.js:85-95 | The loop returns `Corrected`. |
| Mesh.CorrectedWithinBox | src/js/face_ager.js:11-12 | Points corrected by their own box lie in `[0, width] × [0, height]`. |
| Mesh.TextureVertices | src/js/face_ager.js:97-110 | There are six values per triangle. |
| Mesh.TextureVerticesLayout | src/js/face_ager.js:97-110 | Value `6i + 2j` is corner `j` of triangle `i`, x over width, and value `6i + 2j + 1` is its y over height. |
| Mesh.CreateTextureVertices | src/js/face_ager.js:97-110 | The push loop returns `TextureVertices`. |
| Mesh.PositionVertices | src/js/face_ager.js:112-125 | There are six values per triangle, in the same layout, holding the raw coordinates. |
| Mesh.CreatePositionVertices | src/js/face_ager.js:112-125 | The push loop returns `PositionVertices`. |
| Mesh.TextureCoordsInUnit | src/js/face_ager.js:97-110 | For points in their box, with positive width and height, every texture coordinate is in `[0, 1]`. |
| Mesh.TextureIsScaledPosition | src/js/face_ager.js:97-125 | The texture vertices are the position vertices with x divided by width and y divided by height. |
| Mesh.ExampleTriangleTexture | src/js/face_ager.js:97-110 | The triangle `[0, 1, 2]` over `[[0,0],[4,0],[0,4]]` in a 4 × 4 box gets `[0,0, 1,0, 0,1]`. |
| Mesh.FaceAger.constructor | src/js/face_ager.js:2-6 | A new object is valid and not yet loaded. |
| Mesh.FaceAger.Load | src/js/face_ager.js:8-40 | Load stores the triangles, the box, the corrected points and their texture vertices. Afterwards the object is loaded and valid: indices in range, six texture values per triangle, points in the box, every texture coordinate in `[0, 1]`. |
| Mesh.FaceAger.Draw | src/js/face_ager.js:42-55 | On a loaded, valid object, returns the position vertices of the stored triangles over the new points, and the vertex count `3 · vertices.length`. The count is half the number of position values, and the position array is as long as the texture array `load` stored. |
| VertexShader.NoDisplacementIff | src/js/vertex_shader.js:17 | `newPos == subject` if and only if the target and current averages agree. |
| VertexShader.NewPositionFollowsTranslation | src/js/vertex_shader.js:17 | Moving subject, current and target by one offset moves `newPos` by it. |
| VertexShader.ClipCorners | src/js/vertex_shader.js:18-21 | Pixel (0, 0) maps to clip (−1, 1), and the pixel at the resolution maps to (1, −1). |
| VertexShader.ClipOrder | src/js/vertex_shader.js:18-21 | With a positive resolution, clip x rises with pixel x, and clip y falls as pixel y rises. |
| VertexShader.PixelClipRoundTrip | src/js/vertex_shader.js:18-21 | Mapping back from clip space returns the pixel. |
| VertexShader.ClipPixelRoundTrip | src/js/vertex_shader.js:18-21 | Every clip-space point is the image of a pixel. |
| VertexShader.MainWithoutAgeingKeepsSubject | src/js/vertex_shader.js:16-26 | When the averages agree at a vertex, `gl_Position` is the subject position in clip space, with z = 0 and w = 1. |
| VertexShader.MainPassesThrough | src/js/vertex_shader.js:21-25 | `gl_Position` has z = 0 and w = 1, and the three texture coordinates reach their varyings unchanged. |
| FragmentShader.BlendIdentityIff | src/js/fragment_shader.js:16 | The output colour equals the subject colour if and only if the two average colours agree, alpha included. |
| FragmentShader.BlendFollowsDifference | src/js/fragment_shader.js:16 | Shifting both averages by one colour changes nothing. Shifting the target by `d` shifts the output by `0.75·d`. |
| FragmentShader.BlendIsNotClamped | src/js/fragment_shader.js:16 | Subject 1, current 0 and target 1 give 1.75 in every channel, outside `[0, 1]`. |
| FragmentShader.MainReadsOwnCoordinates | src/js/fragment_shader.js:12-17 | Each texture is sampled only at its own varying, so textures that agree there give the same colour. |
| FragmentShader.MainWithoutAgeingShowsSubject | src/js/fragment_shader.js:12-17 | Where the two sampled averages agree, the fragment is the subject's texel. |

## Left out

- WebGL plumbing is not modelled, because it is a foreign GPU API. This covers:
  - `createShaderProgram`, `createTexture` and `clear` (`src/js/face_ager.js:57-59`, `127-175`);
  - the GL context and shader program built in the constructor;
  - buffer creation and binding, attribute and uniform lookup, `getImageData`, and `drawArrays`.
  `Draw` returns the position array and the vertex count that the source hands to `bufferData` and `drawArrays`.
- GPU texture sampling, interpolation and rasterisation are not modelled. `texture2D` is the sampler applied to the coordinate, and the varyings arrive at the fragment stage unchanged.
- Floating point is replaced by exact reals. This covers IEEE rounding, GLSL `mediump`, and the Infinity/NaN that JavaScript and GLSL produce on division by zero.
- `Math.cos`, `Math.sin` and `Math.atan2` are parameters: the `Math` value. Only the laws in `TrigLaws` are assumed of them. The corrected aligner's `sqrt` likewise obeys only `SqrtLaws`.
- Equivariance of the aligner under rotation and scaling of the source (`align(T(P), Q) == align(P, Q)`) is not proved. Translation equivariance is `AlignIgnoresSourceTranslation`, and `AlignKeepsTargetCentroid` shows the result always sits on the target's centroid. Scale equivariance does not hold for the code as written, because the scaling is `s2 / s1`. Rotation equivariance needs laws of `atan2` beyond the four assumed.
- `pModel` is reduced to its `path.vertices` triangles, the only part `load` reads.
- The other source files are not part of this model: `src/js/face_tracker.js`, `src/js/index.js`, `src/js/app.js`, `src/js/questions_ui.js`, `src/js/utils.js` and `webpack.config.js`. They hold the tracker, the webcam, the DOM, the UI, asset loading and the build.
- Procrustes.CalcMean: requires a non-empty set. JavaScript would divide by zero and return NaN.
- Procrustes.Align: requires a non-zero `s1`. The source divides by `s1` at `src/js/procrustes_align.js:17` without checking, so a source set whose points all coincide makes it compute Infinity or NaN; that path is not modelled. The requirement `0 < |pointSet1|` also excludes an empty `pointSet1`, for which the source returns `[]` without error: `mean1` is NaN but is mapped over no points, `s1` is 0, the `A` and `B` loops do nothing, `atan2(0, 0)` is 0, and every later `map` runs over `[]`.
- Procrustes.Align: requires `0 < |pointSet1| <= |pointSet2|`. The `A` and `B` loops (`src/js/procrustes_align.js:22-30`) run over `points1` and read `points2[i]`, so only the first `|pointSet1|` points of `pointSet2` enter `A` and `B`; all of `pointSet2` enters its centroid `mean2` and `s2` (lines 9, 13 and 16). A shorter `pointSet2` makes `points2[i]` undefined, so reading `points2[i][1]` at line 23 throws a TypeError; that error path is not modelled. Sets of different lengths are otherwise modelled as the code treats them.
- Procrustes.ProcrustesAlign: the same preconditions as `Align`.
- Mesh.TextureVertices: requires a non-zero width and height once there is a triangle; JavaScript would return Infinity or NaN coordinates. It also requires every triangle index to be below `|points|`: an index past the end makes `points[vertices[i][0]]` undefined at `src/js/face_ager.js:101`, and reading `[0]` of it throws a TypeError. That error path is not modelled.
- Mesh.CreateTextureVertices: the same width, height and index requirements as `TextureVertices`, for the same reasons; the source throws a TypeError at `src/js/face_ager.js:101` on an index past the end.
- Mesh.FaceAger.Load: requires the triangle indices to be in range and the box to have non-zero width and height. An index past the end throws a TypeError at `src/js/face_ager.js:101`, and a zero width or height divides by zero; neither error path is modelled.
- Mesh.FaceAger.Draw: requires `load` to have run (`Valid()` and `loaded`); before `load`, `createPositionVertices(undefined, points)` reads `vertices.length` at `src/js/face_ager.js:115` and throws a TypeError. It also requires every stored triangle index to be below `|pts|`: an index past the end makes `points[vertices[i][0]]` undefined at `src/js/face_ager.js:116`, and reading `[0]` of it throws a TypeError. That error path is not modelled.
- Mesh.PositionVertices: requires every triangle index to be below `|points|`. The source throws a TypeError at `src/js/face_ager.js:116` on an index past the end; the model does not represent that error.
- Mesh.CreatePositionVertices: the same index requirement as `PositionVertices`, for the same reason.
- VertexShader.PixelToClip: requires a non-zero resolution. GLSL would divide by zero.

## Findings

| source | as written | input that shows it | evidently intended | confidence | as-written member | corrected member |
|---|---|---|---|---|---|---|
| src/js/procrustes_align.js:17 | The centred source is scaled by `s2 / s1`, the ratio of the sums of squared norms. This is the square of the size ratio, so a copy scaled by `k` comes back scaled by `k²`. | `[[0,0],[2,0],[0,2]]` aligned onto `[[10,10],[14,10],[10,14]]` (the same triangle scaled by 2 and moved by (10, 10)) gives first point (26/3, 26/3), not (10, 10). | The name `procrustesAlign` and the comment "aligns pointSet1 to pointSet2" (line 2) describe a similarity fit, which returns a scaled and moved copy of the source unchanged. That needs the size ratio `sqrt(s2 / s1)` as the scale. | not executed | Procrustes.AlignExampleAsWritten | Procrustes.AlignIntendedRecoversScaledCopy |
