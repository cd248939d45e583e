# Vector box engine — a Dafny model

This project models the geometry and parameter engine of `vectors.js`. The
program is a canvas toy. It draws three random vectors from the centre of the
canvas and can build a perspective "box" (a parallelepiped) on them. The
model covers:

- the validation of the min/max vector-size settings;
- the random length drawn between those bounds;
- the shorter-arc angular distance and the rejection loop that keeps the
  three directions at least 90 degrees apart;
- the intersection of two infinite lines;
- the per-axis perspective information (parallel direction or vanishing point);
- the cross-wired corner construction;
- the assembly of the box's face corners, far corner, and solid and dashed edges;
- the state updates of generation, the length sliders and the draw-box button.

All geometry is over exact reals (`real`). Every operation is a pure
function or method. The canvas calls become returned lists of segments.

Modules: `Wrappers` (Option), `Geometry` (points, `Intersection`),
`Perspective` (`PerspectiveInfo`, `ConstructCorner`), `Box` (edge assembly),
`Settings` (`ValidateSizes`, `RandLen`), `Angles` (`AngularDistance`, the
rejection loop) and `Scene` (the parameter state and its events).

Parameters that stand in for what the model cannot compute:
- `Math.random()` is replaced by supplied draws in [0, 1).
- `Math.sqrt` becomes a `len` argument with `len >= 0 && len*len == dx*dx + dy*dy`.
- `polarToCartesian` becomes a function argument `polar(length, angle)`.
- `parseInt` results are `Option<int>`, where `None` is NaN.

Two points of the code shape the model:
- The far corner is `constructCorner(P_AB, infoA, P_BC, infoC)` (vectors.js:354).
  `constructCorner` aims its first line by its second info and its second line
  by its first info (vectors.js:199-221). So the line from P_AB follows C's
  info and the line from P_BC follows A's info, as the comment at
  vectors.js:350-353 explains. The model follows this call exactly.
- In `handleBoxLengthChange` the box length and the vector length are a single
  value. Moving a slider recomputes that axis's tip, and `getBoxBaseVectors`
  rebuilds the same tips. The model keeps one `length` per axis and proves
  that the box base equals the tips.

## Model

| member | source | states |
|---|---|---|
| Geometry.Intersection | vectors.js:165-175 | there is no intersection exactly when the two lines' direction vectors are parallel (cross product zero) |
| Geometry.IntersectionOnFirstLine | vectors.js:169-174 | a returned point is p1 + t*(p2 - p1) for some t, so it lies on line p1-p2 |
| Geometry.IntersectionOnSecondLine | vectors.js:165-175 | a returned point also lies on line p3-p4 |
| Geometry.IntersectionUnique | vectors.js:165-175 | a returned point is the only point the two lines share |
| Geometry.CommonPointIsIntersection | vectors.js:165-175 | for non-parallel lines, any point on both lines is what the intersection returns |
| Perspective.PerspectiveInfo | vectors.js:177-197 | the result is parallel mode exactly when convergence <= 0.001; converging mode needs a non-zero axis length |
| Perspective.ParallelIsDisplacement | vectors.js:182-183 | in parallel mode the direction is exactly tip - origin |
| Perspective.VanishingPointOnAxis | vectors.js:184-196 | the vanishing point is origin + (tip - origin)/convergence, lies on the origin-tip line at distance len/convergence, and is the tip when convergence is 1 |
| Perspective.ConstructCorner | vectors.js:199-221 | the corner is missing exactly when the line from S1 aimed by axis 2's info and the line from S2 aimed by axis 1's info are parallel; otherwise it lies on both lines |
| Perspective.CornerIsUnique | vectors.js:199-221 | a returned corner is the only point on both crossed lines |
| Perspective.TargetOfInfo | vectors.js:177-208 | the point a line aims at is S + (tip - origin) when convergence <= 0.001, and otherwise the vanishing point origin + (tip - origin)/convergence, whatever S is |
| Perspective.ParallelFaceIsParallelogram | vectors.js:199-221 | with both axes parallel and not collinear, the face corner of tips A and B is A + B - O, which closes a parallelogram |
| Perspective.ParallelFarCorner | vectors.js:347-355 | in parallel mode, closing P_AB = A+B-O and P_BC = B+C-O with the infos of A and C gives A + B + C - 2O |
| Perspective.TipVanishingPointsDegenerate | vectors.js:199-221 | two axes whose vanishing points are their own tips give no face corner |
| Box.SolidEdges | vectors.js:357-373 | the solid edges are, as a multiset, exactly the two tip edges of each present face corner, 2 per corner |
| Box.SolidEdgesJoinTips | vectors.js:357-373 | every solid edge runs from one of a present face corner's two tips to that corner |
| Box.DashedEdges | vectors.js:375-385 | as a multiset, the dashed edges are empty without a far corner, and otherwise exactly one edge from each present face corner to the far corner |
| Box.DashedEdgesEndAtFar | vectors.js:375-385 | every dashed edge starts at a present face corner and ends at the far corner |
| Box.FarCorner | vectors.js:347-355 | the far corner exists only when P_AB and P_BC exist; when they do, it is missing exactly when the line from P_AB along C's info and the line from P_BC along A's info are parallel, and otherwise lies on both |
| Box.Assemble | vectors.js:342-385 | each face corner closes its face (missing exactly when its crossed lines are parallel, otherwise on both); the far corner needs P_AB and P_BC and closes the far face; the solid and dashed edges are, as multisets, the per-corner tip edges and the edges from each present corner to the far corner |
| Box.AssembleEdgeCounts | vectors.js:357-385 | there are 2 solid edges per present face corner; dashed edges exist exactly when the far corner does, one per present face corner |
| Box.MissingCornerDropsOnlyItsEdges | vectors.js:361-371 | removing one face corner removes exactly its own two solid edges and keeps all others |
| Box.DrawBoxConstruction | vectors.js:330-385 | each face line aims at S + (tip - O) when that axis's convergence is <= 0.001, and otherwise at its vanishing point; every face corner and the far corner close their faces along those lines; the far corner needs P_AB and P_BC; the solid and dashed edges are the per-corner multisets |
| Box.ParallelBoxCloses | vectors.js:330-386 | with all axes parallel and pairwise non-collinear, the face corners are A+B-O, A+C-O, B+C-O, the far corner is A+B+C-2O, and there are 6 solid and 3 dashed edges |
| Settings.ValidateSizes | vectors.js:97-120 | the result always satisfies 1 <= min < max <= 400 (NaN and out-of-range inputs included); a usable min or max is kept; a clash is repaired to max = min + 1, or to (399, 400) |
| Settings.ValidSizesUnchanged | vectors.js:102-113 | a pair already satisfying 1 <= min < max <= 400 is left unchanged |
| Settings.ValidateIdempotent | vectors.js:97-120 | validating a validated pair changes nothing |
| Settings.FloorDraw | vectors.js:76 | for a draw in [0, 1) the result k lies in [0, n) and k <= draw * n < k + 1, i.e. it is floor(draw * n) |
| Settings.FloorDrawUnique | vectors.js:76 | any integer j with j <= draw * n < j + 1 is the drawn value, so each draw fixes exactly one result |
| Settings.FloorDrawOnto | vectors.js:76 | every integer in [0, n) is produced by some draw |
| Settings.RandLen | vectors.js:69-77 | the length is 50 when range = max - min + 1 <= 0; otherwise it lies in [min, max] and len - min is floor(draw * range), the integer whose unit interval holds draw * range |
| Settings.RandLenCoversRange | vectors.js:69-77 | for every k in [0, range), some draw yields exactly k + min |
| Settings.ValidatedRangeNeverFallsBack | vectors.js:242-246 | after validation the range holds at least two values, so generation never uses the fallback length |
| Angles.AngularDistance | vectors.js:79-82 | for angles in [0, 360) the distance lies in [0, 180] and is 0 exactly when the angles are equal |
| Angles.AngularDistanceSymmetric | vectors.js:79-82 | the distance from a to b equals the distance from b to a |
| Angles.DistanceToNearestTurn | vectors.js:79-82 | for angles in [0, 360), the distance is the gap from a - b to the nearest multiple of 360 |
| Angles.AngularDistanceRotationInvariant | vectors.js:79-82 | turning both angles by the same amount (mod 360) keeps their distance |
| Angles.DrawTriple | vectors.js:252-254 | each drawn angle is an integer in [0, 359] and is floor(draw * 360) of its own draw: draw * 360 lies in [angle, angle + 1) |
| Angles.DrawTripleUnique | vectors.js:252-254 | a triple whose angles hold their draws times 360 in their unit intervals is the drawn triple, so the draws fix the candidate |
| Angles.SampleAngles | vectors.js:250-263 | returns the first candidate triple whose pairwise distances are all >= 90, or nothing exactly when every candidate is rejected |
| Angles.Separated | vectors.js:256-260 | a triple that passes the 90-degree test has three distinct angles |
| Angles.SeparationBoundary | vectors.js:256-260 | angles 0 and 90 pass the test; 0 and 45 fail it |
| Angles.SeparatedTripleExists | vectors.js:250-263 | the constraint is satisfiable, for example by (0, 120, 240) |
| Scene.SetLength | vectors.js:124-156 | only the chosen axis changes: it gets the new length and a tip at its unchanged angle; coherence of tips with lengths and angles is preserved |
| Scene.SetSameLengthIsIdentity | vectors.js:124-156 | setting an axis to its current length leaves a coherent scene unchanged |
| Scene.BoxBase | vectors.js:224-235 | in a coherent scene the box base vectors are the axis tips |
| Scene.ShowBox | vectors.js:413-416 | the draw-box button makes the box visible and leaves the sizes and the axes untouched |
| Scene.Generate | vectors.js:238-286 | a generated scene has validated sizes, each length equal to the random length of its own draw within them, the angles of the first candidate triple that passes the 90-degree test, tips coherent with lengths and angles, and the box hidden; it fails exactly when every candidate triple is rejected |

## Left out

- Canvas drawing (`drawElements` and the `ctx.*` calls) is left out. Only the segments to stroke are modelled, not how they are stroked.
- DOM lookups, slider and readout updates, event wiring and `console` logging are left out. They are I/O with no logic to verify.
- The gate at vectors.js:314-320 is not modelled as a function. It draws the box only when `showBox` is set; the model keeps the flag and its transitions (`Scene.Generate`, `Scene.ShowBox`).
- `Math.random` is replaced by supplied draws in [0, 1).
- The unbounded `while (true)` at vectors.js:251 runs over a finite sequence of candidate draws. Running out of candidates yields `None`, so termination is not claimed.
- The trigonometry of `polarToCartesian` (vectors.js:84-94) is not modelled because cos and sin cannot be expressed exactly. It is an uninterpreted function argument.
- `Math.sqrt` is replaced by a length argument that is exact by precondition.
- IEEE-754 rounding and NaN are left out. All geometry is over exact reals, and the `d === 0` test is kept as an exact test.
- Converging mode requires a non-zero axis length, because the source divides by it.
- A convergence field that parses to NaN is left out, because the model's convergence is a real number.
- `parseInt`/`parseFloat` string parsing is left out. Parsed bounds are `Option<int>`.
- `Scene.SetLength`: modelled only after the first generation. `generateVectors` runs at load (vectors.js:422), so the angles are always defined when a slider fires, and the undefined-angle branch at vectors.js:154 is not modelled.
- `Scene.BoxBase`: modelled only after the first generation, for the same reason. The `null` result of `getBoxBaseVectors` for undefined angles (vectors.js:225-227) is not modelled.
