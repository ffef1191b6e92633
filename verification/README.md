# jscad-models: fluent geometry, flexible cylinders and radial placement

A Dafny model of the logic that the jscad-models repository layers on top of
the JSCAD geometry engine:

- **The fluent facade** (`FluentGeom2`, `FluentGeom3`, `FluentPath2`): one
  value tagged with its variant. Transforms keep the variant. Extrusion turns
  a 2D region into a solid. Boolean methods put the receiver first. Measurements
  read the geometry through the wrapper.
- **The fluent collections** (`FluentGeometryArray` and its three subclasses):
  broadcast transforms, the in-place `append`, per-element extrusion, hulls,
  and `toString`.
- **The free boolean dispatch** of `index.ts`. It refuses an empty operand
  list, and it picks the wrapper class from the first operand.
- **Two flexible cylinders.**
  - The TypeScript `normalizeRadius`/`createCylinder` tests absence with
    `=== undefined`.
  - The older JavaScript `utils/cylinder.js` tests absence by falsiness. It
    derives a default wall and a default inner radius. It writes the inner
    radius it computes back into the caller's options.
  - Lemmas relate the two cylinders: where they agree, and the inputs that
    tell them apart.
- **Three copies of the radial/elliptical placement.**
  - `utils/rotatedPlacement.js` validates its options and throws.
  - `shade-holder.js` does not validate, and special-cases a single copy.
  - `RTKClip.js` does neither.
  - Lemmas compare the three copies.

The engine is modelled as constructor terms: `Engine.Geom` has
`CylinderElliptic`, `Transformed(op, g)`, `Boolean(op, operands)`, `Hull`,
`ExtrudedLinear`, and so on. An engine call is the term that names it, and
nothing is assumed about what the engine computes, with two exceptions:

- The engine's `degToRad` is taken to be `deg * π / 180`, with π the real
  3.141592653589793, the same formula `RTKClip.js` writes inline.
- The engine's booleans and hulls are taken to splice array operands into one
  flat list, in order. The facade hands nested arrays to the engine unchanged
  (`booleans.union(geometries)`, `booleans.union([this, ...others])`,
  `hulls.hull(this)`); the model records the flat list the engine works on
  (`FluentGeom.Flatten`), so an array operand and its elements passed one by
  one give the same term.

`cos` and `sin` are a `Trig` parameter.

The modules are:

- `Wrappers`: `Option` and `Result`.
- `Engine`: the engine terms and JavaScript numbers (`Num`, a real or NaN).
- `FluentGeom`: the single-value facade.
- `FluentArrays`: the collections.
- `FlexTypes`: the `FlexRadius` and `FlexCylinderOptions` shapes.
- `FluentIndex`: boolean dispatch and the TypeScript cylinder.
- `UtilsCylinder`: the JavaScript cylinder and its `main` layout.
- `CylinderCompare`: compares the two cylinders.
- `Placement`: what the placement copies share.
- `UtilsPlacement`, `ShadeHolder`, `RtkClip`: the three placement copies.
- `PlacementCompare`: compares the placement copies.

A single copy over the empty arc 30..30 is refused by the validated placement,
whose `start >= end` check comes before the single-copy case, and is placed at
30° by the shade-holder copy (`PlacementCompare.EmptyArcSingleCopy`).

## Model

| member | source | states |
|---|---|---|
| FluentGeom.New | PCB-Holder/node_modules/@jbroll/jscad-fluent/src/gen/FluentGeom2.ts:39-41 | The constructor keeps the class's variant. It copies a given geometry; for null/undefined it takes the engine's empty geometry of that variant |
| FluentGeom.TypeTagIdentifiesVariant | PCB-Holder/node_modules/@jbroll/jscad-fluent/src/gen/FluentGeom2.ts:34 | The `type` tags `geom2`, `geom3` and `path2` are equal exactly when the classes are the same |
| FluentGeom.RewrapIsIdentity | PCB-Holder/node_modules/@jbroll/jscad-fluent/src/gen/FluentGeom2.ts:44-46 | Rewrapping a value through its own constructor gives the same value, so the same class and `type` tag |
| FluentGeom.Apply | PCB-Holder/node_modules/@jbroll/jscad-fluent/src/gen/FluentGeom2.ts:52-125 | A transform, colorize, expand or offset keeps the receiver's class and type tag, and wraps the engine's transform of the receiver |
| FluentGeom.ChainKeepsVariant | PCB-Holder/node_modules/@jbroll/jscad-fluent/src/gen/FluentGeom3.ts:45-121 | Any chain of offered transforms keeps the variant. The geometry equals the reference term of the ops applied in order |
| FluentGeom.FlattenAppend | PCB-Holder/node_modules/@jbroll/jscad-fluent/src/index.ts:37 | Flattening the operands distributes over concatenation of operand lists |
| FluentGeom.FlattenGrouping | PCB-Holder/node_modules/@jbroll/jscad-fluent/src/gen/FluentGeom2.ts:127 | An array operand flattens to the same geometries as its elements passed one by one |
| FluentGeom.CombineWith | PCB-Holder/node_modules/@jbroll/jscad-fluent/src/gen/FluentGeom2.ts:127-135 | A boolean method keeps the receiver's class. Its engine call has the receiver first, then the flattened others in order |
| FluentGeom.CombineWithGrouping | PCB-Holder/node_modules/@jbroll/jscad-fluent/src/gen/FluentGeom3.ts:123-131 | Passing others as an array or spread one by one builds the same value |
| FluentGeom.HullOf | PCB-Holder/node_modules/@jbroll/jscad-fluent/src/gen/FluentPath2.ts:116-118 | `hull()` keeps the class and hulls the receiver |
| FluentGeom.HullChainOf | PCB-Holder/node_modules/@jbroll/jscad-fluent/src/gen/FluentGeom3.ts:115-117 | `hullChain()` keeps the class and hull-chains the receiver |
| FluentGeom.ExtrudeLinear | PCB-Holder/node_modules/@jbroll/jscad-fluent/src/gen/FluentGeom2.ts:144-147 | Linear extrusion of a 2D region gives a solid, a different variant, holding the extruded receiver |
| FluentGeom.ExtrudeRotate | PCB-Holder/node_modules/@jbroll/jscad-fluent/src/gen/FluentGeom2.ts:149-152 | Rotational extrusion of a 2D region gives a solid holding the extruded receiver |
| FluentGeom.Measure | PCB-Holder/node_modules/@jbroll/jscad-fluent/src/gen/FluentGeom2.ts:154-180 | A measurement is the engine's reading of the receiver's geometry, for the queries its class offers |
| FluentGeom.MeasureSeesThroughWrapper | PCB-Holder/node_modules/@jbroll/jscad-fluent/src/gen/FluentPath2.ts:123-145 | A measurement depends only on the geometry, not on the wrapping class nor on a rewrap |
| FluentIndex.Combine | PCB-Holder/node_modules/@jbroll/jscad-fluent/src/index.ts:26-70 | Fails exactly on no operands, with `<op> requires at least one geometry`. Otherwise the result is never a path. It is a 2D region exactly when the first operand (or the first element of a first array) is one. It holds the engine boolean of all flattened operands |
| FluentIndex.NonRegionFirstYieldsSolid | PCB-Holder/node_modules/@jbroll/jscad-fluent/src/index.ts:35-39 | A path, or an empty array followed by other operands, in first place yields a solid wrapper |
| FluentIndex.CombineAgreesWithMethod | PCB-Holder/node_modules/@jbroll/jscad-fluent/src/index.ts:44-54 | With the receiver first, the free function equals the receiver's boolean method |
| FluentIndex.CombineGrouping | PCB-Holder/node_modules/@jbroll/jscad-fluent/src/index.ts:29-37 | Splitting an array operand into single operands changes nothing while the first operand stays the same |
| FluentIndex.NormalizeRadius | PCB-Holder/node_modules/@jbroll/jscad-fluent/src/index.ts:80-95 | Absent gives the default at both ends. A number, 0 included, gives that number at both ends. For a pair, a number end becomes a circle and a `Point2` end is kept |
| FluentIndex.NormalizeIsIdempotent | PCB-Holder/node_modules/@jbroll/jscad-fluent/src/index.ts:93-94 | The normalised form is a fixed point of normalisation, whatever the default |
| FluentIndex.CircularUnlessElliptic | PCB-Holder/node_modules/@jbroll/jscad-fluent/src/index.ts:81-92 | Without a `Point2` end, both normalised ends are circular |
| FluentIndex.NormalizeExamples | PCB-Holder/node_modules/@jbroll/jscad-fluent/src/index.ts:80-86 | The documented shapes normalise as documented. The default is used only for an absent radius; 0 stays 0 |
| FluentIndex.CreateCylinder | PCB-Holder/node_modules/@jbroll/jscad-fluent/src/index.ts:101-164 | The result is a solid. It is hollow (outer minus inner) exactly when `inner` or `wall` is given, and solid otherwise. Every part shares height 1, 32 segments, the origin and `[0, 2π]` unless given. Outer comes from `outer ?? radius`. Inner is outer minus wall when a wall is given, else `inner`. Solid mode uses `radius` |
| FluentIndex.WallOverridesInner | PCB-Holder/node_modules/@jbroll/jscad-fluent/src/index.ts:110-121 | With a wall, an explicit `inner` has no effect |
| FluentIndex.SolidIgnoresOuter | PCB-Holder/node_modules/@jbroll/jscad-fluent/src/index.ts:151-164 | Without inner or wall, `outer` has no effect |
| FluentIndex.WallFallsBackToRadius | PCB-Holder/node_modules/@jbroll/jscad-fluent/src/index.ts:113-114 | Without `outer`, the wall is taken off `radius` |
| FluentIndex.WallIsThickness | PCB-Holder/node_modules/@jbroll/jscad-fluent/src/index.ts:115-120 | Outer minus the derived inner radius gives back the normalised wall at both ends |
| FluentIndex.PipeExample | PCB-Holder/node_modules/@jbroll/jscad-fluent/src/index.ts:123-149 | Outer 6, wall 1, height 10 is the difference of a radius-6 and a radius-5 cylinder with the defaults |
| UtilsCylinder.NormalizeRadius | utils/cylinder.js:18-27 | Any falsy radius gives the default at both ends. A truthy number gives that number. For an array, a number end becomes a circle and a vector end is kept |
| UtilsCylinder.FalsyRadiusIsAbsent | utils/cylinder.js:18-19 | 0, null and undefined normalise alike, to the default |
| UtilsCylinder.Cylinder | utils/cylinder.js:42-83 | A wall writes outer-minus-wall back into the options' `inner`; without a wall the options are unchanged. The result is hollow exactly when the resulting `inner` is defined. The outer part comes from `outer`, or `radius` when `outer` is falsy. The inner part falls back to 0.8 times that value. Solid mode uses `radius`. All parts share the defaults height 1, 32 segments, origin, `[0, 2π]` |
| UtilsCylinder.WallIsThickness | utils/cylinder.js:50-58 | The inner part of a wall pipe is outer minus wall at both ends, and outer minus inner gives the wall back in every finite component |
| UtilsCylinder.WallOverridesInner | utils/cylinder.js:50-60 | With a wall, an explicit `inner` has no effect on the geometry |
| UtilsCylinder.WallIgnoresRadius | utils/cylinder.js:51-52 | The derived inner radius does not depend on `radius` |
| UtilsCylinder.ZeroWallIsFifthOfOuter | utils/cylinder.js:52 | A wall of 0 is falsy, so it defaults to a fifth of a numeric outer radius |
| UtilsCylinder.ZeroInnerDefaultsToFourFifths | utils/cylinder.js:60-75 | An inner radius of 0 still makes the result hollow. The inner part becomes 0.8 times a numeric outer, and NaN for an array outer |
| UtilsCylinder.MainLayout | utils/cylinder.js:85-126 | `main` gives 12 cylinders in three rows at y = 25, 0 and −25. Every part has height 10 and x = index·20 − 20 |
| UtilsCylinder.RowLayout | utils/cylinder.js:119-125 | Every cylinder of a row has height 10 and sits at its slot |
| UtilsCylinder.MainFirstPipe | utils/cylinder.js:111 | The first pipe (outer 6, wall 1) is hollow with inner radius 5 at both ends |
| CylinderCompare.NormalizeAgrees | utils/cylinder.js:18-27 | Both normalisations agree on every radius except a plain 0 |
| CylinderCompare.ZeroRadiusDiffers | utils/cylinder.js:19 | A radius of 0 is 0 to the TypeScript and the default to the JavaScript |
| CylinderCompare.CylindersAgree | utils/cylinder.js:42-83 | With no radius option a plain 0, and no wall without `outer` and with `radius`, both cylinders build the same geometry |
| CylinderCompare.WallOffRadiusDiffers | utils/cylinder.js:51 | With a wall, `radius` and no `outer`, the TypeScript inner is radius − wall and the JavaScript inner is 1 − wall. The outer parts agree |
| Placement.RadiusMakesCircle | RTK/RTKClip.js:26-29 | A given radius sets width and height both to twice the radius |
| Placement.Steps | shade-holder/shade-holder.js:11-13 | `n` values, the i-th being start + i·step |
| Placement.Iota | RTK/RTKClip.js:12-14 | A negative length gives no values; otherwise n values, the i-th being start + i·step |
| Placement.AngleEndpoints | utils/rotatedPlacement.js:75-77 | With two or more copies the schedule starts at startRad and ends exactly at endRad |
| Placement.AngleMonotone | RTK/RTKClip.js:35-38 | The schedule strictly increases for start < end and strictly decreases for start > end |
| Placement.Place | utils/rotatedPlacement.js:84-91 | A copy is a translation by (rx·cos a, ry·sin a, 0) of the shape, rotated about z by a first when asked |
| Placement.PlaceAll | RTK/RTKClip.js:45-59 | One placed copy per angle, in angle order |
| Placement.ZeroRadiusPlacesAtOrigin | shade-holder/shade-holder.js:43-52 | With zero radii every copy is translated by zero, so only the rotation acts |
| UtilsPlacement.Iota | utils/rotatedPlacement.js:13-18 | Throws exactly for a negative length, with its message; otherwise n values, the i-th being start + i·step |
| UtilsPlacement.Angles | utils/rotatedPlacement.js:71-77 | `count` angles: `[startRad]` for one copy, the linear schedule otherwise |
| UtilsPlacement.AnglesSpanArc | utils/rotatedPlacement.js:59-77 | On an accepted arc the angles start at startRad, end at endRad (two or more copies) and strictly increase |
| UtilsPlacement.RotatedPlacement | utils/rotatedPlacement.js:39-91 | Succeeds exactly on a shape, a count ≥ 1, start < end and positive dimensions. Otherwise it fails with the first failing check's message, in the order shape, count, angles, dimensions. On success, `count` copies in angle order |
| ShadeHolder.Angles | shade-holder/shade-holder.js:30-39 | One copy gives `[startRad]`. Any other count gives the linear schedule, empty for count ≤ 0 |
| ShadeHolder.CreateRotatedPlacement | shade-holder/shade-holder.js:15-56 | One copy for count 1, `count` copies otherwise (none for count ≤ 0), each placed at its angle. A radius overrides both dimensions |
| ShadeHolder.SingleCopyIgnoresEnd | shade-holder/shade-holder.js:35-36 | A single copy is placed at start, whatever end is |
| ShadeHolder.NoCopiesForNonPositiveCount | shade-holder/shade-holder.js:38-43 | A count ≤ 0 places nothing and raises nothing |
| ShadeHolder.Cycl | shade-holder/shade-holder.js:59-62 | A tube: outer cylinder of radius outer/2 minus an inner one thinner by wall. Same height, 64 segments |
| ShadeHolder.Cone | shade-holder/shade-holder.js:64-84 | A tapered tube: circular ends outer1/2 and outer2/2, with inner ends thinner by wall at each end. Same height, 64 segments |
| RtkClip.Angles | RTK/RTKClip.js:30-38 | The linear schedule for every count but 1, empty for a negative count |
| RtkClip.CreateRotatedPlacement | RTK/RTKClip.js:15-60 | `count` copies (none when negative), each placed at its angle of the linear schedule |
| RtkClip.ClipArcRunsBackwards | RTK/RTKClip.js:68-70 | For any gap under 360 the clip arc of `main` runs from 90 − gap/2 down to −270 + gap/2, strictly decreasing |
| PlacementCompare.ShadeAgreesWithUtils | shade-holder/shade-holder.js:15-56 | On every input the validated copy accepts, the shade-holder copy gives the same copies |
| PlacementCompare.RtkAgreesWithShade | RTK/RTKClip.js:31-38 | For every count but 1 the RTK copy and the shade-holder copy agree |
| PlacementCompare.ArchTopAcceptedOnlyByShade | shade-holder/shade-holder.js:112-120 | One copy with start = end = 60: refused by the validated copy, placed at 60° by the shade-holder copy |
| PlacementCompare.ZeroRadiusAcceptedOnlyByShade | shade-holder/shade-holder.js:126-134 | Radius 0 over 0..240 with three copies: refused by the validated copy. The shade-holder copy places three copies at the origin, rotated 0°, 120° and 240° |
| PlacementCompare.QuarterTurns | utils/rotatedPlacement.js:75-90 | Four copies over 0..270 sit at 0°, 90°, 180° and 270° |
| PlacementCompare.EmptyArcSingleCopy | utils/rotatedPlacement.js:59-61 | One copy over the empty arc 30..30 is refused by the validated copy and placed at 30° by the shade-holder copy |
| PlacementCompare.RefusedOptions | utils/rotatedPlacement.js:56-61 | Count 0 and a reversed arc fail with their messages |
| FluentArrays.Create | PCB-Holder/node_modules/@jbroll/jscad-fluent/src/gen/FluentGeom2Array.ts:13-15 | `create(...items)` gives a collection of the variant's subclass holding exactly the given items, in order |
| FluentArrays.AppendOne | PCB-Holder/node_modules/@jbroll/jscad-fluent/src/gen/FluentGeom2.ts:48-50 | `append` on a single value gives a two-element collection of the value's subclass: the receiver, then the argument |
| FluentArrays.Append | PCB-Holder/node_modules/@jbroll/jscad-fluent/src/gen/FluentGeom2Array.ts:17-20 | On a subclass collection, one element longer, prefix unchanged, last element the argument, class kept. On a base-class collection the call fails |
| FluentArrays.AppendAfterAppendOne | PCB-Holder/node_modules/@jbroll/jscad-fluent/src/gen/FluentGeom3Array.ts:16-19 | Example: appending to the pair that a single `append` made gives the three geometries in order |
| FluentArrays.BroadcastAsWritten | PCB-Holder/node_modules/@jbroll/jscad-fluent/src/gen/FluentGeometryArray.ts:10-96 | A broadcast transform gives a base-class collection whose i-th element is the i-th element transformed |
| FluentArrays.Broadcast | PCB-Holder/node_modules/@jbroll/jscad-fluent/src/gen/FluentGeometryArray.ts:10-12 | The broadcast the declared `this` type promises: the same elements, in the receiver's class |
| FluentArrays.AsWrittenLosesAppend | PCB-Holder/node_modules/@jbroll/jscad-fluent/src/gen/FluentGeometryArray.ts:11 | After a broadcast on a subclass collection, the elements are as promised but `append` fails |
| FluentArrays.TranslateThenAppendFails | PCB-Holder/node_modules/@jbroll/jscad-fluent/src/gen/FluentGeometryArray.ts:14-16 | `create(g1, g2).translate([1,0,0]).append(h)` translates both items and then fails, because the translated collection has no `append` |
| FluentArrays.BroadcastMatchesSingle | PCB-Holder/node_modules/@jbroll/jscad-fluent/src/gen/FluentGeometryArray.ts:26-40 | Each broadcast element is what the single value's method gives for that element |
| FluentArrays.BroadcastCommutesWithAppend | PCB-Holder/node_modules/@jbroll/jscad-fluent/src/gen/FluentPath2Array.ts:16-19 | For the corrected `Broadcast`, appending then transforming equals transforming then appending the transformed geometry |
| FluentArrays.BroadcastChainIsElementwise | PCB-Holder/node_modules/@jbroll/jscad-fluent/src/gen/FluentGeometryArray.ts:42-96 | For the corrected `Broadcast`, a chain of broadcast transforms keeps class and length. Element i becomes the chain's reference term on element i |
| FluentArrays.ExtrudeLinearAll | PCB-Holder/node_modules/@jbroll/jscad-fluent/src/gen/FluentGeom2Array.ts:22-24 | A solid collection of the same length, each element the single value's linear extrusion of that element |
| FluentArrays.ExtrudeRotateAll | PCB-Holder/node_modules/@jbroll/jscad-fluent/src/gen/FluentGeom2Array.ts:26-28 | A solid collection of the same length, each element the single value's rotational extrusion of that element |
| FluentArrays.ExtrudeDistributesOverAppend | PCB-Holder/node_modules/@jbroll/jscad-fluent/src/gen/FluentGeom2Array.ts:17-24 | Extruding after `append` equals appending the extruded geometry to the extruded collection |
| FluentArrays.HullAll | PCB-Holder/node_modules/@jbroll/jscad-fluent/src/gen/FluentGeom3Array.ts:21-23 | `hull()` reduces the ordered elements to one value of the element variant |
| FluentArrays.HullChainAll | PCB-Holder/node_modules/@jbroll/jscad-fluent/src/gen/FluentPath2Array.ts:25-27 | `hullChain()` reduces the ordered elements to one value of the element variant |
| FluentArrays.HullAgreesWithSingle | PCB-Holder/node_modules/@jbroll/jscad-fluent/src/gen/FluentGeom2Array.ts:30-36 | A one-element collection hulls as its single value does. `f.append(g).hull()` hulls `[f, g]` in f's variant |
| FluentArrays.ParseNatToString | PCB-Holder/node_modules/@jbroll/jscad-fluent/src/gen/FluentGeometryArray.ts:99 | The decimal length printed in the header reads back as the length |
| FluentArrays.ToString | PCB-Holder/node_modules/@jbroll/jscad-fluent/src/gen/FluentGeometryArray.ts:98-100 | The text of a collection begins with `FluentGeometryArray(` and the decimal length, then `)[`, the element strings in order joined with `", "`, and a closing `]` |
| FluentArrays.ToStringReportsLength | PCB-Holder/node_modules/@jbroll/jscad-fluent/src/gen/FluentGeometryArray.ts:98-100 | Whatever the elements print as, the header `FluentGeometryArray(n)` reads back n = length, and the text ends with `]` |
| FluentArrays.ToStringAppend | PCB-Holder/node_modules/@jbroll/jscad-fluent/src/gen/FluentGeometryArray.ts:98-100 | Appending to a non-empty collection extends its printed contents by `", "` and the new element's string |
| FluentArrays.TwoToString | PCB-Holder/node_modules/@jbroll/jscad-fluent/src/gen/FluentGeometryArray.ts:98-100 | A two-element collection prints as `FluentGeometryArray(2)[s1, s2]` |
| FluentArrays.EmptyToString | PCB-Holder/node_modules/@jbroll/jscad-fluent/src/gen/FluentGeometryArray.ts:99 | An empty collection prints as `FluentGeometryArray(0)[]` |

## Findings

| source | as written | input that shows it | evidently intended | confidence | as-written member | corrected member |
|---|---|---|---|---|---|---|
| PCB-Holder/node_modules/@jbroll/jscad-fluent/src/gen/FluentGeometryArray.ts:10-96 | Every broadcast transform builds `new FluentGeometryArray(...)` and casts it `as this`. The runtime class is the base class, which has no `append`, `hull`, `hullChain` or extrusions | `FluentGeom2Array.create(g1, g2).translate([1, 0, 0]).append(h)` type-checks, then fails at run time because `append` is missing | The result has the receiver's class, as the declared `this` type says and as `_wrap` does for single values | medium; not executed | FluentArrays.TranslateThenAppendFails | FluentArrays.Broadcast |

`FluentArrays.BroadcastAsWritten` models the code as written.
`FluentArrays.AsWrittenLosesAppend` shows that it differs from the corrected
`FluentArrays.Broadcast` in the class alone. The corrected `Broadcast` is what
the rest of the collection model builds on: `BroadcastChain`, the
commutation with `append`, and the per-element lemmas.

## Left out

- The JSCAD engine is not modelled: primitives, booleans, hulls, transforms, extrusions, measurements, `validate` and the geometries' `toString`. Each call is an uninterpreted constructor term, so no geometric fact about its result is assumed.
- The engine's handling of lists is not modelled. Its list transforms return a bare geometry for a one-element list and throw for an empty one, and spreading that result would fail. Broadcast is modelled as an element-wise map over the collection.
- Engine-side failures are not modelled: every engine term is a success. The engine throws on a boolean whose flattened operand list is empty (such as `union([])`), on operands of mixed variants, and on a hull of an empty collection; the model builds a term for each of these.
- `Math.cos`/`Math.sin` are a parameter, and floating-point rounding is left out. JavaScript numbers are reals or NaN. Infinities and `-0` are not modelled.
- Non-integer counts are not modelled: `count` is an integer, and `Number.isInteger` on other values is not represented. A non-integer `n` for the validated `iota` is also left out.
- Explicit `undefined` values for keys that have defaults are not modelled. Each option is either absent or a value, which is what callers pass.
- `FluentGeom.FlattenGrouping`, `FluentGeom.CombineWithGrouping`, `FluentIndex.CombineGrouping`: these rest on the engine splicing array operands into one flat list. The engine's own flattening is not modelled; if it treated a nested array differently, grouping could change the result.
- `PlacementCompare.RtkAgreesWithShade`: the agreement rests on taking the engine's `degToRad` to be the formula `RTKClip.js` writes inline, `deg * π / 180`. It holds in real arithmetic; the floating-point results of the two spellings are not modelled and could differ by rounding.
- `RtkClip.Angles`: `count == 1` is excluded by a precondition. The source divides by zero there (`arc / (count - 1)`).
- `RtkClip.CreateRotatedPlacement`: `count == 1` is excluded by a precondition. The source divides by zero there and places one copy at a NaN angle.
- `FluentArrays.Append`: on a base-class collection, the failure message is a fixed stand-in for the runtime's `TypeError` text.
- `FluentArrays.Collection.Append`: it models the aliasing of `append`, which returns the receiver after pushing. Its contract uses `old` and `modifies`. The functional `FluentArrays.Append` states the same push as a pure function.
- The `colors` block of `index.ts` is left out (conversions re-exported from the engine).
- The primitive pass-throughs of the `jscadFluent` object are left out, except that `cylinder` is `FluentIndex.CreateCylinder`.
- `validate()` and the single-value `toString()` only call the engine; the string of an element is a parameter of `FluentArrays.ToString`.
- The part scripts are left out: `pcb-holder.js`, `standoff.js`, `shade-holder-nut.js`, `washer.js`, the `main` of `shade-holder.js` and the `main` and parameter definitions of `RTKClip.js`. They are straight-line assembly calls. The calls they make into the placement are covered by `PlacementCompare` and `RtkClip.ClipArcRunsBackwards`.
- `types.ts` only declares types. Its shapes are the datatypes of `FlexTypes`.
- The constructors' copying of the engine object's fields (`Object.assign`) is a copy of the whole geometry value.
