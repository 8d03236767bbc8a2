# Twisted star vase, modelled in Dafny

`vase.rb` describes a 3D-printable vase as an OpenSCAD solid, built through the
RubyScad DSL:

- `SolidVase#build` stacks `height / step_size` slabs.
- Slab `s` is a star-shaped polygon placed at `z = step_size * s` and rotated back by
  `twist_per_step * s`.
- Each slab is extruded one step high with a twist of `twist_per_step`. Its scale
  carries the star's radius factor up to the next step.
- The radius factor `pinch * sin(h / height * 360°) + 1` makes the outline bulge
  and narrow over one sine period.
- `Group.vase` subtracts a thinner copy of the vase from itself. The inner copy's
  base radius is lowered by the wall thickness, and a cylinder cut at
  `z = step_size` leaves a floor.
- `Group.plate` intersects the default vase with a 30-unit-high cylinder.

The model builds the OpenSCAD tree as a value. `Solid.SolidOp` holds the DSL's
`union`, `difference`, `intersection`, `translate`, `rotate`, `linear_extrude`,
`polygon` and `cylinder`. The lemmas prove facts about that tree:

- how many slabs there are;
- where each slab sits;
- that neighbouring slabs meet: height, rotation and scaled outline;
- that the twists add up to `twist`;
- that the scales telescope to the radius factor at the top;
- the shape of the star;
- how the inner shell relates to the outer shell;
- that the plate ignores the `radius` it merges into the hash.

The files follow the program's structure:

- `rubymath.dfy` (module `RubyMath`) covers the parts of Ruby's numbers the script
  relies on, and its trigonometry:
  - flooring `Integer#/`;
  - `Integer`/`Float` arithmetic;
  - `sin` and `cos` from `Math`, and the `.radians` degree conversion that the
    required RubyScad library adds to numbers, passed in as a `Trig` value.
- `solid.dfy` (module `Solid`) holds the OpenSCAD operations and `SameFrame`. Two
  trees have the same frame when they are equal except for polygon coordinates.
- `solid_vase.dfy` (module `SolidVase`) models the `SolidVase` struct:
  - `build` as a function, `Build`;
  - `build` as a loop that emits one slab per step, `BuildByEmission`;
  - `calculate_radius_factor`, `slice`, `star` and `trz`.
- `vase_properties.dfy` (module `VaseProperties`) holds the lemmas about slabs and
  stars.
- `group.dfy` (module `Group`) models:
  - the parameter hash, with `Hash#slice` and `merge`;
  - `SolidVase.new`;
  - `Group.vase` and `Group.plate`;
  - the constants `VASE_KEYS` and `BASE_PARAMS`.

Two behaviours of the code are easy to misread. The model follows the code in both:

- **Plate radius.** `Group.plate` merges a `radius` of `base_radius + 2 * wall`.
  That looks as if it enlarges the plate's vase, but `Group.vase` keeps only the
  `VASE_KEYS`, so the key never reaches a struct. `PlateIsClippedBaseVase` proves
  the plate is the default vase clipped.
- **Vertex radii.** Star vertices with an even index take the inner radius
  `(base_radius - edgeness) * rf`, and odd ones the outer radius. So vertex 0 is a
  valley at angle 0 (`StarStartsWithValley`), and the last vertex is a tip
  (`StarEndsWithTip`).

## Model

| member | source | states |
|---|---|---|
| `RubyMath.FloorDiv` | vase.rb:10 | definition of Ruby's flooring `Integer#/`; its properties are in `FloorDivIsFloor` and `FloorDivUnique` |
| `RubyMath.FloorDivIsFloor` | vase.rb:10 | `height/step_size` is the floor of the quotient for either sign of the step: `q*b <= a < q*b + b` (reversed for negative `b`) |
| `RubyMath.FloorDivUnique` | vase.rb:10 | any integer meeting the floor bounds is the quotient Ruby computes |
| `RubyMath.Sub` | vase.rb:62 | `a - b` is an Integer exactly when both operands are, and its value is the difference of the values |
| `RubyMath.Mul` | vase.rb:64 | `a * b` is an Integer exactly when both operands are, and its value is the product |
| `RubyMath.Add` | vase.rb:74 | `a + b` is an Integer exactly when both operands are, and its value is the sum |
| `SolidVase.Steps` | vase.rb:10 | definition, `height/step_size` by `FloorDiv`; its properties are in `StepsNeedHeight` and `FloorDivIsFloor` |
| `SolidVase.StepsNeedHeight` | vase.rb:10-13 | a run of at least one step needs a non-zero height; the loop's last slab bottom `step_size * steps` lies within the height on the height's side of zero |
| `SolidVase.TwistPerStep` | vase.rb:11 | definition, `twist.to_f/steps`; its properties are in `SlabTwistIs`, `NextSlabRotation` and `TwistsAddUp` |
| `SolidVase.HeightDegrees` | vase.rb:29 | definition of the height as degrees of a full turn; its properties are in `RadiusFactorPeriodic` |
| `SolidVase.SlabHeight` | vase.rb:14 | definition of `current_height`; its properties are in `NextSlabHeight` and `SlabLayout` |
| `SolidVase.BottomFactor` | vase.rb:16 | definition of the factor at a slab's bottom; its properties are in `SlabScaleIs` and `ScalesTelescope` |
| `SolidVase.WellFormed` | vase.rb:10-17 | definition of what `build` needs (non-zero step, non-zero bottom factors); its properties are in `SmallPinchWellFormed` and `WellFormedIgnoresBaseRadius` |
| `SolidVase.RadiusFactor` | vase.rb:28-30 | without a pinch the radius factor is 1 at every height |
| `SolidVase.SliceDegreesTurn` | vase.rb:32-34 | the slice angle is positive, and `2 * edges` slices make exactly 360 degrees |
| `SolidVase.SliceDegrees` | vase.rb:33 | definition of `360.to_f/(edges*2)`; its properties are in `SliceDegreesTurn` |
| `SolidVase.Slice` | vase.rb:32-34 | definition of `slice`; its properties are in `AngleStep` and `StarEndsWithTip` |
| `SolidVase.InnerRadius` | vase.rb:46 | definition of `ri`; its properties are in `ValleyVertex`, `RadiusScales` and `ShrunkRadius` |
| `SolidVase.OuterRadius` | vase.rb:47 | definition of `re`; its properties are in `TipVertex`, `RadiusScales` and `ShrunkRadius` |
| `SolidVase.VertexRadius` | vase.rb:49 | definition of `r = p.even? ? ri : re`; its properties are in `VertexParity` and `StarPeriodic` |
| `SolidVase.Polar` | vase.rb:50 | definition of `[r*cos(a), r*sin(a)]`; its properties are in `PolarScales` |
| `SolidVase.Angle` | vase.rb:50 | definition of `slice*p`; its properties are in `AngleStep` |
| `SolidVase.Vertex` | vase.rb:48-50 | definition of the block of star's `map`; its properties are in `ValleyVertex`, `TipVertex` and `VertexScales` |
| `SolidVase.Vertices` | vase.rb:48-51 | mapping over `lo...hi` yields `hi - lo` points (none for an empty range), point `i` being vertex `lo + i` |
| `SolidVase.VertexCount` | vase.rb:48 | definition of the length of `0...(edges*2)`; used by `Star`'s contract |
| `SolidVase.Star` | vase.rb:45-52 | the star is a polygon with `2 * edges` points (none when `edges <= 0`), point `k` at radius `ri` or `re` by parity and angle `slice * k` |
| `SolidVase.Trz` | vase.rb:37-43 | definition of `trz`, a z-translation around a z-rotation; its properties are in `SlabLayout` |
| `SolidVase.SlabRotation` | vase.rb:15 | definition of `-twist_per_step * step`; its properties are in `NextSlabRotation` and `SlabsTwistOn` |
| `SolidVase.Slab` | vase.rb:15-21 | each step emits a translate around a rotate around a linear extrusion of a polygon |
| `SolidVase.Slabs` | vase.rb:13-22 | the loop over `1..n` emits `n` slabs (none if `n <= 0`), the `i`-th being the slab of step `i + 1` |
| `SolidVase.SlabCount` | vase.rb:13 | definition of the length of `1..steps`; used by `Build`'s contract |
| `SolidVase.Build` | vase.rb:9-24 | `build` is one union whose children are the slabs of steps `1..steps`, in order; empty when `steps <= 0` |
| `SolidVase.BuildByEmission` | vase.rb:9-24 | the loop that appends each step's slab to the union produces exactly `Build` |
| `VaseProperties.RadiusFactorBounds` | vase.rb:28-30 | with a real sine, the factor stays within `pinch` of 1, for either sign of the pinch |
| `VaseProperties.RadiusFactorPeriodic` | vase.rb:28-30 | the factor repeats after one full height, a whole sine period |
| `VaseProperties.SmallPinchWellFormed` | vase.rb:16-17 | a pinch strictly between -1 and 1 keeps every slab's factor non-zero, so the scale division is defined |
| `VaseProperties.WellFormedIgnoresBaseRadius` | vase.rb:62 | whether a vase can be built does not depend on its base radius, so the inner shell builds iff the outer does |
| `VaseProperties.VertexParity` | vase.rb:46-49 | with non-zero `edgeness` and factor, a vertex has the inner radius iff its index is even and the outer iff odd |
| `VaseProperties.ValleyVertex` | vase.rb:49-50 | an even vertex lies at the inner radius at `slice * k` |
| `VaseProperties.TipVertex` | vase.rb:49-50 | an odd vertex lies at the outer radius at `slice * k` |
| `VaseProperties.StarStartsWithValley` | vase.rb:48-50 | vertex 0 is a valley: the inner radius at angle 0 |
| `VaseProperties.StarEndsWithTip` | vase.rb:48-50 | the last vertex `2 * edges - 1` is a tip at the outer radius, and its angle in degrees is one slice short of the full 360-degree turn |
| `VaseProperties.AngleStep` | vase.rb:50 | neighbouring vertices are one slice apart |
| `VaseProperties.StarPeriodic` | vase.rb:48-51 | vertex `k + 2` has vertex `k`'s radius, two slices further round (edges-fold symmetry) |
| `VaseProperties.PolarScales` | vase.rb:50 | scaling a point `[r cos a, r sin a]` by `f` gives the point of radius `r * f` at the same angle |
| `VaseProperties.RadiusScales` | vase.rb:46-49 | a vertex radius is linear in the radius factor |
| `VaseProperties.VertexScales` | vase.rb:46-50 | scaling vertex `k` by `f` gives vertex `k` of the factor multiplied by `f` |
| `VaseProperties.StarScales` | vase.rb:45-52 | scaling a whole star by `f` gives the star of factor `rf * f`, point by point |
| `VaseProperties.NextSlabHeight` | vase.rb:14 | each slab starts one step above the previous one |
| `VaseProperties.NextSlabRotation` | vase.rb:15 | each slab is rotated one `twist_per_step` further back than the previous one |
| `VaseProperties.SlabLayout` | vase.rb:13-22 | slab `s`: translate to `step_size * s`, rotate by `-twist_per_step * s`, extrude `step_size` high with twist `twist_per_step`; the scale times the bottom factor is the next factor; the profile is the star of the bottom factor |
| `VaseProperties.SlabProfile` | vase.rb:16-19 | slab `s`'s polygon is the star of the factor at its bottom |
| `VaseProperties.SlabsStack` | vase.rb:14-18 | slab `s + 1` starts exactly where slab `s`'s extrusion ends |
| `VaseProperties.SlabsTwistOn` | vase.rb:15-18 | slab `s + 1`'s rotation continues where slab `s`'s twist left off |
| `VaseProperties.SlabsScaleOn` | vase.rb:16-19 | slab `s + 1`'s polygon is slab `s`'s polygon scaled by slab `s`'s `scale`: the faces meet |
| `VaseProperties.EvenTwist` | vase.rb:11 | a stack of slabs that each twist by `t` twists by `|stack| * t` in all |
| `VaseProperties.ScaledStep` | vase.rb:17 | if a stack takes a start factor to `mid` and the next slab's scale takes `mid` to `end`, the taller stack takes the start to `end` |
| `VaseProperties.SlabTwistIs` | vase.rb:18 | every slab's extrusion twist is `twist_per_step` |
| `VaseProperties.SlabScaleIs` | vase.rb:16-18 | every slab's scale takes its bottom factor to the factor one step higher |
| `VaseProperties.SlabTwistsEven` | vase.rb:11-18 | every child of the built union twists by `twist_per_step` |
| `VaseProperties.TwistsAddUp` | vase.rb:10-18 | the slabs' extrusion twists sum to the whole `twist` |
| `VaseProperties.SlabScaled` | vase.rb:16-18 | slab `s` alone scales the factor at its bottom to the factor at its top |
| `VaseProperties.ScaleOfFirstSlab` | vase.rb:13-18 | the first slab takes the factor at step 1 to the factor at step 2 |
| `VaseProperties.ScaleOfNextSlab` | vase.rb:13-18 | if slabs `1..n - 1` take the first factor to the factor at step `n`, slabs `1..n` take it to the factor at step `n + 1` |
| `VaseProperties.ScaleOfSlabs` | vase.rb:13-18 | the scales of slabs `1..n`, applied in turn, take the factor at step 1 to the factor at step `n + 1` |
| `VaseProperties.ScalesTelescope` | vase.rb:13-18 | the scales of all built slabs, applied in turn, take the first slab's factor to the factor at the top of the vase |
| `VaseProperties.NoPinchNoScaling` | vase.rb:16-19 | with no pinch every scale is 1 and every profile is the star of factor 1 |
| `VaseProperties.SlabSameFrame` | vase.rb:13-22 | changing the base radius leaves slab `s`'s translation, rotation and extrusion unchanged |
| `VaseProperties.BuildFrameIgnoresBaseRadius` | vase.rb:9-24 | changing the base radius leaves the whole tree's frame unchanged; only polygon coordinates differ |
| `VaseProperties.ShrunkRadius` | vase.rb:46-47 | lowering the base radius by `w` lowers both star radii by `w * rf` |
| `VaseProperties.ShrunkVertex` | vase.rb:45-52 | lowering the base radius by `w` moves vertex `k` inwards along its own ray by `w * rf` |
| `VaseProperties.FactorIgnoresBaseRadius` | vase.rb:28-30 | the radius factor does not depend on the base radius |
| `VaseProperties.ShrunkProfile` | vase.rb:62 | lowering the base radius keeps the vase well formed with the same steps, and slab `s`'s polygon is the star of the same factor |
| `VaseProperties.ShrunkStar` | vase.rb:62 | in the vase with base radius lowered by `w`, vertex `k` of slab `s` is the original vertex moved `w` times the slab's factor inwards |
| `Group.VaseKeys` | vase.rb:79 | the seven member keys of `VASE_KEYS`; its properties are in `SliceIgnoresOtherKeys` and `UnslicedHashRaises` |
| `Group.BaseParams` | vase.rb:80-89 | the hash `BASE_PARAMS`; its properties are in `BaseOuterParams`, `BaseFloorCut` and `BaseParamsDefined` |
| `Group.SliceKeys` | vase.rb:60 | `Hash#slice` keeps exactly the listed keys present in the hash, with their values |
| `Group.NewSolidVase` | vase.rb:5 | the struct accepts a hash iff it names exactly the seven members (with integer `step_size`, `height`, `edges`), and takes their values |
| `Group.ExactlyMembers` | vase.rb:5 | definition of a hash naming exactly the struct's members; used by `NewSolidVase`'s contract |
| `Group.OuterParams` | vase.rb:60 | definition, `SolidVase.new(params.slice(*VASE_KEYS))`; its properties are in `BaseOuterParams` and `VaseIgnoresOtherKeys` |
| `Group.InnerHash` | vase.rb:62 | definition of the sliced hash merged with the lowered `base_radius`; its properties are in `InnerIsThinner` |
| `Group.InnerIsThinner` | vase.rb:62 | the merged inner hash makes the outer struct with `base_radius` lowered by the wall thickness and nothing else changed |
| `Group.InnerParams` | vase.rb:62 | the inner shell's parameters are the outer ones with the base radius lowered by `wall_and_base_thickness` |
| `Group.VaseDefined` | vase.rb:58-68 | definition of when `vase`'s builds are defined; its properties are in `BaseParamsDefined` and `VaseIgnoresOtherKeys` |
| `Group.FloorCut` | vase.rb:63-65 | definition of the translated floor cylinder; its properties are in `BaseFloorCut` and `Vase`'s contract |
| `Group.Vase` | vase.rb:58-68 | `vase` fails iff a member is missing or ill-kinded, the wall key is missing, or the step is 0; otherwise it is the outer shell minus (the well-formed inner shell, built from `InnerParams`, minus the floor cut) |
| `Group.InnerShell` | vase.rb:61-62 | corollary of `Vase`'s contract: the subtracted shell is the vase of the inner parameters, and it is well formed |
| `Group.ShellsShareFrame` | vase.rb:59-62 | the inner shell's slabs sit exactly where the outer shell's do |
| `Group.ShellsOfFrame` | vase.rb:59-62 | a difference whose two shells are the same vase with different base radii has shells with the same frame |
| `Group.SliceIgnoresOtherKeys` | vase.rb:79 | merging a key outside `VASE_KEYS` leaves the slice unchanged |
| `Group.UnslicedHashRaises` | vase.rb:60 | without the slice, the wall key would make the struct refuse the hash |
| `Group.VaseIgnoresOtherKeys` | vase.rb:58-68 | keys other than the seven members and the wall thickness change neither definedness nor result of `vase` |
| `Group.VaseIgnoresRadius` | vase.rb:74 | the `radius` key that `plate` merges in changes nothing |
| `Group.BaseVaseParams` | vase.rb:80-89 | the struct `BASE_PARAMS` makes; its properties are in `BaseOuterParams` and `BaseSlabs` |
| `Group.BaseOuterParams` | vase.rb:80-89 | `BASE_PARAMS` makes the struct (10, 100, 90, 50, 12, 5, 0.3) |
| `Group.BaseParamsDefined` | vase.rb:80-89 | the default vase builds for any trigonometry with a bounded sine |
| `Group.BaseSlabs` | vase.rb:80-89 | the default vase has ten slabs; slab 5 sits at z = 50, turned back 45 degrees, twisting 9 degrees |
| `Group.BaseFloorCut` | vase.rb:63-64 | the floor cut of `BASE_PARAMS` is a centred cylinder of radius 100 and height 1.2 at z = 10 |
| `Group.BaseVaseShape` | vase.rb:58-68 | the default vase's outer shell is that build, and its floor cut is a centred cylinder of radius 100 and height 1.2 at z = 10 |
| `Group.PlateParams` | vase.rb:74 | definition of the hash `plate` hands to `vase`; its properties are in `PlateVase` |
| `Group.PlateVase` | vase.rb:72-74 | the vase of the merged plate hash is exactly the default vase |
| `Group.Plate` | vase.rb:70-76 | the plate is an intersection whose first operand is a centred cylinder of radius 100, height 30 |
| `Group.PlateIsClippedBaseVase` | vase.rb:70-76 | the plate is the default vase intersected with that cylinder |

## Left out

- Command-line dispatch (vase.rb:91-96) is not modelled: it only picks `Group.vase` or `Group.plate` from `ARGV` and renders the result.
- RubyScad rendering is not modelled. The DSL accumulates OpenSCAD text inside blocks; the model returns the tree as a value. RubyScad itself is not part of this model.
- `difference` and `intersection` take a block of any number of solids. The model's two-operand `Difference`/`Intersection` match the two children every call site gives them.
- `sin`, `cos` and `radians` are not computed. They are fields of a `Trig` value. Only `Group.Plate` and the lemmas that say so assume the sine is bounded by 1 or periodic. `Plate` needs the bound because the default vase has `pinch = 0.3`: every slab bottom must have `0.3 * sin + 1` non-zero, which `SmallPinchWellFormed` derives from the bound.
- Floating-point rounding is not modelled: Ruby `Float`s are exact reals.
- Hash values other than numbers (strings, `nil`) are not modelled.
- A `Float` `step_size`, `height` or `edges` is not modelled. Ruby would still iterate (`(1..x).each` starts at an Integer); `NewSolidVase` fails instead.
- A missing member is `nil` in the struct, as happens in Ruby, but the model makes it an error (`NewSolidVase` is `None`). Ruby tolerates a missing `twist` (`nil.to_f` is 0.0) and, when `steps <= 0`, never reads the star's members; that tolerance is not modelled.
- `Group.Vase` folds every way Ruby raises (a zero step, `nil` arithmetic, an unknown struct keyword) into the single result `None`.
- `SolidVase.WellFormed` demands a non-zero radius factor at every slab bottom. In Ruby a zero factor would divide to `Infinity` or `NaN` rather than raise; that result is not modelled.
- Memoising `slice` in `@slice` is not modelled: it is a function of `edges`, and the cache changes no result.
- `Group.vase`'s default argument (vase.rb:58), which the no-argument call at vase.rb:93 uses, is not a separate member: `Group.vase` with no argument is `Vase(BaseParams, trig)`, which `BaseVaseShape`, `BaseSlabs` and `BaseParamsDefined` describe.
- Ruby `Hash` key order is not modelled: the hash is a map. Nothing in the script depends on the order.
- `SolidVase.Slab`: its own contract states only the nesting of the emitted operations; `VaseProperties.SlabLayout` states their contents.
