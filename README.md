# Christmas tree visualisation: a verified model of its core

The application shows a cloud of glowing particles and 300 ornaments that
fly between a diffuse scatter and the shape of a Christmas tree when the
user toggles the display mode. This project models, in Dafny, the parts of
it that hold logic rather than presentation:

- **The store** (`store.dfy`, module `AppStore`): one mutable field, the mode
  (`SCATTERED` or `TREE_SHAPE`), which starts scattered and which the toggle
  action flips.
- **The transition driver** (`transition.dfy`, module `Transition`): each frame
  both animated components move a progress value toward the mode's target
  (1 for the tree, 0 for the scatter) with `THREE.MathUtils.lerp(progress,
  target, delta * rate)`, with no clamp. The ornaments use rate 2. The
  particles' `uMix` uniform uses rate 1.5.
- **The ornaments** (`ornaments.dfy`, module `Ornaments`):
  - the generation loop builds 300 items, with boxes at even ids and spheres at odd ids;
  - the colour pass and the per-frame pass walk the items with two counters and write each item into the next slot of its variant's instanced mesh (150 slots each);
  - the per-frame transform adds float noise and spin that both calm down as the tree forms.
- **The particle cloud** (`foliage.dfy`, module `Foliage`):
  - the generation allocates five zeroed `Float32Array`s and fills four of them: `tp` and `sp` at stride 3, `s` and `r` at stride 1; `p` stays zero;
  - the per-frame update writes the elapsed time and the `uMix` step into the material's uniforms, and does nothing while the material reference is absent.
- **The particle shaders** (`foliage_shaders.dfy`, module `FoliageShaders`):
  - the cubic ease-in-out;
  - the scatter-to-tree `mix`;
  - the wind offsets and their strength;
  - the flickering alpha;
  - the fragment's disc cut-out, glow and emerald-to-gold tint.

Two shared modules hold the vocabulary:

- `numerics.dfy` (module `Numerics`) has the three-component vectors, the THREE lerps, the random source, and the transcendental functions.
- `sampling.dfy` (module `Sampling`) has the cone and sphere sampling formulas that both generators use.

`types.dfy` holds the mode enum and the ornament record.

Modelling choices:

- Numbers are `real`.
- `Math.random()` is a stream `rand: nat -> real` whose every value lies in `[0, 1)`. Ornament `i` uses draws `10i .. 10i+9` and particle `i` uses draws `8i .. 8i+7`, both in the order the code makes them.
- `sin`, `cos`, `acos`, `sqrt`, `cbrt` and `pow` are function values of a `Transcendentals` record. A proof uses only the facts it needs about them: sine and cosine in `[-1, 1]`, `sin² + cos² = 1`, roots mapping `[0, 1)` into `[0, 1)`, a non-negative square root, and a power of a base in `[0, 1]` lying in `[0, 1]` and being positive when the base is positive.
- The ornaments' `forEach` callback and the particles' loop body are methods of their own (`PlaceItem`, `WriteParticle`). One generic pass, `FillBatches`, serves both the colour pass and the frame pass. It is parameterised by the value written for each item, so both passes provably put every item in the same slot: item `i` goes to slot `Rank(items, i)` of its variant's buffer.

The ornaments' scatter radius is `15 + cbrt(w) * 40` (`components/Ornaments.tsx:46`). That is a shell from 15 to 55, not the ball of radius 40 that the name `SCATTER_RADIUS` suggests, and the model follows the code.

## Model

| member | source | states |
|---|---|---|
| AppStore.Store.constructor | store.ts:10 | the store starts in `SCATTERED` |
| AppStore.Store.ToggleMode | store.ts:11-13 | the new mode is the toggle of the old one, and the mode is the store's only state |
| AppStore.Toggled | store.ts:12 | the toggle never returns its input, and gives `TREE_SHAPE` exactly from `SCATTERED` |
| AppStore.ToggledTwice | store.ts:11-13 | toggling twice restores the mode (an involution) |
| AppStore.ToggledTimesParity | store.ts:10-13 | after n toggles from the initial mode the tree shows exactly when n is odd |
| Numerics.LerpBetween | components/Ornaments.tsx:91 | `THREE.MathUtils.lerp` with factor in [0, 1] lies between its ends and meets them at 0 and 1 |
| Numerics.LerpVectors | components/Ornaments.tsx:98 | `lerpVectors` gives the first vector at alpha 0 and the second at alpha 1 |
| Numerics.WaveBounded | components/Ornaments.tsx:104-105 | a wave in [-1, 1] of amplitude a added to b stays within a of b |
| Sampling.SpherePointNorm | components/Ornaments.tsx:42-52 | the point drawn from (u, v) and scaled by r lies at distance exactly r from the origin |
| Sampling.CirclePointRadius | components/Ornaments.tsx:35-39 | the cone point lies at horizontal distance exactly r from the axis |
| Sampling.ConeY | components/Ornaments.tsx:27 | a cone height drawn from [0, 1) lies in [-height/2, height/2) |
| Sampling.HeightNormOfDraw | components/Ornaments.tsx:27-28 | the normalised height of a drawn height is 1 - w, in (0, 1] |
| Sampling.DrawnHeightNorm | components/Foliage.tsx:42-43 | the normalised height of a drawn cone point lies in (0, 1] |
| Transition.Target | components/Ornaments.tsx:89 | the target is 1 exactly in `TREE_SHAPE` and 0 exactly in `SCATTERED` |
| Transition.StepBounded | components/Ornaments.tsx:89-91 | for progress in [0, 1] and 0 <= rate·delta <= 1 the step stays in [0, 1] between the old value and the target; a step at the target stays there |
| Transition.StepContracts | components/Ornaments.tsx:91 | each step shrinks the distance to the target by the factor 1 - rate·delta |
| Transition.LongFrameOvershoots | components/Ornaments.tsx:91 | with no clamp, a frame with rate·delta > 1 carries progress that is off target out of [0, 1] |
| Transition.FramesMonotone | components/Ornaments.tsx:89-91 | over repeated short frames progress stays in [0, 1] and each frame lies between the previous one and the target |
| Transition.FramesRiseStrictly | components/Ornaments.tsx:89-91 | after a toggle from rest to the tree, each frame strictly rises and stays below 1 |
| Transition.RisesTowardTree | components/Ornaments.tsx:91 | below the tree target, one frame with 0 < rate·delta < 1 strictly rises and stays below 1 |
| Transition.TenFramesAfterToggle | components/Ornaments.tsx:91 | ten frames of 1/60 s at rate 2 after a toggle each rise and none reaches 1 |
| Ornaments.RadiusAtHeight | components/Ornaments.tsx:29 | the cone radius at that height lies in (0, 7.5] |
| Ornaments.FinalRadius | components/Ornaments.tsx:33 | the final radius lies in [r_at_h, r_at_h + 0.5) |
| Ornaments.ScatterRadius | components/Ornaments.tsx:46 | the scatter distance lies in [15, 55) |
| Ornaments.Scale | components/Ornaments.tsx:59 | the scale lies in [0.2, 0.6) |
| Ornaments.PaletteIndex | components/Ornaments.tsx:60 | `floor(5·w)` is always an index of the five-colour palette |
| Ornaments.TreePlacement | components/Ornaments.tsx:27-39 | the tree position has y in [-8, 8), its normalised height is that of y, and its distance from the axis is the final radius, in [r_at_h, r_at_h + 0.5) |
| Ornaments.ScatterPlacement | components/Ornaments.tsx:42-52 | the scatter position lies at distance in [15, 55) from the origin |
| Ornaments.OrnamentAttributes | components/Ornaments.tsx:54-62 | item id keeps id, is a box iff id is even, has scale in [0.2, 0.6), rotation angles in [0, PI) with no roll, and a palette colour |
| Ornaments.GenerateOrnaments | components/Ornaments.tsx:25-63 | the loop yields exactly 300 items, item i being the i-th generated ornament |
| Ornaments.GeneratedInterleaved | components/Ornaments.tsx:55-61 | the generated items alternate box, sphere, ... and item i has id i |
| Ornaments.GeneratedSplit | components/Ornaments.tsx:55-61 | the 300 items are 150 boxes and 150 spheres |
| Ornaments.InterleavedCounts | components/Ornaments.tsx:61 | every even-length prefix of interleaved items is half boxes and half spheres |
| Ornaments.InterleavedRank | components/Ornaments.tsx:96-121 | items 2k and 2k+1 both take slot k of their variant's batch |
| Ornaments.RankIncreasing | components/Ornaments.tsx:96-121 | slots within a variant strictly increase with id, so no slot is written twice, and each lies below that variant's item count |
| Ornaments.CountKindMonotone | components/Ornaments.tsx:96-121 | a counter never decreases as the pass advances |
| Ornaments.BatchAt | components/Ornaments.tsx:96-121 | item i's value sits in its variant's batch at its slot |
| Ornaments.InterleavedBatches | components/Ornaments.tsx:96-121 | over the generated items both batches hold exactly 150 values: box slot k holds item 2k's and sphere slot k item 2k+1's |
| Ornaments.InterleavedSlot | components/Ornaments.tsx:96-121 | box slot k holds item 2k's value and sphere slot k holds item 2k+1's |
| Ornaments.SetAt | components/Ornaments.tsx:117-120 | writing at a counter adds the value after the filled prefix and leaves the other slots alone |
| Ornaments.PlaceItem | components/Ornaments.tsx:115-121 | the callback advances exactly the counter of the item's variant when that mesh is present, and writes the value at that counter |
| Ornaments.FillBatches | components/Ornaments.tsx:93-121 | after the pass each present buffer holds its variant's values in id order in its first slots and its old contents after them; each counter ends at its variant's count, and an absent mesh's counter at 0 |
| Ornaments.FloatMagnitude | components/Ornaments.tsx:102 | for progress in [0, 1] the float amplitude lies in [0.01, 0.05] |
| Ornaments.RotationSpeed | components/Ornaments.tsx:108 | for progress in [0, 1] the spin rate lies in [0.1, 1.0] |
| Ornaments.CalmerTowardTree | components/Ornaments.tsx:102-111 | the float amplitude and the spin rate are non-increasing in progress |
| Ornaments.InstanceNearPath | components/Ornaments.tsx:97-113 | a frame's instance lies within the float amplitude of the scatter-to-tree interpolation (on it in z), at the item's scale, at the scatter or tree position at progress 0 or 1 |
| Ornaments.InstancedMesh.constructor | components/Ornaments.tsx:131 | a mesh has exactly as many matrix and colour slots as its count |
| Ornaments.OrnamentsView.constructor | components/Ornaments.tsx:21-65 | the items are generated once, and progress starts at 0 |
| Ornaments.OrnamentsView.InitColors | components/Ornaments.tsx:67-83 | box slot k gets item 2k's colour and sphere slot k item 2k+1's; the counters end at 150 for a present mesh and 0 for an absent one |
| Ornaments.OrnamentsView.Frame | components/Ornaments.tsx:88-126 | progress takes one lerp step at rate 2, then box slot k gets item 2k's transform and sphere slot k item 2k+1's; the counters end at 150 for a present mesh and 0 for an absent one |
| Foliage.ScatterRadius | components/Foliage.tsx:35 | the particle's scatter distance lies in [0, 35) |
| Foliage.RadialFactor | components/Foliage.tsx:49 | the radial factor lies in [0.8, 1.0) |
| Foliage.Size | components/Foliage.tsx:57 | the size lies in [0.5, 2.5) |
| Foliage.ScatterPlacement | components/Foliage.tsx:31-39 | the scatter position lies at distance in [0, 35) from the origin |
| Foliage.TreePlacement | components/Foliage.tsx:42-53 | the tree position has y in [-10, 10) with normalised height in (0, 1]; the cone radius there lies in (0, 9]; and the distance from the axis, r_tree, lies in [0.8·radiusAtH, radiusAtH) |
| Foliage.RadialBounds | components/Foliage.tsx:49 | a radial factor in [0.8, 1) puts r_tree between 0.8·radiusAtH and radiusAtH |
| Foliage.ParticleAttributes | components/Foliage.tsx:57-58 | s[i] lies in [0.5, 2.5), and r[i] is the particle's last draw, in [0, 1) |
| Foliage.NewFloat32Array | components/Foliage.tsx:21-25 | a new buffer has the given length and holds only zeros |
| Foliage.SetVector | components/Foliage.tsx:37-53 | particle i writes exactly slots 3i, 3i+1 and 3i+2, which are in bounds |
| Foliage.SetScalar | components/Foliage.tsx:57-58 | particle i writes exactly slot i, which is in bounds |
| Foliage.WriteParticle | components/Foliage.tsx:27-59 | one iteration extends every written buffer by particle i's values and leaves `p` zero |
| Foliage.GenerateBuffers | components/Foliage.tsx:20-68 | the five buffers are new, distinct objects; `p`, `tp` and `sp` have length 3·20000 and `s` and `r` have length 20000; `p` stays all zeros; slots 3i .. 3i+2 of `tp`/`sp` and slot i of `s`/`r` hold particle i's values |
| Foliage.MixStep | components/Foliage.tsx:81-86 | for uMix in [0, 1] and 0 <= 1.5·delta <= 1 the new uMix stays in [0, 1] between the old value and the target; a longer frame overshoots |
| Foliage.Uniforms.constructor | components/Foliage.tsx:70-75 | uTime and uMix start at 0, with emerald and gold as the two colours |
| Foliage.ShaderMaterial.constructor | components/Foliage.tsx:124-129 | the material carries the component's uniforms |
| Foliage.FoliageView.constructor | components/Foliage.tsx:20-75 | the buffers are generated once into five new, distinct arrays holding each particle's values, and the uniforms are a new object starting at time 0 and mix 0 |
| Foliage.FoliageView.AttachMaterial | components/Foliage.tsx:124-125 | the material reference is set to a material over the component's uniforms |
| Foliage.FoliageView.Frame | components/Foliage.tsx:77-88 | with a material, uTime becomes the elapsed time and uMix takes one lerp step toward the target at rate 1.5; without one, both uniforms stay unchanged |
| FoliageShaders.CubeMonotone | components/FoliageShaders.ts:22 | the cube is monotone, strictly so, on non-negative bases |
| FoliageShaders.CubicInOutEndpoints | components/FoliageShaders.ts:19-23 | `cubicInOut` maps 0 to 0, 0.5 to 0.5 and 1 to 1, and its branches agree at 0.5 |
| FoliageShaders.CubicInOutRange | components/FoliageShaders.ts:19-23 | `cubicInOut` maps [0, 1] into [0, 1], and its value is below 0.5 exactly when t is |
| FoliageShaders.CubicInOutMonotone | components/FoliageShaders.ts:19-23 | `cubicInOut` is non-decreasing on [0, 1] |
| FoliageShaders.CubicInOutSymmetric | components/FoliageShaders.ts:19-23 | cubicInOut(1 - t) = 1 - cubicInOut(t) |
| FoliageShaders.MixIsLerp | components/FoliageShaders.ts:29 | GLSL `mix` is THREE's lerp |
| FoliageShaders.MixVecBetween | components/FoliageShaders.ts:29 | with weight in [0, 1] each component of `mix` lies between the inputs' components |
| FoliageShaders.MixedPositionPath | components/FoliageShaders.ts:26-29 | the mixed position is the scatter position at uMix = 0 and the tree position at uMix = 1, and lies between them in between |
| FoliageShaders.MovementIntensityRange | components/FoliageShaders.ts:33 | `movementIntensity` lies in [0.05, 0.2] for t in [0, 1] and is non-increasing in t |
| FoliageShaders.WindBounded | components/FoliageShaders.ts:34-36 | the wind moves x and z by at most the intensity and y by at most half of it |
| FoliageShaders.VertexNearPath | components/FoliageShaders.ts:26-36 | for uMix in [0, 1] the displaced point lies within the intensity, which is in [0.05, 0.2], of the mixed position (half of it in y) |
| FoliageShaders.VAlphaRange | components/FoliageShaders.ts:45 | `vAlpha` lies in [0.2, 1.0] |
| FoliageShaders.FragmentDiscard | components/FoliageShaders.ts:64-65 | a fragment is discarded exactly when r > 0.5 |
| FoliageShaders.DistanceNonneg | components/FoliageShaders.ts:64 | the fragment's distance from the sprite centre is non-negative |
| FoliageShaders.FragmentKeptAlpha | components/FoliageShaders.ts:64-75 | a kept fragment has glow base 1 - 2r in [0, 1] and glow in [0, 1], so its alpha lies in [0, vAlpha] |
| FoliageShaders.FragmentKeptColor | components/FoliageShaders.ts:72-73 | `mixFactor` lies in [0, 1], so the weight lies in [0, 0.3] and each colour component lies between `uColor1`'s and `uColor2`'s |

## Left out

- Transcendental functions (`sin`, `cos`, `acos`, `sqrt`, `cbrt`, `pow`, `distance`): no definitions. The model carries them as uninterpreted function values with only the range facts listed above, so no result depends on their exact values.
- Float32 storage and IEEE double rounding: all bounds hold over the reals.
- Statistical properties of the sampling, such as scatter points being uniform by volume: these are claims about distributions, not about any single call.
- `Math.random()` and the frame clock: the draws are a parameter (`rand`), and the frame's `delta` and elapsed time are method parameters.
- The React hooks (`useMemo`, `useLayoutEffect`, `useFrame`, `useRef`) and zustand's subscription and merge machinery: the components are classes whose constructor plays the memoised generation, with methods for the effects.
- Three.js internals:
  - `Object3D.updateMatrix` is the `Transform` datatype;
  - `Euler` is a `Vec3` of angles;
  - `Color` parsing: colours stay as hex strings, and the fragment shader takes its two colours as RGB vectors;
  - the reuse of one `dummy` object across items is not modelled, since the model writes each item's transform as a value;
  - the `needsUpdate` flags;
  - geometry, materials, lighting, blending and the other scene components.
- Vertex shader size attenuation (`300.0 / -mvPosition.z`) and `gl_Position`: these depend on the camera matrices, and the code does not guard the division.
- FoliageShaders.CubicInOut: GLSL's `pow(x, 3.0)` is written as `x*x*x`. GLSL leaves `pow` undefined for a negative base, which the easing only produces for uMix > 1.
- Ornaments.SetAt: requires the slot to be below the buffer length. Three.js does not check this, but every caller in the model meets it.
- Foliage.FoliageView.AttachMaterial: the model sets the material reference once. It does not model the reference being cleared again at unmount.
- The positions buffer `p` is modelled only as the zero buffer the code leaves it.
- Transition.Step: the lerp has no clamp, as in the code. The "stays in [0, 1]" contracts therefore require 0 <= rate·delta <= 1, and `LongFrameOvershoots` / `MixStep` show what happens past that bound.
