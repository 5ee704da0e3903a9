# Christmas-Tree scene core, modelled in Dafny

The scene shows photos and ornaments in two layouts. In tree mode they sit on a conical spiral under a star. In galaxy mode they scatter through a ball. Double-clicking the tree explodes it into the galaxy, and double-clicking the empty background collapses it back. In galaxy mode, clicking a photo brings it to the front (focus); clicking the same photo again puts it back.

This project models that behaviour in seven modules:

- `Geometry` (Geometry.dfy) holds the three.js value types (`Vec3`, `Euler`, `Pose`) and the scene-graph transform `Object3D`, a class that per-frame callbacks update in place. It also holds:
  - `Draw`: one `Math.random()` result, a real in [0, 1);
  - `Trig`: the library functions `sin`, `cos`, `acos` and `cbrt`, passed in as values; `Lawful` states the laws the layout relies on (sin² + cos² = 1; cos(acos x) = x on [−1, 1]; cbrt maps [0, 1) into [0, 1));
  - a few one-product facts about reals used by the proofs.
- `Types` (Types.dfy) mirrors `types.ts`: `PositionData`, `PhotoData`, `DecorationData`, `DecorationType` and `SceneState`. It adds the scene invariant `FocusNeedsGalaxy` (a photo is focused only in galaxy mode) and `IsFocused`, the prop each photo receives.
- `MathUtils` (MathUtils.dfy) models `utils/math.ts`:
  - `randomRange` and `getRandomGalaxyPosition`, as functions of their draws;
  - `generateTreePositions`, as a method whose loop builds the spiral, proved equal entry by entry to the specification function `TreePlacementAt`.
- `Photo` and `PhotoFrame` model each component's target-pose rule, target scale, per-frame offset and click handling.
- `Decorations` models the ornament's target-pose rule, the random delay of its position tween, its glow and its shape.
- `Experience` (Experience.dfy) models the scene component:
  - its configuration constants;
  - the `photo-i` / `deco-i` ids and the memoised photo and ornament data;
  - the three handlers, as pure transition functions and as methods of the class `ExperienceContent`, whose two fields the handlers update in place;
  - the star's tween target and the orbit-control flags.

Numbers are unbounded reals, so the model does not capture floating-point rounding. Every random draw and every trigonometric function is a parameter.

Three details of the code the model keeps as written:

- The spiral angle is t·π·12, which is six turns from bottom to apex.
- A tree placement lies exactly on the cone surface (`OnCone`), not anywhere inside the cone.
- The autoRotate flag tests JavaScript truthiness. An empty-string focus id therefore counts as no focus (`ControlsFor`).

## Model

| member | source | states |
|---|---|---|
| MathUtils.RandomRangeBounds | utils/math.ts:4 | A draw in [0,1) scales into [min, max) when min < max, into (max, min] when the bounds are swapped, and gives min when they are equal |
| MathUtils.GalaxyRadiusBounds | utils/math.ts:12 | The sampled distance cbrt(w)·radius lies in [0, radius) for a positive radius |
| MathUtils.GalaxyDistance | utils/math.ts:10-18 | The returned point lies at exactly the sampled distance r from the origin (x²+y²+z² = r²), by sin²+cos²=1 applied to both angles |
| MathUtils.GalaxyZ | utils/math.ts:11-17 | The point's z coordinate (the sampling's polar axis, not the scene's vertical y) is r·(2v−1), because phi = acos(2v−1) |
| MathUtils.GalaxyContainment | utils/math.ts:7-18 | Every galaxy point lies strictly inside the ball of the requested radius |
| MathUtils.DefaultGalaxyContainment | utils/math.ts:7 | With the default radius 15, every point lies inside the ball of radius 15 |
| MathUtils.GenerateTreePositions | utils/math.ts:22-49 | Returns no entries when count ≤ 0 and otherwise exactly count entries, entry i being the i-th conical-spiral placement in index order |
| MathUtils.SpiralTBounds | utils/math.ts:27 | t = i/count lies in [0,1) and is 0 for the first entry |
| MathUtils.SpiralTIncreasing | utils/math.ts:27 | t grows strictly with i |
| MathUtils.TreeRadiusAndHeight | utils/math.ts:31-32 | For positive base radius and height, radius·(1−t) lies in (0, radiusBottom] and y lies in [−height/2, height/2) |
| MathUtils.TreeConeContainment | utils/math.ts:31-34 | Every placement lies on the cone surface: x²+z² equals the squared cone radius at its height |
| MathUtils.TreeHeightIncreasing | utils/math.ts:32 | For positive height, y is strictly increasing in i |
| MathUtils.TreeRotationFollowsSpiral | utils/math.ts:30-43 | The rotation is (0, −angle, 0) with angle in [0, 12π), which is six turns; x and z are cos and sin of that angle times the current radius; the first entry has no rotation |
| Geometry.SinCosBounded | utils/math.ts:33-34 | From sin²+cos²=1 alone, sine and cosine stay in [−1, 1] |
| Photo.TargetPose | components/Photo.tsx:27-42 | Focused and exploded gives the focus pose (0,0,4) with no rotation; exploded and unfocused gives the galaxy pose; tree mode gives the tree pose |
| Photo.TargetScale | components/Photo.tsx:63-69 | The scale is 1.5 exactly when focused, otherwise 1 |
| Photo.FocusPoseIgnoresData | components/Photo.tsx:30-33 | The focus pose is the same for every photo, whatever its stored poses |
| Photo.TreeModeIgnoresFocus | components/Photo.tsx:38-41 | In tree mode the focus flag has no effect on the pose |
| Photo.TargetInScene | components/Photo.tsx:30-66 | Under the scene invariant, a photo is in the focus pose with scale 1.5 exactly when it is the focused one; otherwise it is in the galaxy pose in galaxy mode and the tree pose with scale 1 in tree mode |
| Photo.FloatOffset | components/Photo.tsx:77-79 | The per-frame float is zero unless exploded and not focused |
| Photo.FloatOffsetBounded | components/Photo.tsx:79 | One frame's float moves the photo by at most 0.002 |
| Photo.FloatFrame | components/Photo.tsx:75-81 | An unmounted group is left alone; otherwise only position.y changes, by the float offset |
| Photo.OnClick | components/Photo.tsx:86-90 | A click reports the photo's own id and stops propagation exactly in galaxy mode; in tree mode it does neither |
| PhotoFrame.TargetPose | components/PhotoFrame.tsx:29-35 | Focused and exploded gives (0,0,8) with no rotation; exploded and unfocused gives the galaxy pose; tree mode gives the tree pose |
| PhotoFrame.TargetScale | components/PhotoFrame.tsx:37 | The scale is 1.8 exactly when focused, otherwise 1 |
| PhotoFrame.WobbleBounded | components/PhotoFrame.tsx:66-67 | The per-frame bob is at most 0.005 and the tilt stays in [−0.05, 0.05] |
| PhotoFrame.WobbleFrame | components/PhotoFrame.tsx:64-69 | A mounted frame that is focused in galaxy mode bobs in y and has its z rotation set to the tilt; in every other case position and rotation are unchanged |
| PhotoFrame.OnClick | components/PhotoFrame.tsx:74 | A click always reports the frame's own id and always stops propagation, in either mode |
| Decorations.TargetPose | components/Decorations.tsx:12-13 | Galaxy mode gives the galaxy pose and tree mode gives the tree pose; there is no focus input |
| Decorations.ModeSwitchMoves | components/Decorations.tsx:12-13 | Switching mode changes the target exactly when the two stored poses differ |
| Decorations.PositionDelayBounded | components/Decorations.tsx:21-30 | The position tween's delay lies in [0, 0.3); the rotation tween has no delay |
| Decorations.EmissiveIntensity | components/Decorations.tsx:47 | The glow is 0.05 in galaxy mode and 0.2 in tree mode |
| Decorations.ShapeOf | components/Decorations.tsx:36-40 | A 24×24 sphere exactly for the 'sphere' kind, otherwise an octahedron with detail 0; both have radius 0.35 |
| Experience.NatToString | components/Experience.tsx:40 | The rendering of i in an id is a non-empty string of decimal digits, with at least two digits from 10 on |
| Experience.DecimalRoundTrip | components/Experience.tsx:40 | Reading the rendered digits back gives i |
| Experience.NatToStringInjective | components/Experience.tsx:40 | Two numbers render the same exactly when they are equal |
| Experience.IdsDistinct | components/Experience.tsx:39-56 | photo-i = photo-j iff i = j, deco-i = deco-j iff i = j, and no photo id equals an ornament id |
| Experience.GalaxyRotationBounds | components/Experience.tsx:45 | Both random galaxy angles lie in [0, π) and there is no z rotation |
| Experience.ColorIndex | components/Experience.tsx:58 | floor(4r) is a valid palette index |
| Experience.ColorBands | components/Experience.tsx:58 | Palette entry k is picked exactly by draws in [k/4, (k+1)/4) |
| Experience.BuildPhotos | components/Experience.tsx:37-47 | Builds one photo per URL; photo i has id photo-i, the i-th URL, the i-th entry of the photo spiral, and its galaxy pose from its own draws |
| Experience.BuildDecorations | components/Experience.tsx:50-64 | Builds DECORATION_COUNT ornaments; ornament i has id deco-i, its kind and colour from its draws, the i-th entry of the wider spiral, and its galaxy pose |
| Experience.PhotosFacts | components/Experience.tsx:37-47 | Each built photo has id photo-i and the i-th URL; it sits on the tree cone within the tree's height, its galaxy point lies inside radius 10, and its galaxy angles lie in [0, π) |
| Experience.DecorationsFacts | components/Experience.tsx:50-64 | Each built ornament has id deco-i, a palette colour, and sphere kind iff its draw exceeds 0.5; it sits on the wider cone, and its galaxy point lies inside radius 15 |
| Experience.BuiltIdsDistinct | components/Experience.tsx:39-56 | No two built photos share an id, and no two built ornaments do |
| Experience.OnTreeDoubleClick | components/Experience.tsx:94-99 | The result is exploded, the focus is kept, and galaxy mode is left unchanged |
| Experience.OnBackgroundDoubleClick | components/Experience.tsx:101-106 | Galaxy mode returns to the initial tree state with focus cleared, even when a photo was focused; tree mode is unchanged |
| Experience.OnPhotoSelect | components/Experience.tsx:108-117 | Tree mode is unchanged; in galaxy mode the focused id is cleared and any other id is focused in one step; the mode never changes |
| Experience.StepKeepsInvariant | components/Experience.tsx:94-117 | Every handler keeps "a photo is focused only in galaxy mode" |
| Experience.RunKeepsInvariant | components/Experience.tsx:94-117 | Any sequence of gestures keeps the invariant |
| Experience.EveryInvariantStateReachable | components/Experience.tsx:33-117 | Every state satisfying the invariant is reachable from the initial state |
| Experience.BackgroundAlwaysResets | components/Experience.tsx:101-106 | From any state with the invariant, a background double-click gives the initial state |
| Experience.SelectTwice | components/Experience.tsx:108-117 | Selecting the same id twice in galaxy mode leaves it focused exactly when it was focused before, and restores the state when it or nothing was focused |
| Experience.SampleSession | components/Experience.tsx:94-117 | Explode, focus p-3, unfocus it, refocus it, switch straight to p-7, and collapse from a focused state back to the initial state |
| Experience.PhotoClickEffect | components/Experience.tsx:158-165 | A photo click changes nothing in tree mode; in galaxy mode it toggles that photo's focus, keeps the mode, and keeps the invariant |
| Experience.PhotoSelectKeepsDecorations | components/Experience.tsx:168-175 | Selecting a photo changes no ornament's target or glow |
| Experience.AtMostOneFocused | components/Experience.tsx:158-165 | Among photos with distinct ids, at most one is handed isFocused at a time, and if the focused id is a photo's id, exactly that photo is |
| Experience.StarTargetFor | components/Experience.tsx:72-88 | In galaxy mode the star goes to y = 10 and scale 0 with no delay; in tree mode it goes to y = TREE_HEIGHT/2 + 0.5, its mount position, and scale 1 after a one-second delay; x and z are 0 |
| Experience.StarCrownsTree | components/Experience.tsx:72-73 | In tree mode the star sits above every photo and every ornament on the tree; in galaxy mode its scale is 0 |
| Experience.ControlsFor | components/Experience.tsx:178-185 | Pan is off; zoom is on iff in tree mode; auto-rotate is on iff in tree mode with no (truthy) focused id |
| Experience.AutoRotateExactlyInTreeMode | components/Experience.tsx:180-183 | Under the invariant, auto-rotate is on exactly in tree mode, which is exactly when zoom is on |
| Experience.ExperienceContent.constructor | components/Experience.tsx:32-64 | On mount the state is tree mode with no focus, and the photo and ornament data are the built ones |
| Experience.ExperienceContent.HandleTreeDoubleClick | components/Experience.tsx:94-99 | Updates the two fields as OnTreeDoubleClick does and keeps the invariant |
| Experience.ExperienceContent.HandleBackgroundDoubleClick | components/Experience.tsx:101-106 | Updates the two fields as OnBackgroundDoubleClick does and keeps the invariant |
| Experience.ExperienceContent.HandlePhotoSelect | components/Experience.tsx:108-117 | Updates the two fields as OnPhotoSelect does and keeps the invariant |

## Left out

- gsap tweens are left out: easing curves, durations, and what happens when a new tween interrupts one in progress. Only the target values and the delays are modelled. The same goes for the star's position and scale tweens and the photos' and ornaments' tweens.
- Rendering is left out: meshes, materials, lights, stars and sparkles, OrbitControls internals (polar-angle limits, rotate speed), the canvas, and the instruction overlay. These are user-interface code.
- Texture loading and colour-space setup are left out. They are I/O and library calls.
- The frame clock and accumulation over many frames are left out. Only one frame's guard and offset are modelled, with the elapsed time as a parameter.
- `Math.random` is a parameter, a `Draw` in [0, 1). Uniformity of the galaxy sampling by volume is a statistical property and is not stated.
- Floating point is replaced by reals. `Math.sin`, `Math.cos`, `Math.acos` and `Math.cbrt` are known only through the laws in `Lawful`. Math.PI is its 16-digit decimal literal.
- React state batching and stale closures are left out. Each handler is one atomic update of both fields.
- Event routing in the scene graph is left out. That covers a photo click bubbling to the tree group and the background sphere sitting behind the tree. `Photo.OnClick` and `PhotoFrame.OnClick` record only whether a click stops propagation.
- The `e` event argument of the handlers is left out; the tree handler's `stopPropagation` belongs to the routing above.
- Colour strings are not parsed. The palette entry "#silver" is kept exactly as written.
- GenerateTreePositions: takes an integer count, while the source accepts any number; a fractional count such as 2.5 runs the loop ceil(count) times with t = i/count. The scene passes only 12 and 40, so nothing it does is lost.
- The `Experience` wrapper (canvas camera and overlay) holds no logic and is not modelled.
