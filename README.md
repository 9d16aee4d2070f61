# Hand-gesture Christmas tree: gesture latch and animation driver

This project models the two pieces of sequential logic in a React/three.js page. In the page, a webcam hand tracker switches a cloud of 2000 ornaments between a cone-shaped "tree" and a scattered "chaos" ball.

- **Gesture adapter** (`src/App.tsx`). For each tracker result with a hand, the callback updates three things:
  - it eases the pinch distance (thumb tip to index fingertip) 10% toward the raw value;
  - it latches the chaos flag with hysteresis: on above 0.25, off below 0.10, unchanged in between;
  - it eases a pointer 5% toward the remapped base of the middle finger.

  A result without a hand changes nothing. The model is module `Gesture`: the value-level function `Step` and its fold `Run`, plus the class `GestureTracker`, whose `OnResults` method updates the three fields in place and is proved equal to `Step`.
- **Animation driver, layout and star** (`src/Experience.tsx`). One pass generates a scattered point, a tree point and a colour per particle. `Layout.GenerateLayout` models this pass and writes three arrays. The star outline loop is `Layout.StarOutline`. Each frame, `Animation.Experience.OnFrame`:
  - eases `progress` 4% toward 1 (chaos) or 0 (tree);
  - rewrites every instance transform with the blended position, the rotation and the shrinking scale;
  - spins the field and the star, and bobs the star;
  - eases the camera 5% toward the pointer-derived target.

Quantities are exact `real`s. `MathUtils.Lerp(a, b, t) = a + (b - a) * t` stands in for the interpolation of the three.js math utilities. Repeated easing is treated once in `MathUtils`:
- the closed form of the gap;
- a proof that it never overshoots;
- a Bernoulli bound;
- convergence.

Library results (`Math.random`, `Math.sqrt`, `Math.pow`, `sin`, `cos`, `acos`) come in as parameters:
- each particle's draws come as a `Layout.ParticleDraw` with its ranges stated in `InRange`;
- the star's trigonometry comes as the functions `cosPi`/`sinPi`;
- the pinch distance comes as the square root's result, with its defining equation in `HandFrame.IsPinchDistance`;
- the star's bob comes as `wave`, the sine of 1.5 times the elapsed time.

## Model

| member | source | states |
|---|---|---|
| MathUtils.LerpTowards | src/App.tsx:45 | a factor in [0, 1] leaves the eased value between the old value and the target, at (1 - t) times the old distance from the target |
| MathUtils.LerpGap | src/App.tsx:45 | for any factor, the gap to the target after one ease is (1 - t) times the old gap |
| MathUtils.EaseGap | src/Experience.tsx:82 | after n eases toward a fixed target the gap is exactly (1 - t)^n times the first gap |
| MathUtils.EaseNeverOvershoots | src/App.tsx:45 | repeated easing with a factor in [0, 1] never leaves the segment from the start to the target |
| MathUtils.EaseBernoulli | src/App.tsx:45 | after n eases, the gap times 1 + n·t is at most the first gap |
| MathUtils.EaseConverges | src/App.tsx:45 | for a factor in (0, 1] and every tolerance there is a step count from which on the eased value stays within the tolerance of the target |
| Gesture.Remap | src/App.tsx:55-56 | the remap of landmark 9 sends the unit square into [-1, 1]^2, and halving and shifting back recovers the landmark |
| Gesture.Step | src/App.tsx:33-58 | no hand: state unchanged; with a hand: the smoothed distance lies between the old one and the raw one, at 0.9 times the old gap and strictly closer unless equal; the latch reads the smoothed value: above 0.25 chaos, below 0.10 tree, in [0.10, 0.25] unchanged; the pointer lies between the old pointer and the remap target of landmark 9, at 0.95 times the old gap on each axis, and, when the old pointer is in [-1, 1]^2 and landmark 9 in the unit square, stays in [-1, 1]^2 |
| Gesture.AbsentHandFreezes | src/App.tsx:34 | any run of results without a hand leaves the whole state unchanged |
| Gesture.PointerStaysInBox | src/App.tsx:54-57 | a pointer starting in [-1, 1]^2 stays there while landmark 9 lies in the image |
| Gesture.DeadZoneHoldsMode | src/App.tsx:48-52 | with the smoothed and every raw distance in [0.10, 0.25], the smoothed distance never leaves that band and the mode never flips |
| Gesture.HeldHandEases | src/App.tsx:45 | holding one hand result, the smoothed distance after n results is n eases by 0.1 toward its raw distance |
| Gesture.HeldPinchSettles | src/App.tsx:45-52 | a pinch held above 0.25 (below 0.10) eventually latches chaos (tree) and keeps it for every longer run |
| Gesture.PinchFrameIsPinch | src/App.tsx:38-40 | each fixture hand with a non-negative pinch `raw` has raw distance `raw`, equal to the distance from landmark 4 to landmark 8 |
| Gesture.RawSpikeDoesNotLatch | src/App.tsx:45-52 | a first raw distance of 0.30 from the initial state gives smoothed 0.165 and no chaos: the latch reads the smoothed value |
| Gesture.PinchScenario | src/App.tsx:45-52 | raw 0.05, 0.05, 0.30, 0.30, 0.05 give smoothed 0.14, 0.131, 0.1479, 0.16311, 0.151799 and the mode stays tree |
| Gesture.GestureTracker.constructor | src/App.tsx:7-10 | the session starts with smoothed distance 0.15, no chaos and the pointer at (0, 0) |
| Gesture.GestureTracker.OnResults | src/App.tsx:33-58 | the in-place update of the three fields equals `Step` of the old state and keeps the smoothed distance non-negative |
| Layout.ChaosPointInBall | src/Experience.tsx:31-34 | with sqrt(u) in [0, 1) the scatter radius 18·sqrt(u) is in [0, 18) and no coordinate of the scattered point exceeds it |
| Layout.TreePointInCone | src/Experience.tsx:37-40 | the tree point's y = h - 7 is in [-7, 7); its radius is in [0, (14 - h)·0.32], i.e. within (14 - (y + 7))·0.32; neither horizontal coordinate exceeds it |
| Layout.TreePointOnCircle | src/Experience.tsx:37-40 | with cos^2 + sin^2 = 1 for the azimuth, x^2 + z^2 equals the radius squared and is within the cone's bound squared |
| Layout.GenerateLayout | src/Experience.tsx:24-46 | the loop fills 3·2000 scattered coordinates, 3·2000 tree coordinates and 2000 colours, each particle's equal to its draws' points; the colour is gold exactly when its draw is above 0.4; in-range draws give a bounded layout |
| Layout.BoundedByDraws | src/Experience.tsx:29-44 | buffers filled from in-range draws keep every scattered coordinate inside (-18, 18) and every tree height in [-7, 7) |
| Layout.StarOutline | src/Experience.tsx:55-63 | the outline is a `moveTo` then nine `lineTo`s, then a close; vertex i is at angle i·π/5 and radius 0.8 (even i) or 0.4 (odd i) |
| Layout.StarVertexOnCircle | src/Experience.tsx:55-59 | given cos^2 + sin^2 = 1, vertex i lies at distance 0.8 from the centre for even i and 0.4 for odd i |
| Animation.ProgressStep | src/Experience.tsx:81-82 | one frame keeps progress in [0, 1], between the old value and the target 1 (chaos) or 0 (tree), at 0.96 times the old gap |
| Animation.ProgressStaysInUnit | src/Experience.tsx:81-82 | progress starting in [0, 1] never leaves it, whatever the sequence of modes |
| Animation.HeldModeEases | src/Experience.tsx:81-82 | while the mode is held, progress after n frames is n eases by 0.04 toward its target and the gap is 0.96^n times the first one |
| Animation.TreeModeRests | src/Experience.tsx:19 | from the initial 0, progress stays exactly 0 while the mode is tree |
| Animation.ParticleTransform | src/Experience.tsx:89-94 | for progress in [0, 1] each coordinate lies between the tree and the scattered coordinate and the scale in [0.5, 1], each at (1 - progress) times its full distance from the scattered value (0.5 for the scale); progress 0 gives the tree point and scale 1, progress 1 the scattered point and scale 0.5; rotation is (0.1·t, i, 0) |
| Animation.ChaosSettles | src/Experience.tsx:81-82 | for every tolerance there is a frame count from which on a session held in chaos mode keeps progress within the tolerance of 1 |
| Animation.TreeModeShowsTree | src/Experience.tsx:81-94 | in a session that stays in tree mode every particle is drawn exactly at its tree point with scale 1 |
| Animation.CameraStep | src/Experience.tsx:110-113 | camera x and y each lie between the old value and the target x·7, 5 + y·4, at 0.95 times the old gap |
| Animation.CameraStaysInBox | src/Experience.tsx:110-113 | with the pointer in [-1, 1]^2 the targets lie in [-7, 7] x [1, 9], and a camera in that box stays there |
| Animation.StarHeight | src/Experience.tsx:106 | for wave in [-1, 1] the star's height is in [7.55, 7.65], and 7.6 at wave 0 |
| Animation.Experience.constructor | src/Experience.tsx:19-46 | mounting generates the layout, starts progress at 0, the spins at 0, the star at height 7.6 (line 138), the camera at (0, 4) (line 120), and every instance at the identity transform |
| Animation.Experience.OnFrame | src/Experience.tsx:80-115 | progress becomes `ProgressStep` of the old one; every one of the 2000 instances gets `ParticleTransform` of its two layout points at the new progress; the layouts and colours are unchanged; the field spins by 0.0015 and the star by 0.005; the star is at `StarHeight(wave)`; the camera moves by `CameraStep` |
| Animation.Experience.WriteInstances | src/Experience.tsx:85-97 | the particle loop writes the blended transform to every index 0..1999 |

## Left out

- The tracker and camera plumbing: loading the hand-tracking scripts, the file locator, the options, the webcam capture loop, sending frames and closing the tracker (`src/App.tsx:12-31`, `61-72`). These are I/O and foreign library calls. Each tracker result arrives as a parameter of `OnResults`.
- The error path that logs when the scripts are missing (`src/App.tsx:17-20`). It is console output only.
- All JSX: the overlay, the video element, the canvas, the lights, the materials and post-processing (`src/App.tsx:75-101`, `src/Experience.tsx:117-155`). This is declarative scene configuration.
- `Math.random`, `Math.sqrt`, `Math.pow`, `sin`, `cos` and `acos` are not modelled. Their results are parameters with their ranges stated.
  - `cos(acos(2u - 1))` is taken as `2u - 1`.
  - The identity that would make the scattered point's length equal its radius is not stated. `Layout.ChaosPointInBall` bounds each coordinate only.
- Floating point: the `Float32Array` storage, and the exact formula of the library's interpolation as against `a + (b - a) * t`. Both are modelled over exact reals.
- The library's colour objects and `toArray` into the colour buffer. The colour of a particle is modelled as the `Swatch` it picks (`Gold` or `Red`), not its RGB triple. How often each is picked (0.6 / 0.4) is a property of the random source and is not stated.
- three.js internals are not modelled:
  - the object's matrix update and `setMatrixAt`, modelled as storing a `Transform` (position, Euler rotation, scale) per instance;
  - the `needsUpdate` flag;
  - the extrusion and centring of the star shape;
  - `camera.lookAt`;
  - the orbit controls, which also move the camera.
- React scheduling: the batching of state updates, and the interleaving of the tracker callback with the render callback. Each callback is an atomic method on its own state, and `OnFrame` receives the mode and the pointer as parameters.
- The guard on the star reference (`src/Experience.tsx:102`): the star is assumed mounted, so the star update always happens.

## Notes

- Over exact reals, progress held in chaos mode approaches 1 but never reaches it from below, so the scattered layout is reached only in the limit. `Animation.ChaosSettles` gives convergence of progress, and `Animation.ParticleTransform` puts every coordinate and the scale at (1 - progress) times their full distance from the scattered values.

- `Gesture.PinchScenario` shows that the raw distances 0.05, 0.05, 0.30, 0.30, 0.05 from the initial state never switch to chaos. The largest smoothed value reached is 0.16311, inside the dead zone. Holding any pinch wider than 0.25 eventually latches chaos and keeps it, as `Gesture.HeldPinchSettles` shows.
