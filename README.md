# Cart-on-a-track simulator: physics core and force/position log

This project models the non-drawing core of a browser demonstration. The user
pushes a cart along a one-dimensional track with the mouse pointer. Each
animation frame the simulator does three things. It computes a push force
from where the pointer sits in the cart's box. It advances the cart by one
semi-implicit Euler step. It records the cart's position and the push,
signed by the direction of travel, in a "histogram" that is plotted as a
force/position curve. The histogram grows only by appending; its run
compression rewrites the position of the last sample in place.

Modules, one per component of `main.js`:

- `SampleLog` (`sample_log.dfy`) is the histogram. `Updated` is the update
  rule as a function on the sample sequence. `Histogram` is a class whose
  `Update` method changes its `samples` field in place, like the global array
  of the source. Values are `JsNumber`, either a finite number or NaN, and are
  compared with JavaScript `==`, so a NaN value is never equal to anything.
- `PushForce` (`push_force.dfy`) is the hit-box rule, `Push`, a pure piecewise
  function of the pointer and the cart geometry.
- `Integrator` (`integrator.dfy`) is the Euler step, `Advance`, on a `Motion`
  value, and the class `Cart`, whose `Step` updates its fields in place.
- `Physics` (`physics.dfy`) holds the source's constants and `Simulation`,
  which owns one cart and one histogram. Its `UpdatePhysics` performs one frame.

All quantities are mathematical `real`s. The clock and the pointer are
parameters: `timePassed` in milliseconds, and `mouseX`, `mouseY`.

Two facts about the code that the model makes explicit:

- Two consecutive samples can share a position. The overwrite at main.js:134
  can move the last position back onto the previous one
  (`ConsecutiveEqualPositions`). Only the last stored position is compared
  with the new one (main.js:128).
- The push formula never divides by zero. In each dividing branch, the strict
  in-box test makes the pointer's depth positive, and the zone test makes the
  zone width `cartWidth * ratio` exceed that depth, so both divisors are
  positive. `Push` carries that proof.

## Model

| member | source | states |
|---|---|---|
| `SampleLog.JsEquals` | main.js:133 | JavaScript `==` on logged values: equal values that are numbers compare equal, NaN compares equal to nothing, and nothing else compares equal |
| `SampleLog.Updated` | main.js:127-140 | the log never shrinks, grows by at most one sample, and all samples but the last are untouched |
| `SampleLog.UpdatedRepeatedPosition` | main.js:128 | a position equal to the last stored position leaves the log exactly unchanged |
| `SampleLog.UpdatedOffCanvas` | main.js:129 | a position below 0 or above the canvas width leaves the log exactly unchanged |
| `SampleLog.UpdatedChangesIff` | main.js:128-139 | the log changes if and only if the position is new and lies in [0, width], endpoints included; after a change the last position is the new one |
| `SampleLog.UpdatedCompresses` | main.js:131-136 | for an accepted update (a new position inside [0, width]) when the last two values both equal the new value, the length is unchanged, the last sample gets the new position and keeps its value, and every earlier sample is untouched |
| `SampleLog.UpdatedAppends` | main.js:139 | otherwise an accepted update appends exactly (x, y) to the old log |
| `SampleLog.UpdatedIdempotent` | main.js:128-139 | updating twice in a row with the same (x, y) gives the same log as updating once |
| `SampleLog.UpdatedKeepsNoTripleRun` | main.js:131-139 | every update preserves "no three consecutive samples have `==`-equal values" |
| `SampleLog.ReplayGrowth` | main.js:127-140 | over any n updates the log keeps its prefix, never shrinks and grows by at most n |
| `SampleLog.ReplayKeepsNoTripleRun` | main.js:131-139 | over any sequence of updates the log keeps "no three consecutive equal values" |
| `SampleLog.ReplayPlateau` | main.js:131-136 | while the value stays at one number that the last two samples already hold, the log's length and prefix stay fixed and only the last position moves |
| `SampleLog.ConsecutiveEqualPositions` | main.js:134 | [(1,5),(2,5)] updated with (1,5) becomes [(1,5),(1,5)]: two consecutive samples can share a position |
| `SampleLog.ThreeEqualValuesStoreTwo` | main.js:131-139 | after the seed (50,0), the updates (1,5), (2,5), (3,5) store only (1,5) and (3,5) |
| `SampleLog.NaNIsNeverCompressed` | main.js:133 | since NaN equals nothing, an accepted NaN value is always appended, never merged |
| `SampleLog.Histogram.constructor` | main.js:59 | the log starts as the single sample (seed position, 0) and satisfies its invariant |
| `SampleLog.Histogram.Update` | main.js:127-140 | the in-place update leaves `samples` equal to `Updated` of the old samples and keeps the invariant (non-empty, no triple run) |
| `PushForce.Push` | main.js:99-115 | the push is defined for every input, since both divisors are proved positive in the branches that divide; it is nonzero only when the pointer is strictly inside the cart's horizontal extent, and for a positive maximum it lies strictly between minus the maximum and the maximum; the zone lemmas below give its exact value |
| `PushForce.ScaledFraction` | main.js:108 | the source's `maxForce / (span / depth)` equals `maxForce * depth / span`, and for a positive `maxForce` it lies strictly between 0 and `maxForce` |
| `PushForce.PushZeroOutsideBox` | main.js:102-103 | a pointer not strictly inside the cart's horizontal extent and vertical band exerts push 0 |
| `PushForce.PushLeftZone` | main.js:106-109 | in the left zone the push is strictly between 0 and the maximum and linear in the depth from the left edge; this holds even where the right zone overlaps, so the left zone wins |
| `PushForce.PushRightZone` | main.js:111-113 | in the right zone, outside the left zone, the push is strictly between minus the maximum and 0 and linear in the depth from the right edge |
| `PushForce.PushMiddle` | main.js:99-115 | a pointer between the two zones exerts push 0 |
| `PushForce.ZonesDisjoint` | main.js:7-9 | with a ratio of at most one half, no pointer lies in both zones |
| `PushForce.PushAtCentre` | main.js:9 | with ratio 0.5, a pointer exactly at the cart's centre exerts push 0 |
| `PushForce.PushMirror` | main.js:106-113 | with a ratio of at most one half, mirroring the pointer about the cart's centre negates the push |
| `Integrator.Advance` | main.js:117-121 | Newton's second law: mass times the new acceleration equals the push; the lemmas below give the velocity and position updates |
| `Integrator.AdvanceNoPush` | main.js:117-121 | with push 0 the velocity is unchanged, the acceleration is 0 and the position advances by velocity times elapsed time |
| `Integrator.AdvanceNoTime` | main.js:119-121 | with no elapsed time, velocity and position are unchanged |
| `Integrator.AdvanceSemiImplicit` | main.js:119-121 | the velocity gains acceleration times the step; the displacement contains the acceleration-times-step-squared term, so it uses the updated velocity |
| `Integrator.DriveVelocity` | main.js:117-119 | under a constant push, the velocity after any sequence of frames is the old velocity plus push/mass times the total time, however the time is split |
| `Integrator.Coast` | main.js:117-121 | with no push, any sequence of frames keeps the velocity and moves the cart linearly in the total time |
| `Integrator.Cart.constructor` | main.js:47-57 | the cart starts at rest at the given position, with the given mass and size |
| `Integrator.Cart.Step` | main.js:117-121 | the in-place update leaves the cart's state equal to `Advance` of the old state |
| `Physics.FramePush` | main.js:92-115 | the push for the fixed cart geometry (box `width * CART_WIDTH` by `height * CART_HEIGHT` as set at main.js:47-48, track at `height / 2 + height / 5 * 4/5`) lies strictly between -25 N and 25 N, and is nonzero only over the cart |
| `Physics.EffectiveForce` | main.js:123 | the logged value is NaN exactly when the velocity is 0, the push when moving right, and minus the push when moving left |
| `Physics.FrameKeepsLogFinite` | main.js:117-139 | one frame keeps the cart at the last logged position (or off the canvas) and never stores NaN |
| `Physics.Simulation.constructor` | main.js:44-59 | a new session has the cart at rest at mid-canvas and a log holding (mid-canvas, 0) |
| `Physics.Simulation.UpdatePhysics` | main.js:90-124 | one frame advances the cart by the push computed at the old position and updates the log with the new position and the signed push; the session invariant, including "no NaN stored", is kept |
| `Physics.LeftPushScenario` | main.js:106-121 | a pointer 5 units inside a 20-unit cart pushes with 12.5 N; on 5 kg for one second this gives 2.5 m/s and 2.5 m of travel |
| `Physics.FirstIdleFrame` | main.js:90-124 | a first frame with the pointer away from the cart changes neither the cart nor the log |

## Left out

- Drawing (`draw`, `drawGraph`, `drawSimulator`, text, ticks, the pointer image, main.js:142-320): pixel output only, with no stated behaviour.
- Browser plumbing (`init`'s canvas lookup, `hiDefCanvas`, `requestAnimationFrame` and `mouseHandler`, main.js:39-43, 60-87, 322-326): foreign calls. The pointer position is a parameter of `UpdatePhysics`.
- The clock (`Date`, `lastUpdate`, main.js:95-97): I/O. The elapsed milliseconds are a parameter of `UpdatePhysics`.
- IEEE-754 behaviour: rounding, infinities and signed zero. Numbers are exact reals. NaN appears only as the histogram value `0/0` of main.js:123, and the model proves it is never stored.
- Global variables: `cart`, `histogram`, `width` and `height` are fields of `Simulation` rather than globals.
- The histogram's entries are objects in the source. Nothing but `updateHistogram` writes to them; `drawGraph` only reads them (main.js:156-157, 173, 204). They are modelled as values in a sequence, so aliasing is not represented.
