# Neuron motion model

This project models the `Neuron` class of the *brain* background animation (`neuron.js`). A neuron is a dot anchored at an origin. On each update it moves by a fixed velocity, and it reverses that velocity whenever it has strayed farther than `maxDist` from the origin. `draw` fills the dot in a normal or a highlighted colour. It then advances the neuron when the neuron is hovered, and otherwise on frames where a random roll rounds to an even number.

Layout:

- `neuron.dfy`, module `Brain`: the data model, the construction rules, the pure motion step `Step` with its properties, the draw decision, and the class `Neuron`. The class has the source's nine fields. `State()` gives its motion state, and `Valid()` is its object invariant: the construction bounds plus bounded drift. `UpdatePosition` ensures `State() == Step(old(State()))`. `Draw` ensures that the new state is `Step(old(State()))` when `UpdatesOnDraw(isHover, roll)` holds, and `old(State())` otherwise.
- `geometry.dfy`, module `Geometry`: plane geometry over the reals without square roots. It holds squared lengths, comparison through squares, the Cauchy–Schwarz inequality and the triangle inequality.

Inputs the source reads from its environment are parameters:

- Each `Math.random()` result is a `roll` in [0, 1). The constructor takes four, in the order the source draws them: radius, `vx`, `vy`, `maxDist`.
- `canvas.height` is `height`, with `height >= 0`.
- `canvasHeightFactor()` is `scale`, which can be any real.
- The colour argument is a `Color` value. `NoColor` stands for the default `null`.

`Math.hypot(dx, dy) > maxDist` is modelled as `dx*dx + dy*dy > maxDist*maxDist`. `OutsideIffHypotExceeds` proves the two agree whenever `maxDist >= 0`. A real distance `d` enters a statement through the witness predicate `IsHypot(d, dx, dy)`, meaning `d >= 0 && d*d == dx*dx + dy*dy`.

Notes on the code's behaviour:

- **Radius interval.** The radius is `1 + roll·0.4·floor(h/100)`. It is exactly 1 when `canvas.height < 100`, because floor(h/100) is then 0. `InitialRadius` states the closed upper bound, plus strictness when floor(h/100) > 0.
- **Update frequency.** The rolls on which an unhovered neuron skips its update form five bands of width 0.1 (`InSkipBand`, `SkipBands`). Over the reals an unhovered neuron therefore skips exactly half the rolls in [0, 1).
- **Timing of the reversal.** The velocity is negated in the same `updatePosition` call whose step crosses `maxDist`, not in the call after it.

## Model

| member | source | states |
|---|---|---|
| `Brain.Neuron.constructor` | neuron.js:6-20 | The position equals the origin, which is the given anchor. `customColor` is the argument. Radius, velocity and `maxDist` are the construction rules applied to the four rolls. The object invariant holds from the start. |
| `Brain.HeightSteps` | neuron.js:12 | `Math.floor(canvas.height / 100)` is the integer n with 100·n ≤ height < 100·(n+1), and it is non-negative for a non-negative height. |
| `Brain.InitialRadius` | neuron.js:12 | For a roll in [0,1) and height ≥ 0, the radius lies in [1, 1 + 0.4·floor(h/100)]. It is strictly below the upper end when floor(h/100) > 0. It equals 1 exactly when the roll is 0 or floor(h/100) = 0. |
| `Brain.InitialVelocity` | neuron.js:15-16 | A velocity component `(roll - 0.5)·0.3·scale` is zero exactly when the roll is 0.5 or the scale is 0. |
| `Brain.InitialVelocityBounds` | neuron.js:14-16 | Each velocity component has absolute value at most 0.15·abs(scale). For scale ≥ 0 it lies in [-0.15·scale, 0.15·scale]. It is zero exactly when the roll is 0.5 or the scale is 0. |
| `Brain.InitialVelocityBelowBound` | neuron.js:15-16 | For a positive scale, a velocity component never reaches 0.15·scale, so the interval is half-open. |
| `Brain.InitialMaxDist` | neuron.js:17-18 | For a roll in [0,1), `maxDist` lies in [5, 12). |
| `Brain.Outside` | neuron.js:29-31 | A neuron sitting at its origin is never outside, whatever `maxDist` is. |
| `Brain.OutsideIffHypotExceeds` | neuron.js:29-31 | The squared-distance test says the position is outside exactly when `Math.hypot(x - originX, y - originY) > maxDist`, for `maxDist ≥ 0`. |
| `Brain.Step` | neuron.js:25-35 | One update moves the position by exactly the old velocity. It negates both velocity components when the new position lies outside `maxDist`, and leaves them unchanged otherwise. It preserves abs(vx), abs(vy) and the speed. It always moves a neuron whose velocity is non-zero. It never changes the origin or `maxDist`. It preserves bounded drift (within `maxDist`, or one step from being within it). |
| `Brain.Steps` | neuron.js:25-35 | Any number of consecutive updates keep the origin, `maxDist` and the speed, and preserve bounded drift. |
| `Brain.ReversalReturns` | neuron.js:29-34 | After an update that reverses the velocity, the next update brings the neuron back to where it was before, with the reversed velocity kept. |
| `Brain.DistanceWithinOneStep` | neuron.js:25-35 | Under bounded drift, the distance from the origin is at most `maxDist` plus the length of one velocity step. |
| `Brain.DriftBoundFromOrigin` | neuron.js:7-34 | Starting at the origin, as after construction, after any number of updates the distance from the origin is at most `maxDist` plus the step length. |
| `Brain.JsRound` | neuron.js:51 | `Math.round(v)` is the integer k with k - 0.5 ≤ v < k + 0.5, so halves round up. |
| `Brain.SkipBands` | neuron.js:51 | For a roll in [0,1), `Math.round(roll*10)` lies in 0..10. It is odd exactly when the roll falls in one of the five bands [0.05,0.15), [0.25,0.35), [0.45,0.55), [0.65,0.75) or [0.85,0.95). |
| `Brain.UpdatesOnDraw` | neuron.js:51 | `draw` updates a hovered neuron always. For a roll in [0,1), it updates an unhovered neuron exactly when the roll lies outside the five skip bands. |
| `Brain.Neuron.UpdatePosition` | neuron.js:25-35 | The new motion state is `Step` of the old one. Radius and colour are unchanged, and the object invariant is preserved. |
| `Brain.Neuron.Draw` | neuron.js:41-55 | The dot is drawn at the position before the update, with the neuron's radius. Its fill uses the highlight resolver exactly when hovered, and the normal one otherwise, always applied to `customColor`. The state advances by exactly one `Step` when hovered or when the roll rounds to an even number, and is unchanged otherwise. A hovered neuron with non-zero velocity always moves. Radius and colour are unchanged, and the object invariant is preserved. |

## Left out

- Canvas drawing (`ctx.beginPath`, `ctx.arc`, the `fillStyle` assignment and `ctx.fill`). These are side effects on an external surface. `Draw` returns the circle and the fill style it would use as a `Dot` value instead.
- `colorToRgba`, `colorToRgbaHighlight` and `canvasHeightFactor`. They are defined outside `neuron.js`, and this model does not include them. A fill style records only which resolver is applied to which descriptor. The scaling factor is the real parameter `scale`.
- `Math.random`. Each random number is an injected roll in [0, 1). Frequencies over many frames are not modelled; `SkipBands` gives the exact set of skipping rolls instead.
- IEEE double rounding. `Math.hypot`, `+=` and `*= -1` are modelled over exact reals. The exact-reversal and bounded-drift results hold for reals, not necessarily bit for bit for JavaScript doubles.
- The commented-out `if (this.customColor)` in `draw`. It has no effect: the normal colour is always resolved from `customColor`, whatever it holds.
- Default arguments. `color = null` and `isHover = false` become explicit arguments, with `NoColor` for `null`.
- The parity test `% 2 == 0`. Dafny's Euclidean remainder is used. It agrees with JavaScript's truncating `%` on whether a remainder is zero, for every integer.
- The `requires Valid()` of `UpdatePosition` and `Draw`. The source states no precondition. In the model every neuron comes from the constructor, which establishes `Valid()`, and both methods preserve it.
