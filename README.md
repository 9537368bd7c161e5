# Falling-body simulator: a verified Dafny model

This project models the physics engine of a small browser game in which a
falling object is simulated under one of several "worlds" (Earth with and
without air, the Moon, water, Jupiter, a custom world). The engine lives in
`game.js`, with a near-duplicate in `CodigoED.js`. The model covers:

- the world tables (`WORLD_SETTINGS`) and the lookup of a world's drag
  regime, `WORLD_SETTINGS[selectedWorld]?.modelo || 'lineal'`;
- `getAcceleration`: gravity minus a drag term that is linear in `v`, or in
  `v·|v|`, or absent, depending on the regime tag;
- `rungeKutta4`: one classical fourth-order Runge-Kutta step of the velocity,
  followed by the height and clock update;
- `eulerStep`, the closed-form solutions `v_t_lineal` and `v_t_cuadratico`,
  and `calculateTerminalVelocity`;
- the game state of `game.js` as a class: `handleShot`, the state update of
  `gameLoop` (airborne step with a sample every tenth step, landing with a
  final sample), and `generateComparativeData`, which builds the five chart
  series either from the recorded history or on a 0.1 s time grid;
- the 5% terminal-velocity guess check of the validation button.

Modules: `Wrappers` (Option), `Numerics` (`Math.abs`, and `exp`/`tanh`/`sqrt`
carried as a value whose `Valid()` lists the facts of real analysis the proofs
use), `Worlds` (a world record and the regime lookup), `Drag` (the physics
formulas both files share), `Validation` (the guess check), `Game` (game.js
state) and `CodigoED` (CodigoED.js state).

Reals stand in for JavaScript numbers; `Drag.Speed` has an `Infinite` case for
the `Infinity` that `calculateTerminalVelocity` returns without drag. The
canvas width, the transcendental functions and the externally defined
`TIME_STEP` of CodigoED.js are parameters. Velocity is positive downward and
`y` is the remaining height.

Where the code behaves in a way a reader might not expect, the model follows
the code:

- with `k <= 0` both closed forms return `g·t`, with no initial-velocity term;
- `getAcceleration` with a tag outside its two lists (such as `'galileo'`)
  returns bare `g`; only a missing or unknown *world* falls back to `'lineal'`;
- at landing, the final sample is appended only when the history is already
  non-empty and its last time differs from the current time;
- `calculateTerminalVelocity` has a fourth branch returning 0, which no world
  in either table reaches, since every table tag is one of the three handled;
- in the synthesized series, the Euler entry at label `j·0.1` is the Euler
  iterate for time `(j+1)·0.1`, because the step is taken before the push.

## Model

| member | source | states |
|---|---|---|
| Numerics.Abs | game.js:102 | `Math.abs` is non-negative and is x or −x |
| Worlds.ModeloOf | game.js:94 | the looked-up tag is never empty; no selected world or an unknown world gives `'lineal'`; a known world with a non-empty tag gives that tag |
| Game.Modelo | game.js:66-73 | with the game.js table the tag is one of `'lineal'`, `'galileo'`, `'cuadratico'`; a missing or unknown world gives `'lineal'`; a known world gives its table tag |
| Drag.Acceleration | game.js:90-105 | without drag (k = 0, or a tag outside both lists) or at rest the acceleration is g; with k ≥ 0 drag opposes motion: a ≤ g when falling and a ≥ g when rising |
| Drag.Rk4Velocity | game.js:107-116 | without drag one RK4 step is exactly v + g·dt; at a velocity where the acceleration vanishes the step leaves v unchanged |
| Drag.LinearEquilibrium | game.js:98-99 | under linear drag with k > 0 the acceleration is zero exactly at v = mg/k (both directions) |
| Drag.QuadraticEquilibrium | game.js:100-101 | under quadratic drag with k > 0 and g ≥ 0 the acceleration is zero exactly at v = sqrt(mg/k) (both directions) |
| Drag.EulerStep | game.js:124-126 | `eulerStep`, one first-order step v + (g − (k/m)v)·dt; no contract of its own, its properties are `Drag.EulerStepFollowsAcceleration` |
| Drag.EulerIterate | game.js:410-417 | `eulerStep` applied n times from v, as the grid loop does; no contract of its own, its properties are `Drag.EulerIterateWithoutDrag` and `Drag.EulerIterateAtTerminal` |
| Drag.EulerStepFollowsAcceleration | game.js:124-126 | `eulerStep` is v plus the linear-regime acceleration times dt; for k > 0 and dt ≠ 0 its only fixed point is mg/k |
| Drag.EulerIterateWithoutDrag | game.js:410-417 | without drag, n Euler steps give exactly v + n·g·dt |
| Drag.EulerIterateAtTerminal | game.js:410-417 | started at mg/k, every Euler iterate stays at mg/k |
| Drag.VtLineal | game.js:128-132 | `v_t_lineal` (also CodigoED.js:74-78): g·t for k ≤ 0, else (mg/k)(1 − exp(−(k/m)t)); no contract of its own, its properties are `Drag.AnalyticAtRest`, `Drag.LinearBelowTerminal` and `Drag.AnalyticWithoutDrag` |
| Drag.VtCuadratico | game.js:134-138 | `v_t_cuadratico` (also CodigoED.js:83-87): g·t for k ≤ 0, else sqrt(mg/k)·tanh(sqrt(gk/m)·t); no contract of its own, its properties are `Drag.AnalyticAtRest`, `Drag.QuadraticBelowTerminal` and `Drag.AnalyticWithoutDrag` |
| Drag.TanhProfile | game.js:137 | the `Vt·tanh(rate·t)` expression of `v_t_cuadratico`; no contract of its own, bounded by `Drag.TanhProfileBounded` |
| Drag.TanhProfileBounded | game.js:137 | a profile vt·tanh(rate·t) with vt ≥ 0 never exceeds vt in magnitude |
| Drag.AnalyticAtRest | game.js:128-138 | with drag, both closed forms are 0 at t = 0 |
| Drag.LinearBelowTerminal | game.js:128-132 | with k > 0 and g > 0 the linear terminal velocity is mg/k and `v_t_lineal` stays strictly below it at every t |
| Drag.QuadraticBelowTerminal | game.js:134-138 | with k > 0 and g ≥ 0 the quadratic terminal velocity is sqrt(mg/k) and `v_t_cuadratico` never exceeds it in magnitude |
| Drag.AnalyticWithoutDrag | game.js:129 | with k ≤ 0 both closed forms are g·t |
| Drag.TerminalVelocity | game.js:144-158 | the result is `Infinity` exactly when k ≤ 0 or the tag is `'galileo'`; for k > 0 it is mg/k under `'lineal'`, sqrt(mg/k) under `'cuadratico'` and a finite 0 for any other tag; with g ≥ 0 a finite result is non-negative |
| Drag.TerminalVelocityIsEquilibrium | game.js:150-155 | for the linear and quadratic regimes with k > 0, v is the terminal velocity exactly when the acceleration at v is zero, and then an RK4 step leaves v unchanged |
| Validation.ValidateGuess | game.js:617-628 | a NaN guess, and only it, is answered "invalid"; against `Infinity` no guess is correct; for a positive reference, correct exactly when the error is below 5% of it; for a zero reference, correct exactly when the guess is below 0.05 in magnitude |
| Validation.NegativeReferenceAcceptsAnyGuess | game.js:628 | as written, every guess is correct against a negative reference value |
| Validation.ValidateGuessCorrected | game.js:628 | dividing by the reference's magnitude: correct exactly when the error is below 5% of the magnitude, for either sign; same verdict as written for positive references |
| Validation.CorrectedCheckIsRelative | game.js:628 | under the corrected check an exact guess is correct and a guess off by 5% or more is incorrect |
| Validation.ValidationExamples | game.js:622-628 | 19.6 against 19.6 is correct, 25 is incorrect, NaN is invalid, against `Infinity` incorrect; 1000 against −19.6 is correct as written and incorrect once corrected |
| Game.ExtendOnFreeFallLine | game.js:331-335 | appending a sample on the line v = v0 + g·t keeps the whole history on it |
| Game.FreeFallSeriesAgree | game.js:387-391 | series read from a history on the free-fall line equal the free-fall series |
| Game.ExtendHistory | game.js:331-335 | appending a sample later than all recorded ones keeps the history strictly chronological |
| Game.LastIsLatest | game.js:346 | in a chronological history bounded by t, if the last time differs from t then every sample time is below t |
| Game.GridCount | game.js:410 | the number of iterations of `while (time <= horizon)` with time = i·0.1; no contract of its own, characterized by `Game.GridCountExact` |
| Game.GridCountExact | game.js:410 | index i is on the grid exactly when i·0.1 ≤ horizon |
| Game.SampleCadence | game.js:331 | at step n the sampling test `floor(tiempo·100) % 10 == 0` holds exactly when n is a multiple of 10 |
| Game.GameState.constructor | game.js:576-579 | an accepted configuration, taken as the first one after page load: the object at the release height with the initial velocity, clock zero, not falling, empty history, regime tag looked up from the world |
| Game.GameState.RungeKutta4 | game.js:107-122 | the new velocity is one RK4 step of the old; the height drops by the new velocity times 0.01; the clock advances by 0.01; nothing else changes; without drag v = v0 + g·tiempo is kept |
| Game.GameState.HandleShot | game.js:307-324 | from rest on the game screen before an impact, the fall restarts (height y0, velocity v0, clock 0, empty history, falling, x at half the canvas width); otherwise nothing changes |
| Game.GameState.Fly | game.js:328-336 | one RK4 step, then the sample (tiempo, v) is appended exactly when the step count is a multiple of ten |
| Game.GameState.Land | game.js:337-348 | the object stops at height 0 and is marked as impacted; the final sample is appended exactly when the history is non-empty and its last time differs from the clock |
| Game.GameState.GameLoop | game.js:326-360 | at rest nothing changes; airborne above ground it is `Fly`, at or below ground it is `Land`; the history only grows; the state invariant is kept |
| Game.GameState.LaplaceEntry | game.js:393-397 | the Laplace entry: a Laplace point only when the tag is `'lineal'` and the world is TierraAire, otherwise `null`; used entry by entry in the contracts of `HistorySeries` and `GridSeries` |
| Game.GameState.Synthesized | game.js:423-429 | the simulated entry on the grid: `v_t_lineal` for the linear tags, `v_t_cuadratico` for the quadratic tags, otherwise g·t + v0; used entry by entry in the contract of `GridSeries` |
| Game.GameState.EulerEntry | game.js:415-420 | the Euler entry at grid index i: under `'lineal'` the Euler iterate i + 1 steps of 0.1 s from v0, otherwise `null`; used entry by entry in the contract of `GridSeries` |
| Game.GameState.HistorySeries | game.js:387-401 | one entry per recorded sample: label its time, simulated its velocity, free fall g·t + v0, Laplace only for the TierraAire linear case, no Euler value |
| Game.GameState.GridSeries | game.js:404-440 | one entry per grid time i·0.1 up to the horizon: the closed form of the regime, free fall g·t + v0, the (i+1)-th Euler iterate under `'lineal'` |
| Game.GameState.GenerateComparativeData | game.js:366-443 | all series have equal length; the terminal velocity of the regime; history-based series when there is a history (and then, without drag, simulated equals free fall), else grid series up to 1.5·totalTime |
| CodigoED.Modelo | CodigoED.js:6-13 | with the CodigoED.js table the tag is one of the three regime tags; a missing or unknown world gives `'lineal'`; a known world gives its table tag |
| CodigoED.SameRegimesAsGame | CodigoED.js:6-13 | both tables know the same worlds and give every world the same regime tag |
| CodigoED.AccelerationByWorld | CodigoED.js:31-47 | the acceleration is linear-drag for no world, an unknown world, TierraAire, Agua and Personalizado; quadratic for Jupiter; bare g for TierraSinAire and Luna |
| CodigoED.TierraAireTerminalVelocity | CodigoED.js:100-101 | TierraAire (g = 9.8, k = 0.05) with a 0.1 kg object has terminal velocity 19.6 |
| CodigoED.JupiterTerminalVelocity | CodigoED.js:102-103 | Jupiter (g = 24.79, k = 0.1) with a 0.1 kg object has a finite, non-negative terminal velocity whose square is 24.79 |
| CodigoED.GameState.constructor | CodigoED.js:17-26 | the literal initial state: menu screen, no world, g = 9.8, k = 0, 0.1 kg, y0 = 100, v0 = 0, object all zeros and not falling |
| CodigoED.GameState.Configured | CodigoED.js:17-26 | a state with a given configuration and the object record as the literal gives it |
| CodigoED.GameState.RungeKutta4 | CodigoED.js:52-69 | the new velocity is one RK4 step under the selected world's regime; the height drops by the new velocity times the step; the clock advances by the step; x and the falling flag are unchanged; with k = 0 the new velocity is v + g·step |

## Left out

- Rendering (`drawGame`, `worldToCanvasY`, sprites, canvas constants): presentation only.
- `changeScreen`, `updateDataDisplay`, the menu and back-button handlers, `alert`, `requestAnimationFrame`: UI wiring. The screen and world are fixed per `GameState` object.
- The configuration handler's `parseFloat` parsing, the `masa/1000` conversion and its positivity check: the `Game.GameState` constructor takes the accepted values and requires `masa > 0`, which that check guarantees.
- Game.GameState.constructor: each accepted configuration starts with an empty history and x = 0, and `Valid()` bounds every sample time by the clock. The configuration handler (game.js:576-579) resets only y, v, tiempo and impactado and keeps the previous fall's `simulationHistory` and `x` until the next shot (game.js:314, 319). The model does not capture charting an old fall's samples against a new configuration before shooting again.
- `renderVelocityChart`: configuration of an external charting library.
- `toFixed` formatting: labels carry the times they are printed from, and messages are reduced to a three-valued verdict.
- IEEE-754 rounding, NaN and Infinity propagation: reals are used. The sampling test then reduces to "step count is a multiple of 10", and the grid time `i·0.1` is exact.
- `exp`, `tanh` and `sqrt`: uninterpreted, with only the facts listed in `Numerics.Transcendentals.Valid`.
- Game.GameState.GenerateComparativeData: the Laplace series holds `LaplaceAt(t)` markers instead of values of `v_t_laplace`, whose magic constants only feed the chart.
- Convergence to the terminal velocity and monotonicity of v(t): these need real analysis, and the code does not claim them.

## Findings

| source | as written | input that shows it | evidently intended | confidence | as-written member | corrected member |
|---|---|---|---|---|---|---|
| game.js:628 | the error is divided by `vtAnalitica` itself, so a negative reference makes the quotient non-positive and always below 0.05 | Personalizado world with g = −9.8, k = 0.05, mass 100 g: the linear terminal velocity is −19.6, and a guess of 1000 is reported correct | divide by the magnitude of the reference, giving a 5% relative tolerance for either sign | low, not executed | Validation.NegativeReferenceAcceptsAnyGuess | Validation.ValidateGuessCorrected |
