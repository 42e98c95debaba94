# Prize wheel engine, modelled in Dafny

`script.js` drives a prize wheel. Pressing the spin button, or flicking the
wheel with the mouse or a finger, sets it turning. An animation loop then
advances the rotation once per frame and slows it with multiplicative
friction. When a spin has slowed enough, `finishSpin` stops the wheel and
announces the prize under a fixed pointer at 12 o'clock. An admin panel adds
and deletes prizes. Its guards keep a list that starts with 2 to 20 entries
within those bounds; a list loaded from storage is taken whatever its
length.

The model has these files:

- `js_math.dfy` (`JsMath`): the JavaScript number operations the engine
  relies on. These are `Math.abs` and `Math.sign`, plus the `%` operator as a
  truncated remainder, which keeps the sign of the dividend.
- `resolution.dfy` (`Resolution`): winner resolution as pure functions.
  - The pointer angle is computed exactly as the source writes it.
  - It is proved equal to the floored reduction of `270 - rotation`.
  - The slice index is proved in range, unique (slices are half-open) and
    unchanged by whole turns in either direction.
- `wheel.dfy` (`Wheel`): the engine's global variables as a `State` value,
  with one function per handler: `startSpin`, one `updateLoop` tick,
  `finishSpin`, and the three drag handlers.
  - Lemmas about several events: a stopped wheel stays stopped, and a spin
    decays geometrically.
  - Every spin of speed at most 50 comes to rest and announces its winner
    within a bounded number of ticks.
  - A drag turns the wheel by half the pointer's travel.
- `prize_text.dfy` (`PrizeText`): `trim()` and `toUpperCase()` as applied to
  a typed prize label.
- `prize_list.dfy` (`PrizeList`): the delete (`splice`) and add (`push`)
  handlers, their guards, the bounds they keep, and the list loaded at
  start-up.
- `engine.dfy` (`WheelEngine`): a class `Engine` whose fields are the
  script's global variables. Its methods are the event handlers, written
  statement by statement as the source does them. Each method is proved to
  leave the fields in the state that the matching `Wheel` or `PrizeList`
  function computes.
- `wrappers.dfy` (`Wrappers`): an `Option` type.

Time and randomness come in as parameters:

- the `requestAnimationFrame` timestamp;
- `Date.now()`;
- the pointer's `clientY`;
- `Math.random()`, which is a parameter `u` in `[0, 1)`.

Angles and speeds are `real`s.

Where the code and its own comments disagree, or where the code leaves out a
check one might expect, the model follows the code:

- The spin impulse is `30 + 20u`, in `[30, 50)`. The comment at
  script.js:150 says 20 to 40.
- `startSpin` does not check `isDragging`.
- The prize handlers do not check `isSpinning`.
- The winner index is not clamped. The model shows no clamp is needed over
  the reals.
- A slow drag release leaves `isSpinning` as it was; the release only ever
  sets the flag.
- A refused add changes nothing and reports nothing. A refused delete shows
  an alert, modelled as a `false` result. Neither raises a typed error.
- There is no timed-spin mode.

## Model

| member | source | states |
|---|---|---|
| JsMath.Abs | script.js:121 | `Math.abs`: non-negative and equal to `x` or `-x` |
| JsMath.Sign | script.js:257 | `Math.sign`: 1, -1 or 0 according to the sign of `x` |
| JsMath.Trunc | script.js:171 | the quotient of JavaScript's `%` rounds toward zero: bounds for both signs |
| JsMath.JsRem360 | script.js:171 | JavaScript `x % 360`: the result has the sign of `x`, its magnitude is below 360, and it differs from `x` by a whole number of turns |
| Resolution.Normalize | script.js:195 | reference definition of the angle reduced into `[0, 360)`; it is the identity on `[0, 360)` |
| Resolution.NormalizeUnique | script.js:195 | the only angle in `[0, 360)` that differs from `y` by whole turns is the normalized one |
| Resolution.NormalizePeriodic | script.js:195 | whole turns do not change the normalized angle |
| Resolution.PointerAngle | script.js:171-195 | the pointer angle computed with three truncated remainders always lies in `[0, 360)`, also for negative rotations |
| Resolution.PointerAngleIsReduced | script.js:171-195 | the pointer angle equals `270 - rotation` reduced (floored) modulo 360 |
| Resolution.PointerAngleWrap | script.js:171-195 | adding any whole number of turns, positive or negative, leaves the pointer angle unchanged |
| Resolution.Arc | script.js:186 | `arcDeg` is positive and `n` arcs make a full turn |
| Resolution.DivideByArc | script.js:186-198 | dividing an angle by `arcDeg` is scaling it by `n / 360` |
| Resolution.SliceAt | script.js:198 | `Math.floor(angle / arcDeg)` is an index below `n`, and its slice contains the angle |
| Resolution.SliceUnique | script.js:198 | half-open slices: any index whose slice contains the angle is the one found, so an angle on a border belongs to the later slice |
| Resolution.WinnerIndex | script.js:185-199 | for `n >= 1` the winner index lies in `[0, n)` (so `prizes[index]` is defined), and its slice contains the pointer angle |
| Resolution.WinnerIndexWrap | script.js:171-199 | the winner index is invariant under whole turns, including negative rotations |
| Resolution.FourPrizeExamples | script.js:185-198 | with four prizes: rotation 0 gives index 3, 90 gives 2, 450 gives 2, and -90 gives 0 |
| Wheel.Winner | script.js:185-199 | the announced prize exists exactly when the list is non-empty, and it is an entry whose slice lies under the pointer |
| Wheel.FinishSpin | script.js:159-199 | afterwards the wheel is stopped (not spinning, velocity 0), the winner is the prize under the pointer, and the rotation and everything else are unchanged |
| Wheel.StartSpin | script.js:142-157 | ignored while spinning; otherwise the wheel spins with velocity in `[30, 50)` and nothing else changes |
| Wheel.ImpulseCoversRange | script.js:151 | every velocity in `[30, 50)` is the impulse for some random draw |
| Wheel.Initial | script.js:20-26 | at start-up the wheel is at rotation 0, at rest, not spinning, not dragged, with no frame time recorded and nothing announced |
| Wheel.Elapsed | script.js:117-119 | the time since the previous frame; 0 on the first frame, when no frame time is recorded |
| Wheel.Advance | script.js:121-126 | the wheel turns by the velocity over the elapsed time in 16 ms frames; the velocity is multiplied by the friction 0.99, which slows the wheel without reversing its direction; only the frame time, rotation and velocity change |
| Wheel.Tick | script.js:116-135 | one frame sets the frame time. Speed never grows. An idle slow wheel is left alone. An idle wheel never starts spinning. Otherwise the velocity is multiplied by 0.99, and a spin that drops below 0.1 ends stopped with its winner announced. The announced winner changes only when a spin ends |
| Wheel.TickRotation | script.js:117-123 | a moving wheel turns by `velocity * deltaTime / 16`; the first tick has `deltaTime == 0` and does not turn it; an idle slow wheel does not turn |
| Wheel.DragStart | script.js:215-224 | ignored while spinning; otherwise a drag begins at `clientY` and the velocity is reset to 0 |
| Wheel.DragMove | script.js:226-249 | ignored unless dragging. Otherwise the wheel turns by `deltaY * 0.5`. When `dt > 0`, the velocity times `dt/16` equals that turn; otherwise the velocity is unchanged |
| Wheel.ClampRelease | script.js:257 | the release speed is at most 50, keeps its sign, is unchanged when already at most 50, and is exactly 50 otherwise |
| Wheel.DragEnd | script.js:251-262 | ignored unless dragging. Otherwise the drag ends and the velocity is clamped. The wheel spins exactly when it already did or the clamped speed exceeds 2 |
| Wheel.FrictionDecays | script.js:126 | after `k` ticks the friction factor lies in `(0, 1]` and is at most `1/(1 + k/99)` |
| Wheel.StoppedStays | script.js:121-135 | any number of ticks leaves a stopped wheel stopped, with the same rotation and winner |
| Wheel.IdleStaysIdle | script.js:121-135 | ticks never start a spin |
| Wheel.SpinEndsStopped | script.js:132-133 | a spin that has ended has stopped the wheel and announced the prize under the pointer |
| Wheel.DecayedScales | script.js:126 | `k` frictions scale the velocity by `0.99^k` |
| Wheel.SpinDecays | script.js:121-134 | while a spin lasts, its velocity is the starting velocity decayed once per tick |
| Wheel.SpinStaysFast | script.js:132-134 | a spin still going after a tick is at or above speed 0.1 |
| Wheel.TickKeepsSpinning | script.js:126-134 | a spin that survives a tick has lost exactly the friction factor |
| Wheel.SlowDecay | script.js:126-132 | any speed up to 50 decays below 0.1 within 49500 ticks |
| Wheel.SpinResolves | script.js:116-199 | every spin of speed at most 50 ends stopped, with its winner announced, within 49500 ticks |
| Wheel.ButtonSpinResolves | script.js:142-157 | a spin started with the button always resolves |
| Wheel.FlickResolves | script.js:251-264 | a drag released fast enough to spin always resolves |
| Wheel.DragTelescopes | script.js:226-249 | a run of moves turns the wheel by half the total vertical travel, however the moves are spaced in time |
| Wheel.DragTracksPointer | script.js:215-249 | from the press to the last move the wheel has turned by half the pointer's travel |
| Wheel.DefaultWinnerAtRest | script.js:185-199 | with prizes A-D, rotation 0 announces D and rotation 450 announces C |
| PrizeText.TrimStart | script.js:321 | leading whitespace removed: a suffix that starts with non-whitespace, with only whitespace before it |
| PrizeText.TrimEnd | script.js:321 | trailing whitespace removed: a prefix that ends with non-whitespace, with only whitespace after it |
| PrizeText.Trim | script.js:321-322 | `trim()` keeps a contiguous piece of the value, starting after its leading whitespace; what it cuts off on either side is all whitespace; neither end of the result is whitespace; the result is empty exactly when the value is all whitespace |
| PrizeText.TrimIdempotent | script.js:321 | trimming twice is trimming once |
| PrizeText.UpperChar | script.js:321 | ASCII lower-case letters become upper case; other characters are unchanged; the result is never lower case |
| PrizeText.ToUpper | script.js:321 | the length is kept and every character is upper-cased on its own |
| PrizeText.Label | script.js:321-322 | a label is the trimmed value with each character upper-cased; it has no lower-case ASCII letter and no whitespace at either end, and is empty exactly when the typed value is blank |
| PrizeList.RemoveAt | script.js:288 | `splice(idx, 1)`: one entry fewer, the others in order, the multiset less the removed entry; an index past the end removes nothing |
| PrizeList.DeleteAllowed | script.js:287 | a delete is allowed exactly when removing an entry still leaves at least 2 prizes |
| PrizeList.Delete | script.js:285-295 | deletes only when the list holds more than 2 prizes; otherwise the list is unchanged |
| PrizeList.AddAllowed | script.js:321-322 | a blank value is always refused; any other value is accepted exactly when the list holds fewer than 20 prizes |
| PrizeList.Add | script.js:320-329 | appends the label only when it is non-empty and the list holds fewer than 20; earlier entries are unchanged |
| PrizeList.DeleteKeepsBounds | script.js:287-288 | a delete keeps a list of 2 to 20 prizes within those bounds; it shrinks by one exactly when allowed and the index is in range |
| PrizeList.AddKeepsBounds | script.js:322-323 | an add keeps a list of 2 to 20 prizes within those bounds; it grows by one exactly when allowed |
| PrizeList.EdgesRefuse | script.js:287-323 | a list of 2 refuses a delete and a list of 20 refuses an add |
| PrizeList.AddThenDeleteLast | script.js:285-329 | deleting the entry just added restores the list |
| PrizeList.Load | script.js:53-71 | a stored list is used as it is, whatever its length; with nothing stored, the default list is used, and it is within bounds |
| WheelEngine.Engine.constructor | script.js:20-26 | the fields start at their initial values with the loaded prize list |
| WheelEngine.Engine.UpdateLoop | script.js:116-140 | the fields become `Wheel.Tick` of the old state; the next frame is requested exactly when not dragging |
| WheelEngine.Engine.StartSpin | script.js:142-157 | the fields become `Wheel.StartSpin` of the old state |
| WheelEngine.Engine.FinishSpin | script.js:159-199 | the fields become `Wheel.FinishSpin` of the old state |
| WheelEngine.Engine.DragStart | script.js:215-224 | the fields become `Wheel.DragStart` of the old state |
| WheelEngine.Engine.DragMove | script.js:226-249 | the fields become `Wheel.DragMove` of the old state |
| WheelEngine.Engine.DragEnd | script.js:251-269 | the fields become `Wheel.DragEnd` of the old state; the loop is re-armed exactly when a drag was in progress |
| WheelEngine.Engine.DeletePrize | script.js:285-295 | the list becomes `PrizeList.Delete` of the old list. The result says whether the guard passed. Bounds of 2 to 20 are kept, and no other field changes |
| WheelEngine.Engine.AddPrize | script.js:320-329 | the list becomes `PrizeList.Add` of the old list. The result says whether the label was added. Bounds of 2 to 20 are kept, and no other field changes |

## Left out

- Canvas drawing (`drawWheel`), the CSS transform, cursor and transition
  writes, and the button's `disabled` flag are presentation only.
- Audio playback is a fire-and-forget foreign call.
- `localStorage` and `JSON.parse`: the stored list is a parameter of the
  constructor. `savePrizes` is not modelled.
- The admin panel, the prize list's rendering, the result modal and the
  claim button are DOM wiring only. The claim button only hides the modal.
  Clearing the input box after an add is also left out.
- `requestAnimationFrame` is host scheduling. It is modelled only as a
  boolean result saying whether the loop asks for another frame. Two loops
  running at once (a drag release that re-arms a loop still running) are not
  modelled.
- IEEE-754 rounding: the model uses exact reals. In floating point the
  unclamped `Math.floor(pointerAngle / arcDeg)` could in principle reach `n`;
  over the reals it cannot.
- With an empty prize list the source divides by zero, the winner is
  `undefined` and the result text is empty; the model announces `None`.
- `!lastFrameTime` is also true for `NaN`. The model treats only `0` as "no
  previous frame".
- The touch or mouse event object is left out; only its `clientY` is passed
  in.
- PrizeText.UpperChar: models `toUpperCase` for the ASCII letters only. Full
  Unicode case mapping (which can also change a string's length) needs
  tables outside this model.
- PrizeText.ToUpper: inherits the ASCII-only case mapping of `UpperChar`.
- Wheel.SpinResolves: the bound of 49500 ticks is a loose one that is easy
  to prove, not the exact number of frames a spin lasts.
