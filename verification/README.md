# Zodiac wheel and star field: a Dafny model

This project models the two stateful components of a decorative single-page
interface.

- **The rotary sign selector** (`src/components/ZodiacWheel.tsx`, module
  `ZodiacWheel`). A wheel of 12 sectors, one per sign. The click handler of
  sector `i` turns the wheel to `-30·i` degrees and reports `i` to `onSelect`.
  The sector buttons sit inside the wheel, so a real click first starts and
  ends a drag, which reports the sector the wheel was on; `onSelect` is then
  called twice (`ClickAsDelivered`). Pressing on
  the wheel starts a drag. While the drag lasts, window listeners add each
  pointer-angle change to the rotation. Releasing snaps the wheel to a multiple
  of 30 degrees and reports a sector. The model has three layers:
  - JavaScript's `%` (truncating) and `Math.round` (halves go toward +∞) over
    `real`, with the normalise, snap and index expressions built from them;
  - the drag state machine as a function `Step` from a `Wheel` state and one
    input event to the next state and the optional reported index, with `Run`
    over event sequences;
  - the class `WheelComponent`, whose handler methods update its fields in
    place. The event entry points (`HandleSignClick`, `OnMouseDown`,
    `OnTouchStart` and the `Window*` listeners) are each proved to perform
    `Step`. `HandleDragStart`, `HandleDragMove` and `HandleDragEnd` are
    proved to perform `DragStart`, `DragMove` and `ReleaseAsWritten`.

  The `useEffect` that installs the window listeners depends only on
  `[isDragging]`. Its handlers therefore keep the `rotation` of the render in
  which the drag began. The model keeps that value in the field
  `heldRotation`, and the release reads it (see Findings).
- **The star field** (`src/components/StarField.tsx`, module `StarField`).
  The class `Field` holds the canvas size and the star array.
  - `InitStars` replaces the array with `floor(w·h/4000)` new stars built from
    random draws.
  - `Advance` moves every star down by its speed, in place. A star more than 10
    pixels below the bottom wraps to `y = -10` with a fresh `x`.
  - `ConstellationLines` picks which consecutive pairs among the first 20 stars
    are joined, and with what alpha.
  - Twinkle opacities are derived values, given by `DrawnOpacity`.

External values are inputs to the model. `Math.random()` draws are a
caller-supplied sequence of reals in `[0,1)`, consumed in the order the code
calls it. `Math.sin` values are reals in `[-1,1]`. The `atan2` angle of a
pointer is a real; `getPointAngle` returns 0 when the wheel element is not
mounted. Canvas sizes are whole pixels. A distance `sqrt(dx²+dy²) < 200` is
stated as `dx²+dy² < 40000`, which is equivalent for reals.

## Model

| member | source | states |
|---|---|---|
| `ZodiacWheel.Trunc` | src/components/ZodiacWheel.tsx:53 | the truncated quotient lies within 1 of its argument, on the side of zero |
| `ZodiacWheel.JsRem360` | src/components/ZodiacWheel.tsx:53 | `a % 360` has the sign of `a`, magnitude below 360, and differs from `a` by whole turns |
| `ZodiacWheel.JsRem12` | src/components/ZodiacWheel.tsx:54-57 | `a % 12` on integers has the sign of `a`, magnitude below 12, and differs from `a` by a multiple of 12 |
| `ZodiacWheel.Round` | src/components/ZodiacWheel.tsx:54-55 | `Math.round(x)` is the unique integer in `(x-1/2, x+1/2]`, so ties round up |
| `ZodiacWheel.Normalize` | src/components/ZodiacWheel.tsx:53 | the normalised rotation lies in `[0,360)` and is the same wheel position as the raw rotation |
| `ZodiacWheel.Snap` | src/components/ZodiacWheel.tsx:55 | the snapped rotation is a multiple of 30 within `(r-15, r+15]` of the rotation `r` |
| `ZodiacWheel.NearestSector` | src/components/ZodiacWheel.tsx:54 | the nearest index of a normalised rotation is in `[0,12)` |
| `ZodiacWheel.ReleaseIndex` | src/components/ZodiacWheel.tsx:53-57 | the index passed to `onSelect` at drag end is always in `[0,12)` |
| `ZodiacWheel.SnapMatchesIndex` | src/components/ZodiacWheel.tsx:53-57 | the snapped rotation equals `-30·index` up to whole turns: the snap and the reported index name the same sector |
| `ZodiacWheel.ClickMatchesRelease` | src/components/ZodiacWheel.tsx:22-57 | a release that reads the rotation a click on sector `i` set reports `i` and leaves the rotation at `-30·i`, so clicks and drags agree |
| `ZodiacWheel.SnapExamples` | src/components/ZodiacWheel.tsx:53-55 | `-45` snaps to `-30` (ties go up); `372` snaps to `360` and reports sector 0 |
| `ZodiacWheel.QuarterTurnIndex` | src/components/ZodiacWheel.tsx:53-57 | a rotation of 90 stays at 90 and reports sector 9 |
| `ZodiacWheel.PointAngle` | src/components/ZodiacWheel.tsx:28-34 | the pointer angle is 0 when the element is not mounted, and stays in `(-180,180]` when `atan2` does |
| `ZodiacWheel.DragStart` | src/components/ZodiacWheel.tsx:36-39 | a press sets dragging and records the pointer angle, and changes nothing else |
| `ZodiacWheel.DragMove` | src/components/ZodiacWheel.tsx:41-47 | a move turns the wheel by exactly the change of pointer angle, stores the new angle and changes nothing else |
| `ZodiacWheel.Release` | src/components/ZodiacWheel.tsx:49-58 | ending a drag stops dragging and changes nothing but the rotation, which becomes a multiple of 30 within 15 of the rotation read; it reports an in-range index naming that sector |
| `ZodiacWheel.ReleaseAsWritten` | src/components/ZodiacWheel.tsx:49-83 | the release the window listeners run lands within 15 of the rotation captured when the drag began |
| `ZodiacWheel.ReleaseIntended` | src/components/ZodiacWheel.tsx:49-58 | a release reading the current rotation lands within 15 of it and reports that sector |
| `ZodiacWheel.Effect` | src/components/ZodiacWheel.tsx:60-83 | after the listener effect, listeners are attached exactly while dragging; it changes nothing when they already were |
| `ZodiacWheel.Step` | src/components/ZodiacWheel.tsx:22-95 | each event keeps listeners attached exactly while dragging; window events do nothing without listeners; touch starts and moves with other than one touch do nothing; a drag end reports an index in `[0,12)`; a click on `i` sets the rotation to `-30·i` and reports `i` |
| `ZodiacWheel.Run` | src/components/ZodiacWheel.tsx:60-83 | over any event sequence, listeners stay attached exactly while dragging, and at most one index is reported per event |
| `ZodiacWheel.MovesAccumulate` | src/components/ZodiacWheel.tsx:41-47 | after any run of moves, the rotation equals the start rotation plus the last angle minus the angle before the run; nothing is reported and nothing else changes |
| `ZodiacWheel.IdleIgnoresWindow` | src/components/ZodiacWheel.tsx:60-83 | once a drag has ended, any sequence of window moves and releases leaves the state unchanged and reports nothing |
| `ZodiacWheel.DragSessionAsWritten` | src/components/ZodiacWheel.tsx:36-83 | press, any moves and release leave the wheel at the snap of the rotation it had at the press, and report that rotation's sector, whatever the moves |
| `ZodiacWheel.IntendedSessionTracksPointer` | src/components/ZodiacWheel.tsx:36-58 | with the intended release, the same drag settles within 15 of the start rotation plus the pointer's turn, on the sector it reports |
| `ZodiacWheel.StaleReleaseExample` | src/components/ZodiacWheel.tsx:49-83 | press at 0, move to 90, release: as written the wheel returns to 0 and reports 0 |
| `ZodiacWheel.IntendedReleaseExample` | src/components/ZodiacWheel.tsx:49-58 | the same press and drag, released as intended, settles at 90 and reports 9 |
| `ZodiacWheel.ClickAsDelivered` | src/components/ZodiacWheel.tsx:22-124 | a click on sector `i` from an idle wheel, delivered as press, window mouse up and click, calls `onSelect` twice: first with the index of the rotation the wheel had, then with `i`; the wheel ends at `-30·i`, not dragging |
| `ZodiacWheel.MountedClickReportsTwice` | src/components/ZodiacWheel.tsx:22-124 | from the mounted wheel, a click on sector 3 reports 0 and then 3 |
| `ZodiacWheel.WheelComponent.constructor` | src/components/ZodiacWheel.tsx:17-20 | a mounted wheel is at rotation 0, not dragging, with no listeners and no selection |
| `ZodiacWheel.WheelComponent.SyncListeners` | src/components/ZodiacWheel.tsx:60-83 | removes the old listeners and adds new ones capturing the current rotation exactly when `isDragging` changed |
| `ZodiacWheel.WheelComponent.HandleSignClick` | src/components/ZodiacWheel.tsx:22-26 | sets the rotation to `-30·index` and calls `onSelect(index)` |
| `ZodiacWheel.WheelComponent.HandleDragStart` | src/components/ZodiacWheel.tsx:36-39 | sets dragging and records the pointer angle |
| `ZodiacWheel.WheelComponent.HandleDragMove` | src/components/ZodiacWheel.tsx:41-47 | adds the angle change to the rotation and records the new angle |
| `ZodiacWheel.WheelComponent.HandleDragEnd` | src/components/ZodiacWheel.tsx:49-58 | clears dragging, snaps the captured rotation and reports its index |
| `ZodiacWheel.WheelComponent.OnMouseDown` | src/components/ZodiacWheel.tsx:90 | a press on the wheel starts a drag and attaches the listeners |
| `ZodiacWheel.WheelComponent.OnTouchStart` | src/components/ZodiacWheel.tsx:91-95 | only a single-touch start begins a drag |
| `ZodiacWheel.WheelComponent.WindowMouseMove` | src/components/ZodiacWheel.tsx:61-71 | a window mouse move turns the wheel only while listeners are attached |
| `ZodiacWheel.WheelComponent.WindowTouchMove` | src/components/ZodiacWheel.tsx:63-73 | a window touch move turns the wheel only while listeners are attached and exactly one touch is present |
| `ZodiacWheel.WheelComponent.WindowMouseUp` | src/components/ZodiacWheel.tsx:62-72 | a window mouse up ends a drag in progress, removes the listeners and reports once |
| `ZodiacWheel.WheelComponent.WindowTouchEnd` | src/components/ZodiacWheel.tsx:68-74 | a window touch end ends a drag in progress whatever the touches left, and reports once |
| `StarField.StarCount` | src/components/StarField.tsx:32 | the star count is `floor(w·h/4000)`, and it is 0 unless both sides are positive |
| `StarField.StarCountExamples` | src/components/StarField.tsx:25-33 | 800×600 gives 120 stars and 1600×1200 gives 480, four times as many |
| `StarField.NewStar` | src/components/StarField.tsx:33-41 | a new star has `x∈[0,w)`, `y∈[0,h)`, `size∈[0.5,2.5)`, `opacity∈[0.2,1)`, `speed∈[0.005,0.025)`, `twinkleSpeed∈[0.01,0.03)` and `twinkleOffset∈[0,2π)` |
| `StarField.Spawn` | src/components/StarField.tsx:31-42 | initialisation yields exactly `floor(w·h/4000)` stars, all inside the canvas's drift band |
| `StarField.Drift` | src/components/StarField.tsx:118-122 | a star falls by its speed; once past `h+10` its `y` becomes `-10` and its `x` the draw times the width; size, opacity, speed and twinkle are kept |
| `StarField.WrapCount` | src/components/StarField.tsx:117-122 | a frame uses at most one random draw per star |
| `StarField.Frame` | src/components/StarField.tsx:117-124 | a frame keeps the number of stars |
| `StarField.FrameAt` | src/components/StarField.tsx:117-124 | star `k` after a frame is star `k` drifted, using the draw after those taken by earlier wrapping stars |
| `StarField.DriftEffect` | src/components/StarField.tsx:117-122 | one star's drift keeps every field but `x` and `y`; `y` advances by `speed` unless past `h+10`, when `y` becomes `-10` and `x` is redrawn in `[0,w)` |
| `StarField.FrameEffect` | src/components/StarField.tsx:117-122 | a frame keeps length and order and never changes size, opacity, speed, twinkle speed or offset; `y` advances by `speed` unless past `h+10`, when `y` becomes `-10` and `x` is redrawn in `[0,w)`; only then does `x` change |
| `StarField.FrameKeepsInView` | src/components/StarField.tsx:118-121 | with non-negative speeds, `0 ≤ x < w` and `-10 ≤ y ≤ h+10` hold after every frame |
| `StarField.Twinkle` | src/components/StarField.tsx:45 | the twinkle factor lies in `[0.4,1.0]` |
| `StarField.DrawnOpacity` | src/components/StarField.tsx:44-46 | for a non-negative base opacity (every star has one), the drawn opacity lies between 0.4 times and 1 times it |
| `StarField.Opacities` | src/components/StarField.tsx:117-124 | one drawn opacity per star of the frame |
| `StarField.OpacitiesAt` | src/components/StarField.tsx:117-124 | star `k` of a frame is drawn with its own twinkle, between 0.4 times and 1 times its base opacity |
| `StarField.PulseAlpha` | src/components/StarField.tsx:80-81 | a constellation line's alpha lies in `[0.03,0.05]` |
| `StarField.Lines` | src/components/StarField.tsx:74-87 | the pairs before `i` yield at most `i` lines |
| `StarField.LinesSound` | src/components/StarField.tsx:74-87 | the lines for the pairs before `i` number at most `i`, and each joins a pair before `i` that is among the first 20 and less than 200 pixels apart, with its pulse alpha |
| `StarField.LinesSorted` | src/components/StarField.tsx:74-87 | those lines come in increasing pair order, so no pair is joined twice |
| `StarField.LinesComplete` | src/components/StarField.tsx:74-87 | every such close pair before `i` has its line |
| `StarField.ConstellationLines` | src/components/StarField.tsx:69-88 | lines join only `(i,i+1)` with `i+1 < min(20,n)`, so there are at most 19; a pair is joined if and only if it is less than 200 pixels apart; lines come in index order, each with its pulse alpha |
| `StarField.Field.constructor` | src/components/StarField.tsx:129 | mounting sizes the canvas and creates its stars |
| `StarField.Field.Resize` | src/components/StarField.tsx:25-29 | a resize takes the new size and replaces the stars with a fresh array built only from new draws |
| `StarField.Field.InitStars` | src/components/StarField.tsx:31-42 | the star array is replaced by a fresh one of `floor(w·h/4000)` new stars |
| `StarField.DriftStar` | src/components/StarField.tsx:118-122 | one pass of the loop body moves the star as `Drift` says and takes a draw exactly when the star wraps |
| `StarField.Field.Advance` | src/components/StarField.tsx:117-124 | drifts every star in place as `Frame` says, uses one draw per wrap, keeps every star in the drift band and returns the drawn opacities of the moved stars (`Opacities`) |
| `StarField.Field.Animate` | src/components/StarField.tsx:90-127 | one frame: lines chosen from the stars as found, then the drift of every star and its drawn opacity |

## Findings

| source | as written | input that shows it | evidently intended | confidence | as-written member | corrected member |
|---|---|---|---|---|---|---|
| src/components/ZodiacWheel.tsx:49-83 | the window listeners are installed by an effect that depends only on `isDragging`, so `handleDragEnd` reads the `rotation` captured when the drag began; the release snaps the wheel back to where the press found it and reports that sector, discarding the drag | mounted wheel, press at 0°, move to 90°, release: the rotation returns to 0 and sector 0 is reported | snap the rotation the drag produced: 90°, reporting sector 9 | high, not executed | `ZodiacWheel.DragSessionAsWritten` | `ZodiacWheel.IntendedSessionTracksPointer` |

`StaleReleaseExample` and `IntendedReleaseExample` work this input through. The component model
(`WheelComponent`, `Step`) follows the code as written. `ReleaseIntended` is
the corrected release, and `IntendedSessionTracksPointer` proves its property
for every drag.

## Left out

- Canvas drawing is not modelled: background and nebula fills, gradients, arcs,
  fills and strokes (src/components/StarField.tsx:49-66, 91-113). They are pixel
  output. The model keeps only the numbers they use: the drawn opacities and the
  line segments with their alpha.
- The early return when there is no canvas or no 2D context
  (src/components/StarField.tsx:19-23) is not modelled. Such a component draws
  nothing and holds no stars.
- `requestAnimationFrame`, `cancelAnimationFrame` and the `resize` listener
  (src/components/StarField.tsx:126-136) are host scheduling. One frame is one
  call of `Animate`, and one resize is one call of `Resize`.
- `Math.random`, `Math.sin`, `Math.atan2` and `Math.PI` are inputs, or a
  constant for `Math.PI`. IEEE rounding of JavaScript numbers is not modelled:
  numbers are exact reals.
- `StarField.DrawnOpacity`: the bounds are stated only for a non-negative base
  opacity. Every star `InitStars` creates has one, and `Valid` keeps it.
- `StarField.Frame`: the random draws are a finite sequence, with at least as
  many draws as stars.
- The sector buttons' placement, their counter-rotation, the emphasis of the
  selected sector and the CSS transitions (src/components/ZodiacWheel.tsx:97-156)
  are visual only.
- React's render scheduling is collapsed. Each event is followed at once by its
  render and by the listener effect. A press on a sector button bubbles to the
  wheel and starts a drag before the button's click fires. The model runs that
  interleaving as a sequence of events but does not derive it from the DOM.
  Its consequence is stated by `ClickAsDelivered`: each click calls
  `onSelect` twice, first with the stale drag's sector, then with the clicked
  one.
- Touch cancellation: the code installs no `touchcancel` listener, and the model
  has none. A cancelled touch leaves the drag running until the next `touchend`
  or `mouseup`.
- In these places the code may surprise; the model follows the code:
  - a wrapped star's `y` is `-10`;
  - `Math.round(-1.5)` is `-1`, so `-45°` snaps to `-30°`;
  - the drag release reads the rotation captured at drag start (see Findings).
- src/App.tsx, src/components/WalletConnect.tsx and
  src/components/ReadingCard.tsx are not part of this model. They are layout,
  timers and a random mock address. App.tsx indexes its 12 signs with the
  reported index, and `ReleaseIndex` keeps that index in range.
