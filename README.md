# EatEma note engine in Dafny

This project models the core of the rhythm-tapping game in `static/index.js`:
the engine that schedules notes, scrolls the board and judges taps. The game
has a board of two layers. Each layer has 10 rows of 4 lanes. Every row holds
exactly one note. The player taps the expected note (`_gameBBList[_gameBBListIndex]`)
before the board scrolls on.

The model is split into these modules:

- `Lanes` (`lanes.dfy`): the three lane generators, `default`, `stair` and
  `hold`, and their dispatch on the note pattern. The stair generator's
  bounded do-while loop is the method `DrawStair`, proved against the
  function `StairNext`. The row-by-row fill of a layer is the function
  `FillRows`: each generated lane is fed back as the next row's previous
  lane, and `continuousCount` grows on every row.
- `Layout` (`layout.dfy`): slot numbering (`row * 4 + lane`), the entries
  `{cell, id}` of the expected-note list, and the slot-order scan that
  pushes exactly one entry per row, in row order.
- `Judging` (`judging.dfy`): the touch band, the four lane bands, the
  verdict of one tap, and the synthetic tap that key `i` produces.
- `Scroll` (`scroll.dfy`): how far one row advance moves the layers, where a
  recycled layer goes, and the monitor's band check with its one-step
  correction.
- `Scoring` (`scoring.dfy`): combo milestones and pulse tiers, clicks per
  second with its zero guard, the progress-bar percentages and colours, the
  share-text levels, the 10..60 time clamp and the time-over test.
- `Wrappers` (`wrappers.dfy`): the optional value (`Option`) that lookups
  return.
- `Engine` (`engine.dfy`): the page script's module-level state as objects.
  - `FirstFill` and `SecondFill` are the two fills `gameRestart` makes, as
    values.
  - `Game` holds the mode, cursor, score, misses, flags and timers, and owns
    the two `Layer`s with their `notEmpty` slot arrays.
  - `NoteList` is `_gameBBList` with `continuousCount` and
    `_globalLastNotePosition`.
  - `HoldGen` is `_holdNoteCount` and `_holdPosition`.
  - The methods update these in place. Each method's contract states its
    whole new state. Where a method computes something, its contract ties
    the result to the specification functions above: the fill to
    `FillRows` (a restart's to `FirstFill` and `SecondFill`), a layer advance to `LayerStep`, a tap to `Judge`. The
    fields a method does not list as modified stay as they were.

Inputs from the page are parameters:

- each value `Math.random()` returns, as a real in [0, 1);
- the tap's coordinates and target element;
- the expected note's `relativeTop`;
- the current time in milliseconds;
- the start column found by the DOM search in `getLastVisibleNotePosition`.

Each interval callback (`timer`, `monitorCurrentBlockPosition`) is an
explicit method call. The flags `tickTimer`, `progressTimer` and
`monitorTimer` record which intervals are registered.

Behaviours of the code a reader might not expect:

- Hold runs reuse the lane. A new run starts at `prevColumn`, and the fill
  feeds each output back as `prevColumn`, so one fill stays in one lane.
  It does not pick a fresh random lane after each run of four.
- The clock starts at the first hit, not when the welcome screen closes.
  `timer` ticks in every mode, but only Normal mode ends the game on it.
- The 1.2× branch of `gameLayerMoveNextRow` calls an undefined `min` and
  throws before any layer moves. The model keeps this as the outcome
  `Threw`. The cursor and score have already advanced by then.
- A tap inside the touch band when there is no expected note throws at
  `p.id`. The model's verdict is `Fault`, and no state changes.

## Model

| member | source | states |
|---|---|---|
| Lanes.LaneOf | static/index.js:834 | a draw maps to a lane in 0..3: the quarter of [0, 1) that holds it |
| Lanes.DefaultNext | static/index.js:827-840 | the lane is in 0..3; with no previous lane it uses exactly one draw, otherwise two; it differs from the first draw exactly when that draw repeats the previous lane and the second draw is below 0.3, and then it is (prev+1)%4 |
| Lanes.DefaultRepeatNeedsHighDraw | static/index.js:833-839 | the default generator repeats the previous lane exactly when the first draw repeats it and the second draw is at least 0.3 |
| Lanes.StairFrom | static/index.js:797-805 | the loop from draw k on returns its last draw's lane, a lane in 0..3, after more than k and at most 10 draws |
| Lanes.StairNext | static/index.js:790-808 | the stair generator returns a lane in 0..3 after 1 to 10 draws |
| Lanes.StairFromOutcome | static/index.js:797-805 | if every draw before k repeated the previous lane with the counter at least 2, the loop's result meets the outcome description |
| Lanes.StairNextCharacterized | static/index.js:790-808 | the stair result meets its outcome description: its last draw, redrawn only while the draw repeated the previous lane and `continuousCount >= 2`, stopping early only on a draw it may keep, one draw with no previous lane; and any lane and count meeting that description are the result |
| Lanes.StairOutcomeUnique | static/index.js:797-805 | a lane and count meeting the outcome description are what the loop returns from any earlier draw |
| Lanes.DrawStair | static/index.js:790-808 | the do-while loop returns a lane in 0..3 after at most 10 draws; every draw it discarded repeated the previous lane while the counter was at least 2; it stops before 10 only on a draw it may keep; the result equals `StairNext` |
| Lanes.HoldNext | static/index.js:810-825 | a run starts at the previous lane (one draw only when there is none); a run in progress returns its held lane without a draw; the counter goes down by one modulo 4; the lane stays held exactly while the counter is positive |
| Lanes.Next | static/index.js:779-788 | every pattern gives a lane in 0..3 with at most 10 draws and a valid hold state; only the hold pattern changes the hold state |
| Lanes.FillRows | static/index.js:1155-1181 | a fill of n rows yields n lanes in 0..3, uses at most 10n draws and leaves a valid hold state |
| Lanes.FillLast | static/index.js:1160-1181 | the same bounds for the fill that ends with its last row |
| Lanes.FillRowsExtend | static/index.js:1160-1181 | the fill of n+1 rows is the fill of n rows plus one lane generated from the last lane, with the counter at `continuousCount + n` and the draws the rows before left |
| Lanes.HoldFillSingleLane | static/index.js:1160-1181 | under the hold pattern every row of a fill gets the same lane: the held lane, else the start lane, else a drawn one; a run still open keeps that lane |
| Lanes.FillHoldCounter | static/index.js:810-825 | after n hold rows the counter has dropped by n modulo 4; the other patterns leave the hold state untouched |
| Layout.LayerNotes | static/index.js:1196-1202 | a layer's entries are one per row, in row order, each `{cell: lane, id: row*4 + lane}` |
| Layout.ScanStep | static/index.js:1186-1206 | scanning slot `4r+i` pushes row r's entry exactly when i is row r's lane, and pushes nothing otherwise |
| Layout.RowScan | static/index.js:1186-1206 | the four slots of a row push exactly that row's entry |
| Layout.NotesBeforeRows | static/index.js:1186-1206 | scanning the first r rows' slots in slot order pushes the entries of those rows in row order |
| Layout.LayerNotesWellFormed | static/index.js:1196-1202 | every entry of a filled layer names a valid slot of layer 1 or 2 whose lane is the recorded cell |
| Judging.Judge | static/index.js:1426-1476 | a tap after game over or outside the touch band changes nothing; with no expected note it faults; inside the band a hit is exactly the tapped element being the expected occupied one or x lying in the expected lane's band; a tap that is not a hit is a miss exactly when the game has started and the target is unoccupied |
| Judging.KeyX | static/index.js:1819 | the key's x is the centre of lane i-1 |
| Judging.KeyY | static/index.js:1821 | the key's y lies strictly inside the touch band |
| Judging.KeyTarget | static/index.js:1813-1822 | for a well-formed expected note, key i targets a valid slot of the same layer and row, in lane i-1 |
| Judging.LaneBandsDisjoint | static/index.js:1437-1438 | no x lies in two lane bands, and the borders between lanes belong to none |
| Judging.KeyTapHitsExactlyItsLane | static/index.js:1808-1826 | key i taps inside the touch band, on the expected note's row in lane i-1, and it is a hit exactly when i-1 is the expected lane |
| Scroll.MoveDistance | static/index.js:1369-1399 | no move while the cursor is at most 1 or there is no expected note; a throw exactly when the note sits more than two blocks above the target; otherwise half a block when it is below the target, a full block else |
| Scroll.Advanced | static/index.js:1404-1409 | a layer moves by d, unless that takes it past its own height, and then it goes to the recycled position; afterwards it is never scrolled out |
| Scroll.FillY | static/index.js:1210-1223 | a fill without `loop` is at the origin; `loop = 1` with no offset places the layer one layer height up, and with offset -1 at the recycled position |
| Scroll.AdvanceBounds | static/index.js:1402-1410 | an advance keeps a layer within one layer height of the origin; two layers that do not recycle keep their distance; a recycled layer moves up |
| Scroll.AdjustSettles | static/index.js:1322-1345 | one correction brings the expected note into the monitor's band, and a note already in the band moves by at most a block and a half |
| Scoring.NextMilestone | static/index.js:690-700 | a celebrated milestone is one of 50..500, above the last one celebrated and not above the score; with none celebrated, no milestone lies in between |
| Scoring.FirstMilestoneFromSpec | static/index.js:690-700 | the scan from position k returns the first milestone from k that the score has reached above the last celebrated one, or none when no such milestone exists |
| Scoring.NextMilestoneIsSmallestReached | static/index.js:690-700 | a call celebrates the smallest milestone in (last, score], and nothing when there is none |
| Scoring.MilestoneReachedIsLargest | static/index.js:691 | the tracked milestone is the largest of 50..500 not above the score, or 0 below 50 |
| Scoring.MilestoneTracksScore | static/index.js:1452-1456 | after one more hit and a check, a milestone is celebrated exactly when the score reaches a new one, and the last milestone is again the largest one reached |
| Scoring.PulseTier | static/index.js:714-722 | the tier is one of 50, 100, 150, 200: the largest one the combo count has reached, and exactly 50 below 100 |
| Scoring.MilestoneTiers | static/index.js:714-722 | milestones 50, 100 and 150 have their own pulse tiers, and 200 and above share the top tier |
| Scoring.Cps | static/index.js:958-964 | the rate is 0 before two ticks or with no elapsed time; otherwise rate × elapsed ms = 1000 × score; it is never negative for positive elapsed time |
| Scoring.TimePercent | static/index.js:1104-1107 | the percentage is in 0..100, proportional to the time left within the budget, 0 when none is left and 100 at the budget |
| Scoring.CpsPercent | static/index.js:1121-1124 | the percentage is at most 100, proportional to the rate up to 11 per second, and 100 from there on |
| Scoring.ColorClass | static/index.js:1135-1143 | red exactly up to 30%, green exactly above 60%, yellow in between |
| Scoring.ColorMonotone | static/index.js:1135-1143 | a fuller bar never gets a worse colour |
| Scoring.TimeBarColor | static/index.js:1104-1143 | the time bar is red exactly when at most 30% of the budget is left, and green exactly when more than 60% is left |
| Scoring.CpsBarColor | static/index.js:1121-1143 | the rate bar is red exactly up to 3.3 clicks per second, and green exactly above 6.6 |
| Scoring.Level | static/index.js:1674-1678 | the level is in 1..5 and is the band the rate falls in: 1 exactly up to 5, at most 2 exactly up to 8, at most 3 exactly up to 10, at most 4 exactly up to 15 |
| Scoring.LevelMonotone | static/index.js:1674-1678 | a faster rate never gets a lower level; level 5 exactly above 15, level 1 exactly at 5 or below |
| Scoring.ClampTime | static/index.js:661 | the time setting is in 10..60, kept when already in range and clamped to the nearer end otherwise |
| Scoring.LegalDeviationWindow | static/index.js:1523-1525 | ending earlier or with a longer budget never turns a standing result into a void one; the last standing deviation is the budget plus 2999 ms |
| Scoring.ShareText | static/index.js:1664-1679 | the share text is "time over" exactly for a Normal game ending 3 or more seconds late; otherwise it is the level of the rate |
| Engine.StartColumn | static/index.js:746-766 | the start column is a lane: the visible note's lane, else the last generated lane, else a drawn one |
| Engine.Layer.Rows | static/index.js:1155 | a layer of 40 slots has 10 rows |
| Engine.Layer.Clear | static/index.js:913-921 | every slot of the layer is unoccupied |
| Engine.LayerFill | static/index.js:1148-1181 | a layer's fill has 10 lanes, each in 0..3, and leaves a valid hold state; the start column uses a visible note only when the list has entries |
| Engine.LayerStep | static/index.js:1403-1410 | one layer's step moves that layer as `Advanced` says and leaves the other alone; without a recycle nothing else changes; a recycle appends 10 entries after the old list and the last lane is the last entry's |
| Engine.ScrollAllEffect | static/index.js:1402-1410 | an advance moves both layers by the same distance; a layer that does not recycle keeps its lanes; the list only grows, by 10 entries per recycled layer; without a recycle the hold state and list stay |
| Engine.Layer.constructor | static/index.js:1478-1494 | a new layer has 40 fresh slots, all unoccupied, its number, and is at the origin |
| Engine.HoldGen.constructor | static/index.js:843-844 | no hold run is in progress |
| Engine.HoldGen.Clear | static/index.js:900-901 | no hold run is in progress |
| Engine.HoldGen.Generate | static/index.js:810-825 | the lane, draw count and new counter and lane are those of `HoldNext` on the old state |
| Engine.NoteList.constructor | static/index.js:594 | the list is empty, with no generated row and no last lane |
| Engine.NoteList.Clear | static/index.js:883-899 | the list is empty, with no generated row and no last lane |
| Engine.FirstFillHold | static/index.js:810-825 | after a restart's first fill a Hold run is two rows from its end, on the column the fill started from, and every row of layer 1 holds that column; other patterns leave the generator at no hold |
| Engine.ContinuedFillHold | static/index.js:810-825 | a 10-row fill that continues a Hold run two rows from its end leaves no run open and holds the run's column in every row; other patterns keep no hold |
| Engine.RestartFillsHold | static/index.js:927-928 | after a restart no hold run is open, for every pattern; in Hold mode all 20 rows of both layers hold the column layer 1 starts from |
| Engine.Game.constructor | static/index.js:846-862 | a new game holds the given mode, pattern, setting and geometry, shows the welcome layer and is in the state `Restart` leaves for the same fill inputs: reset counters and timers, layer 1 holding `FirstFill`'s lanes, layer 2 holding `SecondFill`'s, the generator in the state the second fill left, and the list exactly their entries |
| Engine.Game.GenerateNext | static/index.js:779-788 | the lane, the draws used and the new hold state are those of `Next` on the old hold state |
| Engine.Game.GenerateRows | static/index.js:1155-1181 | the generated lanes and hold state are `FillRows` of the old hold state, and each row keeps position `row*4 + lane` |
| Engine.Game.MarkSlots | static/index.js:1184-1206 | exactly the row's lane slot is occupied in each row, and the row entries are appended in row order after the old list |
| Engine.Game.Install | static/index.js:1184-1228 | the layer is valid with the given lanes; the list grows by its entries; the last lane is stored; the layer is placed as the fill's `loop` and `offset` say |
| Engine.Game.Refresh | static/index.js:1148-1229 | the layer holds the lanes `LayerFill` generates from the old hold state, list and last lane; the list grows by exactly that layer's 10 entries; the last lane is the last row's lane; the layer is placed as the call's arguments say |
| Engine.Game.Reset | static/index.js:864-908 | every timer is cleared; cursor, score, misses, ticks and milestone are 0; the clock is the budget; the list is empty and no hold run is open |
| Engine.Game.FillLayers | static/index.js:927-928 | layer 1 is filled at the origin from the empty list, starting from a drawn lane; then layer 2 one layer height above it, with the first fill's hold state and row counter, starting from a visible layer-1 note's lane when the search finds one and from layer 1's last lane otherwise (these are `FirstFill` and `SecondFill`); the generator is left as the second fill leaves it; the list is both layers' entries in order; no field of the game changes |
| Engine.Game.Restart | static/index.js:864-929 | the game is valid and reset (timers cleared; cursor, score, misses, ticks and milestone 0; the clock at the budget); layer 1 holds the lanes of `FirstFill` of e1 and layer 2 those of `SecondFill` of e1 and e2, the hold state is the one `SecondFill` leaves, the list is exactly the two layers' entries, and the layers are at 0 and one layer height above; mode, setting and the welcome flag are kept |
| Engine.Game.GameStart | static/index.js:934-956 | the game is started at the given time, with the tick and monitor intervals on and the progress redraw on in Normal mode only |
| Engine.Game.GameOver | static/index.js:1052-1078 | the game is over, every interval is cleared, and the reported rate is `Cps` of score and elapsed time |
| Engine.Game.Timer | static/index.js:966-978 | a tick takes one second off and adds one tick in every mode; the game is over afterwards exactly in Normal mode with no time left; while it goes on the progress-bar timer keeps its state |
| Engine.Game.CheckComboMilestone | static/index.js:690-700 | the celebrated milestone is `NextMilestone` of the score and the old last milestone, and it becomes the last milestone |
| Engine.Game.SmoothAdjust | static/index.js:1332-1367 | with an expected note both layers move by the distance that puts it two and a half blocks above the bottom; otherwise nothing moves |
| Engine.Game.Monitor | static/index.js:1305-1329 | while the game is live and the expected note has left the band between four and two blocks above the bottom, both layers get that correction; otherwise nothing moves |
| Engine.Game.AdvanceLayer | static/index.js:1403-1410 | the layer moves by d; once it passes its own height it is refilled with the lanes and hold state `LayerFill` gives for the old state, its 10 entries appended, and put nine rows above the origin; otherwise its lanes, slots, the list and the hold state stay; the step is `LayerStep` |
| Engine.Game.ScrollLayers | static/index.js:1402-1415 | the loop over the layers leaves the state `ScrollAll` gives: layer 1's step, then layer 2's from the state layer 1 left |
| Engine.Game.MoveNextRow | static/index.js:1369-1424 | the decision is `MoveDistance`; without a move nothing changes; with one the new state is `ScrollAll` of the old by that distance; the list only grows |
| Engine.Game.OnHit | static/index.js:1439-1460 | the game is started (the clock set and the progress-bar timer started in Normal mode on the first hit, and kept otherwise), cursor and score both go up by one, and the layers scroll as `MoveDistance` decides for the next note |
| Engine.Game.CountHit | static/index.js:1439-1456 | the counting half of a hit: the game is started if it was not (clock set, progress-bar timer running exactly in Normal mode) and kept otherwise; cursor and score both go up by one and the game is not over |
| Engine.Game.OnMiss | static/index.js:1461-1474 | one more bad tap; the game is over exactly unless the mode is Practice; a game that goes on keeps its progress-bar timer |
| Engine.Game.Tap | static/index.js:1426-1476 | the verdict is `Judge` of the old state; ignored and faulting taps change nothing; a hit starts the game if needed (the progress-bar timer only in Normal mode), advances cursor and score together and scrolls the layers; a miss adds one bad tap and ends the game unless in Practice, keeping the progress-bar timer if the game goes on; mode, settings, clock and ticks never change |
| Engine.Game.Click | static/index.js:1808-1826 | key i is ignored until the welcome layer is closed and faults with no expected note; otherwise its verdict is `Judge` of the synthetic tap, a hit exactly when i-1 is the expected lane and (in a started game) a miss exactly when it is not and its target slot is empty; the effect is that of `Tap`, including the progress-bar timer |
| Engine.Game.CloseWelcome | static/index.js:1496-1500 | the welcome layer is closed |
| Engine.Game.ChangeMode | static/index.js:527-531 | the mode is the chosen one |
| Engine.Game.UpdateGameTime | static/index.js:636-650 | the budget is the new value, and so is the clock while no game is running |
| Engine.Game.ExitPractice | static/index.js:309-315 | a running Practice game is restarted (the full state `Restart` leaves for e1 and e2, both layers refilled) with the welcome layer shown, keeping mode and settings; any other state is left untouched |

## Left out

- Page chrome is not modelled: the loading overlay, i18n, cookies, settings UI, presets and custom images. Settings are plain fields.
- Sound, star particles, the golden-pulse animation (only its tier mapping is kept), CSS transitions and their resets, and the delayed show/hide of a recycled layer are not modelled. They are visual only.
- Score submission (`SubmitResults`: XHR and RSA), the score layer `showGameScoreLayer`, clipboard and share buttons are not modelled. They are I/O.
- The DOM search in `getLastVisibleNotePosition` and all `getBoundingClientRect` geometry are inputs: the visible note's lane and `relativeTop`.
- `setInterval`/`setTimeout` scheduling is not modelled. Each callback is an explicit call, and the registered intervals are flags.
- `_globalNoteSequence` and its timestamps are not modelled. The engine only writes them.
- The random draws of the marking loop pick a visual class and do not affect lanes. They are not modelled. Every fill takes its generator draws as its own input sequence.
- `countBlockSize` and `_refreshSize` are not modelled. They do resize relayout, and `blockSize` and `innerHeight` are fixed per game.
- The unused generators (`generateNotePosition` and the three `generate*Position` functions, static/index.js:1232-1302) are not modelled. They are dead code.
- `_finalCPS`, the practice exit button's visibility and the time-up text are not modelled. They are display state.
- `parseInt` of a non-numeric time gives NaN. `Engine.Game.UpdateGameTime` and `Scoring.ClampTime` take integers, so this case is not modelled.
- `Scoring.Cps` models `Date` arithmetic on integer milliseconds with exact reals, so floating-point rounding is not modelled.
- `Engine.Game.Tap` and `Engine.Game.Click`: the source reads `targetTouches` when `clientX` or `clientY` is exactly 0. This fallback is not modelled; the model takes the given coordinates.
- `Engine.LayerFill`: the DOM search is an input, except that it cannot find a note while the list is empty (the first fill after a restart). Which entries are visible is not modelled.
- `Engine.Game.GenerateRows`: the draws are an input sequence, so the model does not capture that `Math.random` is shared with the visual draws of earlier fills.
