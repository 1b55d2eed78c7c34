# Step-sequencer drum machine, modelled in Dafny

The drum machine plays six percussion sounds from a grid of time steps. The grid has one row
per sound and one column per step. Playback runs at a tempo the user sets. Each sound can be
muted, and one sound at a time can be soloed. The repository has two independent versions of
this engine, and the model covers the core of both.

- **The vanilla page (`script.js`)** uses a lookahead scheduler.
  - **Scheduler poll.** A poll commits every step whose audio time falls before
    `now + 0.1 s`. For each committed step it first queues the note `(step, time)` for the
    playhead, then triggers the sounds the mixer lets through at that step.
  - **Display refresh.** A refresh drains the notes that are already due from the front of
    the queue and shows the last one drained.
  - **Handlers.** The click handlers toggle cells, set the solo, toggle mutes and clear the
    grid. The sliders set the step count and tempo, and window resizes clamp the step count
    to a width band.
  - **Session object.** The page's module-level state is the class `Lookahead.Session`. Each
    handler is a method that changes only the fields it names.
- **The React component (`src/App.jsx`)** uses a plain interval timer.
  - **Tick.** Every tick moves to the next step modulo the step count. It plays every sound
    whose cell is active and whose row is not muted, at the gain
    `(rowVolume/100)*(masterVolume/100)`. The S buttons read and flip a
    row's solo flag, but the tick never reads it.
  - **Other operations.** The component also starts and stops the interval, clears the grid,
    updates a sound row's settings, and saves and loads patterns in a key-value store.
  - **Component object.** The component's state and refs are the class `ReactApp.App`.

Modules and files:

| file | module | models |
|---|---|---|
| `options.dfy` | `Options` | the `Option` type (`null`/`undefined` versus a value) |
| `step_grid.dfy` | `StepGrid` | the vanilla grid: rebuild on resize, toggle, clear |
| `mixer.dfy` | `Mixer` | `playSound`'s solo/mute gate, the solo and mute buttons, the per-step trigger loop of `scheduleNote` |
| `lookahead.dfy` | `Lookahead` | notes, the queue, `nextNote`, `scheduleNote`, `scheduler`, `draw`, `togglePlayback`, the handlers, `handleResize`, all in class `Session` |
| `react_app.dfy` | `ReactApp` | the React grid, tick, sound rows, pattern bank and class `App` |

How the model represents the source:

- **Times and gains** are `real`.
- **Tempo** is a positive integer, so one step lasts exactly `15/tempo` seconds.
- **Triggers.** Audio playback is fire-and-forget. The vanilla model therefore records
  every trigger in a log `played` of `(sound, time)` records. The React model returns each
  tick's `playSound` calls as a list of `(sound, gain)` records.
- **Reading a cell outside the grid** gives `undefined` in JavaScript, which is falsy. The
  model reads such a cell as inactive. This happens after a shrink, when `currentStep` can
  lie past the last column until the next `nextNote`.
- **Values passed in as parameters:**
  - the audio clock reading `now` of a poll, a refresh and a start, read once per call
    (see "## Left out");
  - the window width of a resize;
  - the saved store the component mounts with.
- **The scheduler proof.** "Every poll ends with the clock at or past the horizon and appends
  a gap-free run of steps" is proved with a termination measure. The measure is the
  remaining gap times the tempo, rounded down (`Lookahead.StepsLeft`). It drops by 15 with
  every committed step.

Where the two programs differ from one another, or from what one might expect of an engine
like this, the model follows each program's code:

- **Play while playing.** Neither program reports playing twice as an error. In `script.js`
  one button toggles between play and stop, so starting while playing cannot happen. In
  `App.jsx`, `startSequencer` silently does nothing while an interval exists.
- **Stopping.** `script.js` keeps the step counter on stop and resets it on the next start.
  `App.jsx`'s `stopSequencer` never fails and resets the step to 0 at once.
- **Shrinking the grid while playing.** `script.js` does not wrap the current step into
  range when the step count shrinks. It returns to range at the next `nextNote`, and a step
  scheduled in between plays nothing.
- **Solo and mute.** Solo does not override mute. `script.js` suppresses a muted sound even
  when it is the soloed one (script.js:146-147). `App.jsx` ignores the solo flag when it
  plays (App.jsx:108).
- **Saved patterns.** `App.jsx` saves its per-sound rows, which hold the volume, solo and
  mute of each sound, rather than a soloed sound and a muted set.

## Model

| member | source | states |
|---|---|---|
| StepGrid.Cell | script.js:165 | defines the cell the scheduler reads: the stored value at a row and step inside the grid, and inactive for a row or step outside it (an out-of-range read is `undefined`, which is falsy) |
| StepGrid.EmptyRow | script.js:54 | a fresh row has `steps` cells, all inactive |
| StepGrid.ResizedRow | script.js:54-60 | a rebuilt row has exactly `steps` cells |
| StepGrid.Resized | script.js:53-62 | after a rebuild there is one row per sound with exactly `steps` cells |
| StepGrid.ResizedCells | script.js:53-62 | after a rebuild a cell is active exactly when the old grid had that cell active; cells below `min(old, new)` keep their value and new cells are inactive |
| StepGrid.ResizedSameSteps | script.js:313-314 | rebuilding at the step count the grid already has changes nothing (the resize that does not clamp) |
| StepGrid.CopyRow | script.js:54-60 | the fill-then-copy loop gives `steps` cells, copies the old cells that fit, leaves the rest inactive, and equals the rebuilt row |
| StepGrid.RebuildGrid | script.js:53-62 | the per-sound loop produces exactly the rebuilt grid |
| StepGrid.Cleared | script.js:254 | clear keeps the number of rows and every row's length and makes every cell inactive |
| StepGrid.Toggled | script.js:229 | a click flips exactly the clicked cell; every other cell and every row length stays |
| Mixer.Audible | script.js:146-147 | defines the gate of `playSound`: a sound plays unless another sound is soloed or it is muted |
| Mixer.SoloClicked | script.js:231-239 | pressing the soloed sound's button clears the solo; any other press makes that sound the only soloed one |
| Mixer.MuteClicked | script.js:240-248 | the mute button flips the membership of that sound and of no other |
| Mixer.MuteClickedTwice | script.js:240-248 | pressing a mute button twice restores the muted set |
| Mixer.SoundsDistinct | script.js:15 | the six sound names are pairwise different |
| Mixer.TriggersUpTo | script.js:164-168 | defines the triggers of the loop after visiting sounds `0..n`: those of `0..n-1`, then one for sound `n-1` if its cell at the step is active and the gate lets it through |
| Mixer.TriggersUpToSpec | script.js:164-168 | after the loop has visited sounds `0..n`, the triggers are exactly the audible sounds among them with an active cell, each once, at the step's time |
| Mixer.Rows | script.js:164-165 | the sounds with a grid row are at most the six sounds and at most the grid's rows |
| Mixer.TriggersUpToPastRows | script.js:165 | sounds past the grid's last row add no trigger |
| Mixer.TriggersAt | script.js:164-168 | defines the triggers of one scheduled step: the loop over every sound that has a grid row |
| Mixer.TriggersAtSpec | script.js:143-153 | one scheduled step triggers exactly the sounds with an active cell that are not muted and not soloed out, each once, at the step's time, and nothing else |
| Mixer.GateSuppresses | script.js:146-147 | a muted sound never triggers, and while a sound is soloed no other sound triggers |
| Mixer.ScheduleTriggers | script.js:164-168 | the loop over the sounds issues exactly the triggers of that step, in sound order |
| Lookahead.StepDuration | script.js:157-158 | one step lasts `0.25 * 60 / tempo` seconds, which is positive and exactly `15/tempo` |
| Lookahead.Advance | script.js:159 | the next step is in range; it is one on, or 0 after the last step |
| Lookahead.MaxStepsFor | script.js:295-301 | the largest step count is 8 up to 480 px, 16 up to 768 px and 32 above, each band both ways |
| Lookahead.CatchUp | script.js:171-177 | defines the notes one poll commits: they start at the clock the poll found, each follows the one before by one step (`Advance`) and one step duration, and each is before the lookahead horizon |
| Lookahead.SteppedSpacing | script.js:172-175 | in a run of committed steps the `j`-th is `j` step durations after the first, and every step after the first is in range |
| Lookahead.SteppedGrows | script.js:172-175 | in a run of committed steps a later step has a strictly later time |
| Lookahead.SteppedIncreasing | script.js:172-175 | a run of committed steps has strictly increasing times |
| Lookahead.DueCount | script.js:188 | the number of due notes is at most the queue length |
| Lookahead.DueCountPrefix | script.js:188 | the due notes are the longest prefix of notes before `now`: all of them are before `now` and the next note is not |
| Lookahead.DueCountSplits | script.js:188 | in an increasing queue a note is due exactly when its time is before `now` |
| Lookahead.DrainDue | script.js:185-191 | the drain loop removes exactly the due prefix, front first, and reports the note of the last one removed, or the shown step when none was due |
| Lookahead.DrainedNotDue | script.js:188-191 | after the drain the queue is still increasing and holds nothing due at `now` |
| Lookahead.TriggersForNotes | script.js:164-175 | defines every `playSound` call of a run of notes: the triggers of each note's step at its time, note after note, as the successive `scheduleNote` calls issue them |
| Lookahead.TriggersForNotesGated | script.js:143-153 | every trigger logged for a run of steps passed the gate and belongs to an active cell of one of those steps, at that step's time |
| Lookahead.TriggersForNotesPush | script.js:173 | committing one more step adds exactly that step's triggers to the log |
| Lookahead.CatchUpExtends | script.js:172-175 | a committed step extends the poll's gap-free run of steps |
| Lookahead.PollKeepsOrder | script.js:163 | appending a poll's run to a queue that is increasing and before the clock keeps it increasing and before the new clock |
| Lookahead.GapShrinks | script.js:157-158 | each step lowers the poll's termination measure by 15, and the measure is non-negative while the clock is before the horizon |
| Lookahead.Session.constructor | script.js:320-322 | page load, starting from the state variables of script.js:24-40, builds an all-inactive grid from the sliders, then sizes it to the window; nothing plays and nothing is queued |
| Lookahead.Session.CreateGrid | script.js:43-62 | the grid becomes the rebuild of the old grid at the current step count |
| Lookahead.Session.ClickCell | script.js:224-229 | the clicked cell flips; the session invariant holds |
| Lookahead.Session.ClickSolo | script.js:230-239 | the solo becomes the clicked result, and a soloed sound is always one of the six |
| Lookahead.Session.ClickMute | script.js:240-248 | the muted set becomes the clicked result |
| Lookahead.Session.Clear | script.js:252-255 | every cell becomes inactive and the dimensions stay |
| Lookahead.Session.SetSteps | script.js:257-264 | a new step count rebuilds the grid; the same count changes nothing |
| Lookahead.Session.SetTempo | script.js:266-269 | the tempo is replaced; queued notes keep their times |
| Lookahead.Session.HandleResize | script.js:291-316 | the slider maximum follows the width band, the step count is clamped to it, and the grid is rebuilt, unchanged unless it was clamped |
| Lookahead.Session.ScheduleNote | script.js:162-169 | one note is appended to the queue and the step's gated triggers to the log |
| Lookahead.Session.NextNote | script.js:156-160 | the clock moves on by exactly one step duration and the step advances modulo `steps` |
| Lookahead.Session.CommitStep | script.js:172-175 | one pass of the poll loop commits the step on the clock, extends the run, and lowers the measure |
| Lookahead.Session.Scheduler | script.js:171-177 | the poll ends with the clock at or past `now + 0.1`; the queue grows by a gap-free run from the old clock, each before the horizon, with strictly increasing times after the old queue; the log grows by exactly those steps' triggers |
| Lookahead.Session.Draw | script.js:179-202 | while playing, exactly the due prefix is dropped, the display shows the last dropped note or stays, and what remains is not due; while stopped, nothing is shown |
| Lookahead.Session.TogglePlayback | script.js:207-221 | each press flips playback; stopping empties the queue and keeps the clock; starting resets the clock to step 0 at `now` and runs a first poll, which queues a gap-free run from `(0, now)`, leaves the clock one step after its last note, and logs exactly that run's triggers |
| ReactApp.CellOn | src/App.jsx:108 | defines the cell the tick reads: `grid[sound] && grid[sound][nextStep]`, inactive for a missing row or an index past the row |
| ReactApp.ToggleCell | src/App.jsx:86-93 | only `grid[sound][step]` flips; every other row and cell, the set of sounds and the row length stay |
| ReactApp.ToggleCellTwice | src/App.jsx:86-93 | toggling the same cell twice gives back the grid |
| ReactApp.ClearedGrid | src/App.jsx:128-133 | the cleared grid has exactly the six sounds, each with 16 inactive cells |
| ReactApp.NextStep | src/App.jsx:103 | the tick's step is in `[0, steps)`; it is one on, or 0 after the last step |
| ReactApp.StepAfter | src/App.jsx:102-103 | defines the step reached after `k` ticks from step 0: each tick moves to the next step, wrapping after the last |
| ReactApp.StepAfterCounts | src/App.jsx:102-103 | the first `steps` ticks from step 0 visit the steps in order |
| ReactApp.StepAfterPeriodic | src/App.jsx:102-103 | `steps` more ticks return to the same step |
| ReactApp.Gain | src/App.jsx:109 | defines a play's gain as the row volume over 100 times the master volume over 100 |
| ReactApp.GainInUnitRange | src/App.jsx:109 | with both volumes in `[0, 100]` the gain lies in `[0, 1]`, and it is 1 exactly when both are 100 |
| ReactApp.Muted | src/App.jsx:108 | defines the mute test `soundRow.mute`: only a mute flag that is `true` silences the sound |
| ReactApp.Throws | src/App.jsx:82 | defines when an active cell throws: the sound has no row (App.jsx:108 reads `.mute` of `undefined`), or its row is unmuted and has no volume, so the NaN gain is refused (App.jsx:82) |
| ReactApp.TickUpTo | src/App.jsx:106-112 | defines the `forEach` after visiting sounds `0..n`: a pass that already threw stays as it is; otherwise sound `n-1` is skipped when its cell is inactive, throws, is skipped when muted, or is played at its gain |
| ReactApp.TickAt | src/App.jsx:106-112 | defines one tick's pass as the `forEach` over all six sounds |
| ReactApp.SoundsDistinct | src/App.jsx:27 | the six sound names are pairwise different |
| ReactApp.TickUpToSpec | src/App.jsx:106-112 | the pass fails exactly when a visited sound has an active cell and either no row or an unmuted row without a volume; every play is of an active, unmuted sound at its row's gain, none twice; without a failure every active unmuted sound with a row plays; with one, there is a first sound whose active cell throws, and every active unmuted sound before it was played at its gain |
| ReactApp.TickIgnoresSolo | src/App.jsx:107-108 | rows that differ only in their solo flags give the same tick |
| ReactApp.TickSounds | src/App.jsx:106-112 | the `forEach` gives exactly the specified pass, stopping at the first throw |
| ReactApp.TickFailureSticks | src/App.jsx:106-108 | once the pass has thrown, the remaining sounds change nothing |
| ReactApp.UpdateRows | src/App.jsx:170-175 | only the named field of the named sound is written; its other fields and every other row stay; a sound with no row gets a row holding only that field |
| ReactApp.Flipped | src/App.jsx:233-244 | the S and M buttons write `true` unless the flag is `true` (a missing flag negates to `true`) |
| ReactApp.SoloUpdateInvisibleToTick | src/App.jsx:235 | for a sound that has a row, pressing S changes neither the volume nor the mute of any row, nor the set of sounds with a row |
| ReactApp.SoloPressInvisibleToTick | src/App.jsx:235 | pressing S on any sound, with a row or without one, leaves the tick's pass exactly as it was: a sound with no row throws before the press (a missing row) and after it (a missing volume) |
| ReactApp.IsJsSpace | src/App.jsx:138 | defines the characters `trim` removes: ECMAScript white space (tab, vertical tab, form feed, space, no-break space, byte-order mark and the Unicode space separators) and line terminators (LF, CR, LS, PS) |
| ReactApp.TrimStart | src/App.jsx:138 | defines the front half of `trim`: drop white space from the front until a non-space or the end |
| ReactApp.TrimEnd | src/App.jsx:138 | defines the back half of `trim`: drop white space from the back until a non-space or the start |
| ReactApp.TrimStartSuffix | src/App.jsx:138 | trimming the front leaves a suffix that does not start with white space |
| ReactApp.TrimEndPrefix | src/App.jsx:138 | trimming the end leaves a prefix that does not end with white space |
| ReactApp.Trim | src/App.jsx:138 | defines `trim` as dropping the white space at the front, then at the back |
| ReactApp.Blank | src/App.jsx:138 | defines the save guard `!patternName.trim()`: nothing is left after `trim` |
| ReactApp.TrimStartEmpty | src/App.jsx:138 | trimming the front leaves nothing exactly when every character is white space |
| ReactApp.TrimEndKeepsFront | src/App.jsx:138 | trimming the end of a string that starts with a non-space keeps that character |
| ReactApp.BlankIffAllSpace | src/App.jsx:138 | the save guard refuses exactly the names made only of white space |
| ReactApp.PatternKey | src/App.jsx:148 | the key is `pattern_` followed by the untrimmed name |
| ReactApp.SaveInto | src/App.jsx:137-149 | a blank name leaves the store as it was; any other name stores the snapshot under its key and changes no other key |
| ReactApp.LoadFrom | src/App.jsx:152-156 | loading gives a snapshot exactly when the selection is non-empty and stored, and then the stored one |
| ReactApp.SaveThenLoad | src/App.jsx:137-163 | saving under a non-blank name and loading its key gives the snapshot back |
| ReactApp.SaveKeepsOtherPatterns | src/App.jsx:148 | saving one name does not change what loading any other key gives |
| ReactApp.SaveKeepsRunnable | src/App.jsx:140-148 | saving a snapshot the app can run from keeps every stored snapshot runnable |
| ReactApp.SixteenthMs | src/App.jsx:99 | the tick period `(60/tempo/4)*1000` ms is exactly `15000/tempo` ms |
| ReactApp.App.constructor | src/App.jsx:5-63 | mounting gives tempo 120, 16 steps, volume 50, a cleared grid, every row at volume 50 unmuted and unsoloed, no interval |
| ReactApp.App.SetTempo | src/App.jsx:182-188 | the tempo becomes the slider's value |
| ReactApp.App.SetSteps | src/App.jsx:195-201 | the step count becomes the slider's value; the grid is untouched |
| ReactApp.App.SetVolume | src/App.jsx:208-214 | the master volume becomes the slider's value |
| ReactApp.App.SelectPattern | src/App.jsx:262-265 | the selection becomes the chosen key |
| ReactApp.App.SetPatternName | src/App.jsx:268-273 | the name becomes the typed text |
| ReactApp.App.ClickCell | src/App.jsx:253 | a cell at or past `steps` is disabled; any other cell is toggled |
| ReactApp.App.Start | src/App.jsx:95-117 | nothing while an interval runs; otherwise playing, with a period of `15000/tempo` ms and the grid, steps and volume captured |
| ReactApp.App.Tick | src/App.jsx:101-116 | one tick plays the specified pass over the captured grid at the next step and commits that step unless the pass threw |
| ReactApp.App.Stop | src/App.jsx:119-126 | from any state: no interval, not playing, step 0 |
| ReactApp.App.ClearPattern | src/App.jsx:128-135 | the grid becomes the cleared grid and the step 0 |
| ReactApp.App.UpdateSoundRow | src/App.jsx:170-175 | the rows become the update of the old rows |
| ReactApp.App.ClickSolo | src/App.jsx:233-238 | the row's solo flag becomes the negation of the old one |
| ReactApp.App.ClickMute | src/App.jsx:239-244 | the row's mute flag becomes the negation of the old one |
| ReactApp.App.SavePattern | src/App.jsx:137-150 | the store becomes the save of the current snapshot under the typed name |
| ReactApp.App.LoadPattern | src/App.jsx:152-163 | nothing for an empty selection or missing key; otherwise grid, tempo, steps, volume and rows become the stored ones |

## Left out

- DOM work is not modelled: building cells, CSS classes, the playhead highlight, the button
  labels and the grid template strings. It is presentation only.
- Web Audio is not modelled: the audio context, `resume`, the main and per-sound gain nodes,
  buffer sources and `start`. A trigger is a `(sound, time)` record in the vanilla model and
  a `(sound, gain)` record in the React model.
- The master and per-sound volume sliders of `script.js` (script.js:271-286) only set gain
  nodes, so they are left out with Web Audio.
- Missing audio is not modelled; the model treats the audio context as running and every
  sound as loaded. In `App.jsx`, `playSound` returns early while the context or the
  sound's buffer is missing (App.jsx:73). In `script.js` it checks only the context
  (script.js:144); a sound whose buffer is missing still reaches `source.start` and plays
  silence. Sound loading (`fetch`, `decodeAudioData`) is asynchronous I/O and is not
  modelled.
- `Lookahead.Session.Scheduler` reads the audio clock once per poll, as its parameter
  `now`. The loop condition at script.js:172 re-reads `audioContext.currentTime` on every
  pass. The model does not capture a clock that advances during one poll, which could
  commit further steps in that same poll.
- Timers (`setTimeout`, `setInterval`, `requestAnimationFrame`) are not modelled. One
  scheduler poll, one refresh and one interval tick are methods that the caller invokes.
  `Lookahead.Session.Scheduler` requires playback to be running, since the page clears its
  timeout on stop.
- `Lookahead.Session.TogglePlayback` sets `isPlaying` before the first poll. The page flips
  it after the poll; nothing in between reads it.
- `Lookahead.Session.SetTempo` requires a positive tempo, and `Lookahead.Session.SetSteps` a
  positive count at most the slider's current maximum; the sliders' markup, with their
  minimums, is not part of this model. `ReactApp.App.SetTempo`, `ReactApp.App.SetSteps`,
  `ReactApp.App.SetVolume` and `ReactApp.App.UpdateSoundRow` require the value to lie within
  the slider's range of App.jsx:185-229, which the browser enforces.
- `Mixer.TriggersAt` reads a missing grid row as inactive, where `gridState[i][step]` would
  throw. The session's grid always has a row for every sound, so the case never arises.
- `localStorage` and JSON are not modelled. The store is a map from key to snapshot, and a
  snapshot survives the JSON round trip unchanged. Keys not written by this component, and
  the empty `loadPatternList`, are left out. As written, the pattern `<select>` of
  App.jsx:262-267 offers only the `""` option, so on the page `loadPattern` always returns
  at App.jsx:153; `ReactApp.App.SelectPattern`, `ReactApp.App.LoadPattern` and the
  `ReactApp.SaveThenLoad` round trip cover keys the page cannot select yet.
- `ReactApp.App.constructor` requires every stored snapshot to be one the app can run
  from: positive tempo and steps, and a row for every sound. Not modelled: a hand-edited
  store.
- React hooks are not modelled. State updates take effect at once, and the effect that
  builds the grid and rows is folded into the constructor. The unmount cleanup and
  StrictMode's double effects are left out.
- `ReactApp.App.Tick` treats a TypeError as a failed pass: the plays before it stand and
  the step is not committed. The React crash that follows such an error is not modelled.
  `App.jsx`'s interval callback captures `grid`, `steps` and `volume` at start, and the
  model keeps that capture.
- A row without a volume gives a NaN gain in JavaScript. Assigning NaN to
  `gainNode.gain.value` (App.jsx:82) throws a TypeError, because the parameter is a WebIDL
  `float`. The model therefore counts an unmuted active row without a volume as a throw
  that ends the pass (`ReactApp.Throws`), like a missing row.
- IEEE floating point is not modelled: times, the step duration and gains are exact reals.
- `server.js` (a static file server) and `vite.config.js` (build configuration) are not
  part of this model. They contain no sequencer logic.
