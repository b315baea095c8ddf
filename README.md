# CanvasVideoPlayer in Dafny

A model of the frame-pump video player of the 360° video viewer: the class
`CanvasVideoPlayer` and its helpers in `utils/utils.js`. The player owns a
`<video>` element. In canvas mode it does not let the element play: on each
animation frame a tick computes the elapsed time from a wall clock and seeks
the element there, at most once per frame period (`1 / fPS` seconds). At the
end of the media it loops back to 0 or pauses. In direct mode it only plays
and pauses the element.

Files:

- `Js.dfy` (module `Js`): the JavaScript values a source descriptor or an
  option can be (`Value`), truthiness, `typeof`, property reads and the
  exceptions (`Error`).
- `Utils.dfy` (module `Utils`): `createSource`, `prepareSources` and
  `createVideo`. The `<source>` and `<video>` elements are records.
  `PreparedSources` is the specification and `PrepareSources` the loop the
  code runs.
- `Playback.dfy` (module `Playback`): the options, a snapshot `State` of every
  field the player changes, and one function per operation. Lemmas about
  single operations are here.
- `Pacing.dfy` (module `Pacing`): runs of ticks. The seek throttle over a whole
  run, looping forever, and idle ticks of a stopped player.
- `Lifecycle.dfy` (module `Lifecycle`): whole histories, meaning any
  interleaving of method calls, media events and scheduled ticks. The load
  handlers take effect at most once, and the player stays consistent.
- `Player.dfy` (module `Player`): the class `CanvasVideoPlayer`. Its fields are
  the source's fields, and its methods update them in place. Each method is
  proved to leave `Snapshot()` equal to the matching `Playback` function of the
  old snapshot. `PlayerFactory` owns the id counter.

Modelling choices:

- Time is exact. Clock readings are milliseconds as `real`, and positions are
  seconds. Each `now()` call is its own parameter. So `Play` takes the readings
  of lines 161 and 162, then the readings of the tick it runs at once (lines
  195 and 207).
- `raf(this.update)` is a count of pending ticks, `pendingTicks`.
  `FireTick` is the scheduler running one of them. It is a count and not a
  flag: a pause followed by a play before the pending tick runs leaves two tick
  chains, because `pause` cancels nothing (`PauseThenPlayDoublesTicks`).
- `null` in `time - this.startTime` counts as 0 (`AsNumber`). A NaN
  `video.duration` (no metadata yet) is `None`, and it is never reached. An
  `fPS` of 0 gives an infinite frame period (`Period.Never`), so no tick
  seeks.
- `onLoad` and `onUpdate` are modelled by how often they are called. An option
  that is not a function is never called.
- A string descriptor is wrapped as `{ media }`, so its source's `src` and
  `type` are undefined, not the string.
- Only a real array gets one source per element. A plain object whose
  `length` is truthy has no `forEach`, so the code throws a TypeError. An
  empty array has a falsy `length` and becomes one source built from the array
  itself.

Behaviour worth noting (the model follows the code):

- A tick that reaches the end without loop calls `pause()`. It then still
  reaches `raf(this.update)` (line 213), so one more tick is scheduled. That
  tick returns at once, and the chain ends one tick later
  (`EndWithoutLoopEndsChain`).
- `pause` never resets `elapsed`. In canvas mode it seeks the video to 0
  without resume, and to `elapsed` with resume. In direct mode it only pauses
  the element (lines 182-183).
- When the first of two toggles from rest leaves the player playing, the
  second one stops it (lines 142-148, `ToggleTwiceFromRest`). The first one
  need not leave it playing: in canvas mode without loop, the first tick that
  `play` runs can reach the end at once and pause again (`ToggleStep`).
- With resume on and loop off in canvas mode, once the resumed offset (the
  floored milliseconds of `elapsed`, line 161) is at or past the end, every
  `play` pauses again in its first tick. The player stays in that state, so
  it cannot be restarted (`ResumedPlayAfterEndPausesAtOnce`).
- A loop restart (lines 205-207) rewinds the video and restarts the clock,
  but leaves `elapsed` at the value the tick computed. When the restart
  came from the tick's own seek, that value is at or past the end. With
  resume on, a `pause` before the next tick (line 181) seeks the video back
  to that `elapsed`, so the rewind is undone and the video is parked at the
  end (`LoopRestartThenResumedPause`).

## Model

| member | source | states |
|---|---|---|
| `Utils.CreateSource` | app/scripts/CanvasVideoPlayer/utils/utils.js:12-18 | Fails (TypeError) exactly on null/undefined. A record's own `src` and `mime` become `src` and `type`, a missing key gives undefined, and nothing else is set. |
| `Utils.SourcesOf` | app/scripts/CanvasVideoPlayer/utils/utils.js:35-39 | The `forEach` succeeds iff no element is null/undefined. It then gives one source per element, in order, each equal to `createSource` of that element. |
| `Utils.PreparedSources` | app/scripts/CanvasVideoPlayer/utils/utils.js:27-49 | The case analysis. A string gives exactly one source with undefined `src`/`type`. A non-empty array gives one source per element in order. An empty array or an object with falsy `length` gives exactly one source from itself. An object with truthy `length` throws a TypeError, null throws a TypeError, and undefined, booleans and numbers throw "Could not parse source.". |
| `Utils.PrepareSources` | app/scripts/CanvasVideoPlayer/utils/utils.js:27-49 | The push loop returns exactly `PreparedSources(media)`, including the error cases. |
| `Utils.CreateVideo` | app/scripts/CanvasVideoPlayer/utils/utils.js:59-72 | `autoplay` false, `preload` "auto", `muted` true, `loop` as given, the children exactly the sources in order, and a load requested. |
| `Playback.Merge` | app/scripts/CanvasVideoPlayer/CanvasVideoPlayer.js:42-45 | Every option the caller gives overrides its default, and every option left out keeps its default (`id` stays undefined). |
| `Playback.DefaultOptions` | app/scripts/CanvasVideoPlayer/CanvasVideoPlayer.js:12-20 | Without options: 25 fps, no canvas, no resume, no loop, so the frame period is 0.04 s. |
| `Playback.FrameRate` | app/scripts/CanvasVideoPlayer/CanvasVideoPlayer.js:49 | The period times `fPS` is 1. It is positive for a positive rate and infinite (never reached) for a rate of 0. |
| `Playback.Initial` | app/scripts/CanvasVideoPlayer/CanvasVideoPlayer.js:50-54 | A fresh player is not playing, `elapsed` is 0, `startTime` and `lastUpdate` are null, a canvas exists iff canvas mode, both load listeners are bound, and no tick is pending. |
| `Playback.PauseStep` | app/scripts/CanvasVideoPlayer/CanvasVideoPlayer.js:175-185 | A no-op when not playing. Otherwise it stops, keeps `elapsed`, and changes only the video. Canvas mode seeks to `elapsed` (resume) or 0. Direct mode only pauses the element. |
| `Playback.PlayStep` | app/scripts/CanvasVideoPlayer/CanvasVideoPlayer.js:155-168 | A no-op when playing. Direct mode only plays the element and schedules no tick. Canvas mode runs the first tick on the started state, schedules one tick, and sets `elapsed` to the floored milliseconds already played (resume) or 0, plus the time since the play. |
| `Playback.ToggleStep` | app/scripts/CanvasVideoPlayer/CanvasVideoPlayer.js:142-148 | Pauses exactly when playing and plays otherwise. From rest it leaves the player playing unless a canvas-mode first tick already reached the end without loop. |
| `Playback.Started` | app/scripts/CanvasVideoPlayer/CanvasVideoPlayer.js:158-162 | Canvas-mode `play` before its first tick: playing, `lastUpdate` is the second reading, and `startTime` is the first reading moved back by the whole milliseconds already played (resume) or not moved. Nothing else changes. |
| `Playback.SeekStep` | app/scripts/CanvasVideoPlayer/CanvasVideoPlayer.js:195-202 | Always sets `elapsed = (t − startTime)·0.001`. It seeks the video there and sets `lastUpdate = t` only when a frame period has passed since `lastUpdate`. Otherwise the video and `lastUpdate` are unchanged. |
| `Playback.EndStep` | app/scripts/CanvasVideoPlayer/CanvasVideoPlayer.js:204-211 | Not at the end: nothing changes. At the end with loop: position 0 and `startTime = lastUpdate = ` the second reading. At the end without loop: exactly `pause`. |
| `Playback.UpdateStep` | app/scripts/CanvasVideoPlayer/CanvasVideoPlayer.js:192-214 | Stopped: nothing changes and nothing is rescheduled. Playing: it always reschedules, and the load bookkeeping is untouched. Below the end it keeps playing with the throttled seek. At the end with loop it keeps playing from 0 with the clock restarted. At the end without loop it pauses as `pause` does. |
| `Playback.TickStep` | app/scripts/CanvasVideoPlayer/CanvasVideoPlayer.js:193-213 | A pending tick of a stopped player only disappears. A playing player's tick replaces itself. |
| `Playback.DrawFrame` | app/scripts/CanvasVideoPlayer/CanvasVideoPlayer.js:221-226 | `onUpdate` is called once if it is a function, and nothing else changes. |
| `Playback.MetadataHandler` | app/scripts/CanvasVideoPlayer/CanvasVideoPlayer.js:98-106 | Unregisters itself and records the video's width, height and duration. In canvas mode the canvas gets exactly those dimensions. Nothing else changes: not playback, not the pending ticks, not the call counts. |
| `Playback.MetadataEvent` | app/scripts/CanvasVideoPlayer/CanvasVideoPlayer.js:87-106 | The element always takes the reported metadata. A report that reaches the registered handler also records the dimensions and duration and sizes the canvas, and changes nothing else. A report after the handler has gone changes only the element. |
| `Playback.CanPlayHandler` | app/scripts/CanvasVideoPlayer/CanvasVideoPlayer.js:114-122 | Unregisters itself and pauses the element. It calls `onLoad` once and, in canvas mode, draws one frame. Nothing else changes: not playback, not the dimensions, not the pending ticks. |
| `Playback.LoadEvent` | app/scripts/CanvasVideoPlayer/CanvasVideoPlayer.js:114-122 | While the handler is registered, a firing runs the can-play handler. Once it has gone, a firing changes nothing. |
| `Playback.TimeUpdateEvent` | app/scripts/CanvasVideoPlayer/CanvasVideoPlayer.js:90 | "timeupdate" draws a frame (one `onUpdate` call) in canvas mode and does nothing in direct mode. |
| `Playback.StepsPreserveConsistent` | app/scripts/CanvasVideoPlayer/CanvasVideoPlayer.js:86-226 | Every operation keeps the invariant. The canvas exists iff canvas mode. Canvas-mode playing has both clock readings. The dimensions are unknown until the metadata handler runs, and afterwards they are known and the canvas has them. `onLoad` has been called once if the load handler ran and `onLoad` is a function, and never otherwise. |
| `Playback.ToggleTwiceFromRest` | app/scripts/CanvasVideoPlayer/CanvasVideoPlayer.js:142-148 | From rest, if the first toggle leaves the player playing, the second stops it. In canvas mode the video then sits at `elapsed` (resume) or 0. In direct mode the element is paused. |
| `Playback.PauseThenPlayPosition` | app/scripts/CanvasVideoPlayer/CanvasVideoPlayer.js:155-185 | After pause then play, the first tick's `elapsed` is, with resume, the paused `elapsed` (less under 1 ms of flooring) plus the time since the play. Without resume it is only the time since the play. |
| `Playback.PauseThenPlayDoublesTicks` | app/scripts/CanvasVideoPlayer/CanvasVideoPlayer.js:155-214 | A pause then a play while one tick is pending leaves two ticks pending. |
| `Playback.EndWithoutLoopEndsChain` | app/scripts/CanvasVideoPlayer/CanvasVideoPlayer.js:204-213 | Without loop, the tick that reaches the end pauses but reschedules. The next tick changes nothing except consuming itself. |
| `Lifecycle.ReplayKeepsConsistent` | app/scripts/CanvasVideoPlayer/CanvasVideoPlayer.js:86-226 | After any history of calls, events and ticks, the player is still consistent. |
| `Lifecycle.ReplayLoadListener` | app/scripts/CanvasVideoPlayer/CanvasVideoPlayer.js:88-115 | The load handler is registered until the first load event of a history, and never again. |
| `Lifecycle.OnLoadAtMostOnce` | app/scripts/CanvasVideoPlayer/CanvasVideoPlayer.js:114-122 | For a new player and any history, `onLoad` is called at most once: exactly once if a load event came and `onLoad` is a function, and never otherwise. |
| `Lifecycle.ReplayMetadata` | app/scripts/CanvasVideoPlayer/CanvasVideoPlayer.js:87-106 | After any history, the recorded dimensions and duration are those of the first metadata report that reached the registered handler. Until such a report they are unchanged. |
| `Lifecycle.MetadataOnce` | app/scripts/CanvasVideoPlayer/CanvasVideoPlayer.js:98-106 | For a new player: the dimensions are unknown until the first report. From then on they are that report's, later reports do not change them, and in canvas mode the canvas has them. |
| `Playback.ResumedPlayAfterEndPausesAtOnce` | app/scripts/CanvasVideoPlayer/CanvasVideoPlayer.js:155-211 | Canvas mode with resume on and loop off: when the video and the resumed offset are at or past the end, `play` pauses again in its first tick. It leaves a state with the same conditions, so the player cannot be restarted. |
| `Lifecycle.FirstReport` | app/scripts/CanvasVideoPlayer/CanvasVideoPlayer.js:87-99 | The first metadata report of a history. It is a report of the history with no report before it, and it is absent iff the history has no report. |
| `Playback.LoopRestartThenResumedPause` | app/scripts/CanvasVideoPlayer/CanvasVideoPlayer.js:175-211 | With loop and resume on, a loop restart sets the position to 0, but a following `pause` parks the video at the tick's `elapsed`. When the restart was caused by the tick's own seek, that is at or past the end. |
| `Pacing.ThrottleSpacesSeeks` | app/scripts/CanvasVideoPlayer/CanvasVideoPlayer.js:197-202 | Over any run of ticks with a clock that never goes back, each throttled seek (line 200) comes at least a frame period after the previous one. The first comes at least a frame period after the run's starting `lastUpdate`. The run is made of ticks only. The property holds across loop restarts and the end-of-media pause, and calls of `play` or `pause` between ticks are not covered. The position writes of a loop restart (line 206) and of the end-of-media pause (line 181) are not throttled, and the lemma says nothing about them. |
| `Pacing.ConsecutiveSeeksFramePeriodApart` | app/scripts/CanvasVideoPlayer/CanvasVideoPlayer.js:197-202 | Any two consecutive throttled seeks (line 200) of a run are at least `1/fPS` seconds apart. |
| `Pacing.DefaultRateSeeksEvery40ms` | app/scripts/CanvasVideoPlayer/CanvasVideoPlayer.js:12-20 | With the default 25 fps, consecutive throttled seeks are at least 40 ms apart, however often the tick runs. |
| `Pacing.TickPairElapsed` | app/scripts/CanvasVideoPlayer/CanvasVideoPlayer.js:195-207 | For two consecutive ticks on a clock that does not go back: `elapsed` does not decrease while playing unless the first tick restarted the loop. After a restart it is the time since the restart's clock reading. |
| `Pacing.ElapsedNeverGoesBack` | app/scripts/CanvasVideoPlayer/CanvasVideoPlayer.js:195-207 | The same for every pair of consecutive ticks of any run with a clock that never goes back. |
| `Pacing.LoopNeverStops` | app/scripts/CanvasVideoPlayer/CanvasVideoPlayer.js:204-213 | With loop on, a playing player is still playing after any run, and each tick scheduled the next. |
| `Pacing.StoppedRunIsIdle` | app/scripts/CanvasVideoPlayer/CanvasVideoPlayer.js:193 | Ticks of a stopped player change nothing and seek nothing. |
| `Player.CanvasVideoPlayer.constructor` | app/scripts/CanvasVideoPlayer/CanvasVideoPlayer.js:42-91 | Sets the options, id and frame period (`1/fPS`). The fields are the initial state, a canvas exists in canvas mode, the listeners are bound, and the object invariant holds. |
| `Player.CanvasVideoPlayer.OnVideoMetaDataLoaded` | app/scripts/CanvasVideoPlayer/CanvasVideoPlayer.js:98-106 | The fields become `MetadataHandler` of the old fields, and the invariant is kept. |
| `Player.CanvasVideoPlayer.SetCanvasSize` | app/scripts/CanvasVideoPlayer/CanvasVideoPlayer.js:129-135 | The canvas takes the recorded width and height, and nothing else changes. |
| `Player.CanvasVideoPlayer.OnVideoCanPlay` | app/scripts/CanvasVideoPlayer/CanvasVideoPlayer.js:114-122 | Run as the registered listener: the fields become `CanPlayHandler` of the old fields, and the invariant is kept. |
| `Player.CanvasVideoPlayer.TogglePlayPause` | app/scripts/CanvasVideoPlayer/CanvasVideoPlayer.js:142-148 | The fields become `ToggleStep` of the old fields. |
| `Player.CanvasVideoPlayer.Play` | app/scripts/CanvasVideoPlayer/CanvasVideoPlayer.js:155-168 | The fields become `PlayStep` of the old fields, with the first tick run in place. |
| `Player.CanvasVideoPlayer.Pause` | app/scripts/CanvasVideoPlayer/CanvasVideoPlayer.js:175-185 | The fields become `PauseStep` of the old fields. |
| `Player.CanvasVideoPlayer.Update` | app/scripts/CanvasVideoPlayer/CanvasVideoPlayer.js:192-214 | The fields become `UpdateStep` of the old fields, including the nested `pause`. |
| `Player.CanvasVideoPlayer.DrawFrame` | app/scripts/CanvasVideoPlayer/CanvasVideoPlayer.js:221-226 | Only the `onUpdate` count changes, by one if it is a function. |
| `Player.CanvasVideoPlayer.LoadedMetadata` | app/scripts/CanvasVideoPlayer/CanvasVideoPlayer.js:87 | The element gets its metadata, and the bound handler runs while registered (`MetadataEvent`). |
| `Player.CanvasVideoPlayer.LoadEventFired` | app/scripts/CanvasVideoPlayer/CanvasVideoPlayer.js:88 | The configured event runs the can-play handler while it is registered (`LoadEvent`). |
| `Player.CanvasVideoPlayer.TimeUpdated` | app/scripts/CanvasVideoPlayer/CanvasVideoPlayer.js:90 | "timeupdate" draws a frame only in canvas mode (`TimeUpdateEvent`). |
| `Player.CanvasVideoPlayer.FireTick` | app/scripts/CanvasVideoPlayer/CanvasVideoPlayer.js:213 | A scheduled callback consumes one pending tick and runs `update` (`TickStep`). |
| `Player.PlayerFactory.constructor` | app/scripts/CanvasVideoPlayer/CanvasVideoPlayer.js:22 | The counter starts at 0. |
| `Player.PlayerFactory.Create` | app/scripts/CanvasVideoPlayer/CanvasVideoPlayer.js:39-71 | A falsy source throws "Source must be defined." and leaves the counter alone. Otherwise the counter advances iff no truthy `id` is given, even when `prepareSources` then throws. A rejected descriptor gives that error, and anything else gives a fresh valid player. Its id is the given one or the old counter, and it starts in the initial state. An element source gets `loop` set. A descriptor gets a built video holding exactly the prepared sources. |

## Left out

- Pixels: `clearRect`/`drawImage` in `drawFrame` and `setAttribute` in `setCanvasSize` are not modelled. A frame drawn is one `onUpdate` call, and the canvas is its width and height.
- Player.CanvasVideoPlayer.DrawFrame: requires canvas mode. Outside canvas mode the code has no 2D context and would throw, but only canvas mode ever calls it.
- Player.CanvasVideoPlayer.OnVideoCanPlay: requires the load listener to be registered. The code only runs this method as that listener (line 88), and the method removes the listener first (line 115). A direct call by an outside caller after the handler has gone would call `onLoad` again, and the model does not cover that.
- Player.CanvasVideoPlayer.SetCanvasSize: requires canvas mode. Outside it, `this.canvas` is undefined and line 130 would throw a TypeError. The only call (line 105) is guarded by canvas mode.
- `video.play()` (line 166) returns a promise that the browser may reject, for example under an autoplay policy. Then `playing` stays true while the element stays paused. The model takes the element as playing.
- `onLoad(this)` and `onUpdate(this)` may call back into the player. The model counts these calls but not what they do.
- The browser clamps `currentTime` to `[0, duration]` when it is set. Here the assigned value is kept as given.
- In direct mode the element plays natively, and its advancing `currentTime` is not modelled.
- A seek makes the element fire "timeupdate". Events are separate method calls (`LoadedMetadata`, `LoadEventFired`, `TimeUpdated`, `FireTick`), and their timing and interleaving are not constrained. So no lemma counts `onUpdate` calls per simulated second.
- A `loadEvent` option of "loadedmetadata" would run both handlers on one event. `LoadEventFired` stands for the configured event only.
- IEEE floating point: times, `elapsed`, `1/fPS` and `floor(elapsed*1000)` are exact reals. NaN or infinite rates and durations (live streams), and -0, are not modelled.
- The caller may keep a reference to an element it passes in. The model copies the element as a value, so later outside changes to it are not seen.
- JavaScript values: functions, prototypes, getters, array holes (which `forEach` skips) and array-like objects with their own `forEach` are not values here. Option values are typed (`canvas`, `loop` and `resume` are booleans), and an option given explicitly as `undefined` is not distinguished from a missing one.
- The DOM turns an undefined `src`/`type` into a string. Here the `<source>` record keeps the assigned value.
- The `bind` calls (lines 56-62) have no counterpart. Methods are always called on their own object.
- `Pacing.Run` applies `update` once per clock reading. The pending-tick count is tracked by the state, but a run does not check that a tick was pending.
- The three.js scene, texture, stereo effect, controls, render loop, asset loading and bootstrap (`App.js`, `index.js`, `Camera.js`, `WebGLRenderer.js`, `Scene.js`) and the build configuration are not part of this model.
