# M5StickC web radio: shared-state coordinator

This project models the coordination core of the M5StickC web radio sketch.
Two tasks share a set of global variables and talk to each other only
through flags:

- the **audio task** (`audioProcessing`) applies a requested volume. It then
  handles a requested station change: stop, mute the amplifier, connect,
  record the buffer state. It gates the amplifier on the buffer fill level,
  flags a stalled stream after 3000 ms, and finally lets the decoder run;
- the **UI task** (`loop()`) reacts to the buttons. Button B switches once
  and for good to Bluetooth A2DP sink mode. Button A selects the next of
  the six stations. Without a press, the task fades the volume in by a
  quarter step per cycle. It then consumes the display dirty flags and
  scrolls the stream title;
- the decoder library's callbacks `audio_showstation` and
  `audio_showstreamtitle` store the station name and the stream title and
  raise their dirty flags.

Layout:

- `radio_state.dfy` (module `RadioState`): the globals as the value
  `Globals`, the constants, the library calls a cycle makes (`Call`), the
  state invariant `Inv` and the predicates saying which fields each task
  owns.
- `audio_task.dfy` (module `AudioTask`): one audio pass as the function
  `AudioStep`, built from its phases, plus runs of the audio task alone.
- `ui_task.dfy` (module `UiTask`): one UI cycle as the function `UiStep`,
  built from its phases, plus the two callbacks.
- `schedule.dfy` (module `Schedule`): any interleaving of audio passes, UI
  cycles and callbacks, each taken as one atomic step, and the properties
  that hold of every such run.
- `app.dfy` (module `App`): the class `WebRadio`, whose fields are the
  globals. Its methods update them in place, in the order the sketch does.
  Each cycle method (an audio pass, a UI cycle, a callback, and their
  phases) is proved to produce exactly the state, and where it makes
  library calls the calls, that its step function describes. The small
  helpers they are built from (`RecordConnectResult`, `RecordBufferState`,
  `TurnDownVolume`, `AdvanceStation`, `EraseTexts`) state their new state
  directly, field by field.

What the hardware and the libraries report is passed in as a parameter:

- `AudioInput` carries the connect result, the buffer counts, the two
  clock readings and the fill count after the decoder ran;
- `UiInput` carries the button edges and the measured title width;
- the display width is passed as `screenWidth`.

Every call that acts on the decoder, the amplifier or the Bluetooth sink is
recorded, in order, as a `Call`. The queries (the buffer counts
`inBufferFilled` and `inBufferFree`, the clock `millis()`, the title width
`textWidth`) are inputs and are not recorded.

The float fade accumulator `volumeCurrentF_` only ever holds multiples of
0.25. It is therefore counted in quarter steps (`volumeQuarters`), and the
truncating cast to `uint8_t` becomes `volumeQuarters / 4`.

The test `filled > 0.9f * size` is modelled as `10 * filled > 9 * size`.

`millis() - timeConnect_` is an unsigned 64-bit subtraction. It is modelled
with its wrap-around: a clock reading behind the connect time counts as a
very long delay.

Notes on how the sketch behaves, which the model follows:

- **Mode switch.** Button B switches from radio to Bluetooth in place,
  within the running program. Nothing switches back to radio mode, and the
  choice is not stored anywhere. `BluetoothIsFinal` states the one-way
  switch.
- **Buttons.** The sketch reads only buttons A and B. It has no pause or
  resume and no handling of the power key. WiFi is joined once, at boot.
- **Two writers per text.** The station name and the stream title each have
  two writers. Button A blanks them in the UI task. The callbacks set them
  from the decoder, which runs inside the audio task.
- **Every press of A counts.** Button A carries no station index; every
  press advances the station once more (`StationAdvancesPerPress`). The
  change request is a plain boolean, so presses made before the audio task
  runs still lead to only one connect, to the station selected last.
- **Failed connect.** A failed connect leaves `timeConnect_` unchanged. The
  stall check after it measures from the previous connect. Because the
  error flag is already raised, it does not log.
- **Primed buffer clears the error.** A primed buffer clears the error flag
  in the same step that unmutes. An error therefore also ends without a
  new station change.
- **Catalog size.** The sketch computes `kNumStations` from the size of the
  catalog. The model writes the count as 6, and `CatalogSize` proves that
  the catalog has exactly that many entries.

## Model

| member | source | states |
|---|---|---|
| RadioState.Init | src/M5StickC_WebRadioApp.cpp:48-112 | At boot: radio mode, station 0, a station change and a volume update pending, muted, no error, volume 0 with normal volume 21; the invariant holds for any display at least as wide as the boot width |
| RadioState.CatalogSize | src/M5StickC_WebRadioApp.cpp:21-31 | The station count used for the modulus is exactly the number of stream URLs in the catalog |
| RadioState.ElapsedMs | src/M5StickC_WebRadioApp.cpp:183 | The time since connecting is the plain difference when the clock has not wrapped; a clock reading behind the connect time counts as more than the 3000 ms grace period |
| AudioTask.ApplyVolume | src/M5StickC_WebRadioApp.cpp:142-145 | A requested volume is handed to the decoder as the one call of this phase and the request flag is cleared; without a request there is no call; no other field changes |
| AudioTask.ChangeStation | src/M5StickC_WebRadioApp.cpp:147-172 | A pending change is consumed whatever the outcome. It stops the song, mutes and connects to the selected station's URL. The error is raised exactly when connecting fails, and only a successful connect records the connect time. The buffer size becomes free plus filled. No UI-owned field or text changes. Without a pending change, nothing happens |
| AudioTask.PrimingGate | src/M5StickC_WebRadioApp.cpp:174-190 | While muted, the mute stays on exactly while the buffer is not primed. A primed buffer unmutes the amplifier and clears the error. An unprimed one raises the error once the grace period has passed. The buffer-low log fires exactly on the error's false-to-true edge. Only mute and error change |
| AudioTask.AudioStep | src/M5StickC_WebRadioApp.cpp:134-199 | In A2DP mode the pass changes nothing and calls nothing. In radio mode it clears the volume and station flags, and it sets the volume exactly when one was requested. It connects exactly when a change was pending, and the decoder runs last. Afterwards the mute is on exactly when the relevant buffer is unprimed, and the error after a change is a failed connect or a timeout. UI-owned fields and texts are untouched |
| AudioTask.AudioRun | src/M5StickC_WebRadioApp.cpp:134-199 | Any number of audio passes leave the UI-owned fields and the displayed texts unchanged |
| AudioTask.StreamErrorPersists | src/M5StickC_WebRadioApp.cpp:175-189 | Once raised, the stream error and the mute stay on through any number of audio passes without a station change in which the buffer never primes |
| UiTask.PressButtonA | src/M5StickC_WebRadioApp.cpp:308-326 | Button A sets volume and fade accumulator to 0 and selects station (index + 1) mod 6. It raises the volume, station-change and both display flags and blanks both texts. Audio-owned fields and the title scroll are unchanged |
| UiTask.RampVolume | src/M5StickC_WebRadioApp.cpp:328-333 | The fade adds a quarter and raises the volume flag exactly while unmuted and below normal volume. The volume stays the truncated accumulator, never decreases and never passes the normal volume |
| UiTask.RefreshDisplay | src/M5StickC_WebRadioApp.cpp:342-388 | With the error banner up nothing is consumed. Otherwise both dirty flags are cleared. A new title restarts at the screen width with width min(text width, 1000). An old title moves one pixel left and wraps to the screen width once past its own width. The title stays within [-width, screen width] |
| UiTask.UiStep | src/M5StickC_WebRadioApp.cpp:281-391 | In A2DP mode the cycle changes nothing. Button B in radio mode switches to A2DP and stops the song, configures the I2S pins and starts the sink. Button A has its effects and suppresses the fade. Without A, station, texts and change flag are kept and the fade adds a quarter while ramping. Audio-owned fields are never written, the invariant is kept, and without A the volume does not decrease |
| UiTask.OnShowStation | src/M5StickC_WebRadioApp.cpp:403-408 | The station name becomes the reported text with its dirty flag raised; nothing else changes |
| UiTask.OnShowStreamTitle | src/M5StickC_WebRadioApp.cpp:409-414 | The stream title becomes the reported text with its dirty flag raised; nothing else changes |
| Schedule.Run | src/M5StickC_WebRadioApp.cpp:316 | Through any interleaving of passes, cycles and callbacks the station index stays inside the catalog |
| Schedule.ApplyKeepsInv | src/M5StickC_WebRadioApp.cpp:305-388 | Each event keeps the invariant and the normal volume, and only button A lowers the volume |
| Schedule.RunKeepsInv | src/M5StickC_WebRadioApp.cpp:305-388 | Any run from a state satisfying the invariant keeps it and keeps the normal volume |
| Schedule.ReachableStatesKeepInv | src/M5StickC_WebRadioApp.cpp:84-99 | Every state reachable from boot satisfies the invariant and its volume is at most 21 |
| Schedule.BluetoothIsFinal | src/M5StickC_WebRadioApp.cpp:285-303 | Once in A2DP mode, no run returns to radio mode |
| Schedule.BluetoothTasksIdle | src/M5StickC_WebRadioApp.cpp:136-139 | In A2DP mode any sequence of audio passes and UI cycles leaves the state exactly as it was |
| Schedule.UnmuteNeedsPrimedBuffer | src/M5StickC_WebRadioApp.cpp:175-180 | The only event that lifts the mute is an audio pass in radio mode, and it needs a primed buffer: the buffer just measured after connecting if a change was pending, the stored one otherwise |
| Schedule.StationStep | src/M5StickC_WebRadioApp.cpp:305-317 | An event without button B keeps radio mode and advances the station by one exactly on button A |
| Schedule.AdvancedIsModular | src/M5StickC_WebRadioApp.cpp:316 | n presses, each advancing the index modulo 6, advance it by n modulo 6 |
| Schedule.StationFollowsPresses | src/M5StickC_WebRadioApp.cpp:305-317 | Without button B a run stays in radio mode and the index is the starting index advanced once per press of A |
| Schedule.StationAdvancesPerPress | src/M5StickC_WebRadioApp.cpp:316 | Without button B the index after a run is (start + number of A presses) mod 6 |
| Schedule.StationKeptWithoutPresses | src/M5StickC_WebRadioApp.cpp:305-317 | A run in radio mode with no press of A or B ends on the station it started on, through any interleaving of passes, cycles and callbacks |
| Schedule.VolumeMonotoneBetweenPresses | src/M5StickC_WebRadioApp.cpp:328-333 | Between presses of A the volume never decreases and stays at most the normal volume, through any interleaving |
| Schedule.FadeInReachesNormal | src/M5StickC_WebRadioApp.cpp:329-332 | Unmuted, k quiet UI cycles bring the accumulator to min(start + k, 4 × normal) and the volume to that divided by 4, which reaches the normal volume exactly and never overshoots |
| App.WebRadio.constructor | src/M5StickC_WebRadioApp.cpp:48-112 | The object starts with the declared initial values |
| App.WebRadio.AudioCycle | src/M5StickC_WebRadioApp.cpp:134-199 | The in-place audio pass yields the state and the calls of `AudioStep`, and in radio mode leaves both request flags cleared |
| App.WebRadio.ApplyPendingVolume | src/M5StickC_WebRadioApp.cpp:142-145 | The in-place volume phase yields the state and the calls of `ApplyVolume` |
| App.WebRadio.ProcessStationChange | src/M5StickC_WebRadioApp.cpp:148-172 | The in-place station-change phase yields the state and the calls of `ChangeStation` |
| App.WebRadio.RecordConnectResult | src/M5StickC_WebRadioApp.cpp:158-167 | The change flag is cleared, the error records the outcome, and only success stores the connect time |
| App.WebRadio.RecordBufferState | src/M5StickC_WebRadioApp.cpp:170-171 | The fill count is stored and the size becomes free plus filled |
| App.WebRadio.GateOnBuffer | src/M5StickC_WebRadioApp.cpp:175-190 | The in-place gate yields the state and the calls of `PrimingGate` |
| App.WebRadio.RunAudioTask | src/M5StickC_WebRadioApp.cpp:134-199 | The task loop, run for one pass per input, ends in the state of `AudioRun`; the station index is untouched |
| App.WebRadio.UiCycle | src/M5StickC_WebRadioApp.cpp:281-391 | The in-place UI cycle yields the state and the calls of `UiStep` and keeps the invariant |
| App.WebRadio.NextStation | src/M5StickC_WebRadioApp.cpp:308-326 | Button A in place yields the state of `PressButtonA` |
| App.WebRadio.TurnDownVolume | src/M5StickC_WebRadioApp.cpp:310-313 | Volume and accumulator become 0 and the volume flag is raised; nothing else changes |
| App.WebRadio.AdvanceStation | src/M5StickC_WebRadioApp.cpp:315-317 | The index becomes (index + 1) mod 6 and the change flag is raised; nothing else changes |
| App.WebRadio.EraseTexts | src/M5StickC_WebRadioApp.cpp:319-325 | Both texts are blanked and both display flags raised; nothing else changes |
| App.WebRadio.FadeInStep | src/M5StickC_WebRadioApp.cpp:328-333 | The in-place fade step yields the state of `RampVolume` |
| App.WebRadio.UpdateDisplay | src/M5StickC_WebRadioApp.cpp:342-388 | The in-place display phase yields the state of `RefreshDisplay` |
| App.WebRadio.ShowStation | src/M5StickC_WebRadioApp.cpp:403-408 | The callback in place yields the state of `OnShowStation` |
| App.WebRadio.ShowStreamTitle | src/M5StickC_WebRadioApp.cpp:409-414 | The callback in place yields the state of `OnShowStreamTitle` |

## Left out

- Rendering: all display and sprite drawing, the volume read-out and the error banner. Only the state the drawing code reads and writes is modelled. The title width the sprite measures is an input.
- WiFi setup and its busy-wait until connected, the startup screen, and the audio library's pin and volume setup in `setup()`. These are one-off hardware initialisation.
- The internals of the audio decoder library (`connecttohost`, `loop`, `stopSong`, `setVolume`, `inBufferFilled`, `inBufferFree`) and of the Bluetooth sink. The calls that act on them are recorded as `Call` values. Their results, and the results of the queries, are inputs.
- `setAudioShutdown`: its body is commented out in the sketch. Only the intended on/off is recorded, as an `AudioShutdown` call.
- Task creation, `vTaskDelay` and the real interleaving of the two tasks. Each audio pass and each UI cycle is one atomic step. The unlocked sharing of flags between the tasks is not modelled.
- The decoder callbacks run inside `audio_.loop()` during an audio pass. The model treats each one as a separate event between steps.
- Serial logging other than the buffer-low message, the empty callbacks, and `M5.update()`.
- RadioState.Primed: the threshold is the exact `filled > 0.9 × size`. The float product's rounding for very large `uint32_t` sizes is not modelled.
- RadioState.ElapsedMs: `millis()` is a 32-bit counter that wraps after about 49 days. The model takes the clock readings as unbounded naturals.
- The widths of `uint8_t`, `uint32_t` and `int16_t` are not modelled. Within the invariant, the station index stays below 6 and the volume below 22, and the title position stays between -1000 and the screen width. None of these can wrap.
- Schedule.ReachableStatesKeepInv: the title part of the invariant assumes the boot-time display width is at most the width in use. The sketch reads the width before rotating the display.
