# BioUtils LED scheduler, modelled in Dafny

This project models the LED animation scheduler of `BioUtils`, a helper library for
microcontroller firmware. One `LEDManager` owns one output pin. It holds one
`Animation`, a named, identity-bearing sequence of `(state, msDuration)` frames, and it
runs a background task that steps through the frames. When a frame's time is up the task
advances, and when the animation cannot change it parks. Installing a new animation resets
the frame position, drives the pin to the new first frame and wakes a parked or sleeping
task.

The model is split by component:

- `machine_ints.dfy`: the fixed-width integer types of the source (`u8`, `u16`, `u32`, `u64`).
- `mod_arith.dfy`: facts about `%` that the proofs below need.
- `uuid.dfy`: the 16-byte identity. It is built from two 64-bit random draws copied in
  little-endian order. The module also holds the `==` / `!=` comparisons.
- `animation.dfy`: `LEDState`, `AnimationFrame`, and `Animation` as an immutable value with
  at most 255 frames. It also holds the constructors and the getters, including the
  wrapping `getFrame`.
- `presets.dfy`: the `Off`, `On`, `Blink` and `DoubleBlink` presets and the default pin.
- `timing.dfy`: the clock arithmetic of the loop (elapsed time, `calcTime`, `msToTick`).
- `schedule.dfy`: a frame position (`index`, cached frame, start time) and the pure rules
  that move it. The manager's methods are proved against these rules.
- `led_manager.dfy`: the `LEDManager` class, the pin registry `usedPins`, and one iteration
  of `threadedLoop`, split into `Decide` (up to the park or sleep) and `Wake` (marking the
  task Running again).
- `scenarios.dfy`: whole runs built from the method contracts. These are the Blink cycle,
  parking on the Off preset, re-installing the same animation, and the pin-registry
  findings below.

How external things are represented:

- Time is a `u32`, as `unsigned long` is 32 bits on the targets. Elapsed time is computed
  modulo 2^32, so a clock that has wrapped is handled.
- `long` is 32 bits as well, so `calcTime` is the two's-complement reading of
  `(msDuration - elapsed) mod 2^32`.
- The loop reads `millis()` three times. These are three separate parameters `t1`, `t2`
  and `t3`. No order between them is assumed, because all the arithmetic wraps.
- FreeRTOS tasks appear only through their effect on `hasTask` and `taskState`.
- GPIO appears only as `ledState` (the level last written) and `pinConfigured` (whether
  `pinMode` has been called).
- The scheduler tick period (`portTICK_PERIOD_MS`) is a positive parameter.
- Every random identity is a parameter. The four presets take eight start-up draws; the
  model fixes one outcome, `(k, 0)` for the k-th preset, written out as 16 bytes
  (`Presets.SmallDrawIdentity` shows that this is what the UUID constructor makes of such
  draws). Each scenario takes the identity drawn for its managers' own default Animation as
  a parameter.

Where the code does something other than its names and comments suggest, the model follows
the code:

- `usedPins` is a registry of claimed pins, but `setup` checks the member pin (still 0)
  rather than the requested one and claims nothing (see Findings).
- `frameCount` may be 0: the default constructor makes a 0-frame Animation, and a fresh
  manager holds one. `Valid()` allows this state with frame index 0.
- The comment at include/BioUtils.h:106 says the constructor marks the identity as a
  version-4 UUID. The two bit expressions there discard their results, so the bytes are
  exactly the two draws (`Uuid.NewUUID`).

## Model

| member | source | states |
|---|---|---|
| `Uuid.ValueOfLittleEndian` | include/BioUtils.h:104-105 | the bytes `memcpy` copies out of a value give that value back, whenever it fits in the byte count |
| `Uuid.NewUUID` | include/BioUtils.h:102-110 | bytes 0..7 of a new UUID read back as the first 64-bit draw and bytes 8..15 as the second, unmodified: the version-bit expressions change nothing |
| `Uuid.NewUUIDInjective` | include/BioUtils.h:102-110 | two UUIDs are the same token exactly when both of their draws are the same |
| `Uuid.EqualAsWritten` | include/BioUtils.h:111-113 | `==` as written holds exactly when bytes 0..14 agree |
| `Uuid.EqualAsWrittenIgnoresLastByte` | include/BioUtils.h:111-113 | as written, `==` compares only bytes 0..14, so two ids that differ only in byte 15 compare equal |
| `Uuid.Equal` | include/BioUtils.h:111-113 | the intended `==` (all 16 bytes) holds exactly when the two identities are the same token |
| `Uuid.NotEqual` | include/BioUtils.h:114-116 | `!=` is exactly the negation of `==`, so it holds exactly for different tokens |
| `Animations.AnimationBounds` | include/BioUtils.h:91-96 | an Animation has at most 255 frames (the `u_int8_t` count), and each frame lasts 0..65535 ms (`uint16_t`) |
| `Animations.DefaultAnimation` | src/BioUtils.cpp:13 | the default-constructed Animation has frame count 0, an empty name and its own identity |
| `Animations.NewAnimation` | src/BioUtils.cpp:14-17 | the constructed Animation holds exactly `frameCount` frames, the leading frames of the caller's array in order, with the given name and identity |
| `Animations.GetName` | src/BioUtils.cpp:41-43 | `getName` returns the stored name |
| `Animations.GetFrameCount` | src/BioUtils.cpp:45-47 | `getFrameCount` is the number of frames held, at most 255 |
| `Animations.NewAnimationGetters` | src/BioUtils.cpp:14-17 | for an Animation built from `(frames, n, name)` with n >= 1, `getFrameCount` is n, `getName` is name, and `getFrame(i)` is `frames[i % n]` |
| `Animations.GetFrame` | src/BioUtils.cpp:49-51 | `getFrame` needs a non-zero frame count and always returns one of the Animation's frames, for any index |
| `Animations.GetFrameWraps` | src/BioUtils.cpp:49-51 | wrap-around law: `getFrame(i) == getFrame(i + k*n)` for every `u_int8_t` index `i + k*n` |
| `Presets.StaticPresets` | include/BioUtils.h:63-65 | the Off and On presets are each one frame of duration 0, in state Off and On, whatever index is asked |
| `Presets.BlinkPreset` | include/BioUtils.h:67-70 | Blink has two frames: even indices are Off for 500 ms and odd indices are On for 500 ms |
| `Presets.DoubleBlinkPreset` | include/BioUtils.h:72-77 | DoubleBlink is Off 700, On 100, Off 100, On 100, and its declared count 4 is the whole array |
| `Presets.SmallDrawIdentity` | include/BioUtils.h:102-105 | draws `(x, 0)` with `x < 256` make the identity whose byte 0 is `x` and whose other 15 bytes are 0 |
| `Presets.PresetsDistinct` | include/BioUtils.h:144-147 | no two of the four presets share an identity |
| `Presets.PresetNames` | include/BioUtils.h:144-147 | the four presets carry the names OffBuiltin, OnBuiltin, BlinkBuiltin and DoubleBlinkBuiltin |
| `Timing.Elapsed` | src/BioUtils.cpp:91 | elapsed time is `now - start` when the clock has not wrapped, and `now + 2^32 - start` when it has; start plus elapsed is now, modulo 2^32 |
| `Timing.ToSigned32` | src/BioUtils.cpp:95 | storing an `unsigned long` into a `long` gives a value in the signed 32-bit range that is congruent to it modulo 2^32 |
| `Timing.CalcTime` | src/BioUtils.cpp:95 | `calcTime` is the time left in the frame; it is positive exactly when the frame has not run out, or has overrun by more than 2^31 ms |
| `Timing.MsToTick` | src/BioUtils.cpp:67-69 | `msToTick` is the number of whole tick periods in the milliseconds, rounding down |
| `Schedule.Install` | src/BioUtils.cpp:166-170 | installing an animation puts the position at frame 0, caches that frame, and restarts the frame clock at now |
| `Schedule.Advance` | src/BioUtils.cpp:58-65 | `nextFrame` moves the index to `(index + 1) % frameCount`: the next frame, or 0 after the last. The cached frame stays that frame, the start time is now, and `index < frameCount` is preserved |
| `Schedule.Parks` | src/BioUtils.cpp:82 | a position that does not park has at least two frames to cycle through, and its frame has expired once its duration plus 1 ms has passed since it started |
| `Schedule.Expired` | src/BioUtils.cpp:91 | a frame has expired exactly when its duration is non-zero and the time since its start, counted across a wrap of the clock, strictly exceeds it |
| `Schedule.Step` | src/BioUtils.cpp:89-93 | a loop step advances by at most one frame, and only when elapsed time strictly exceeds a non-zero frame duration; otherwise position and start time are untouched |
| `Schedule.Remaining` | src/BioUtils.cpp:95 | the computed sleep time is never more than the frame's duration while the frame has not run out, and is positive only before the frame runs out (or after a 2^31 ms overrun) |
| `Schedule.AdvanceAll` | src/BioUtils.cpp:58-60 | any number of successive advances keeps the index within the frames and the cached frame equal to `frames[index]` |
| `Schedule.AdvanceAllIndex` | src/BioUtils.cpp:59 | after k advances the index is `(index + k) % frameCount` |
| `Schedule.FullCycle` | src/BioUtils.cpp:59-60 | frameCount advances bring the manager back to the frame it started from |
| `Schedule.InstalledParks` | src/BioUtils.cpp:82 | a freshly installed animation parks the loop exactly when it has one frame or its first frame lasts 0 ms |
| `LedManagers.NewPinRegistry` | include/BioUtils.h:61 | the pin registry has exactly 128 slots, all initially false |
| `LedManagers.LEDManager.constructor` | src/BioUtils.cpp:125 | a fresh manager has index 0, start time 0, pin 0, and ledState false. It is not set up, its pin is not invalid, it has no task, and `taskState` is Invalid. It holds the default 0-frame Animation, and its invariant holds |
| `LedManagers.LEDManager.Destroy` | src/BioUtils.cpp:127-130 | destruction drives the pin Off and sets `usedPins[ledPin]` to false, leaving every other slot as it was |
| `LedManagers.LEDManager.DestroyChecked` | src/BioUtils.cpp:127-130 | corrected destructor: a set-up manager drives its pin Off and releases exactly its slot; a manager that was never set up changes neither the pin level nor the registry |
| `LedManagers.LEDManager.SetLED` | src/BioUtils.cpp:53-56 | the remembered level becomes the level of the state written |
| `LedManagers.LEDManager.SetTaskState` | src/BioUtils.cpp:71-74 | the task state becomes the given state |
| `LedManagers.LEDManager.NextFrame` | src/BioUtils.cpp:58-65 | the position becomes `Schedule.Advance` of the old position at now, the pin shows the new frame's state, and the invariant is kept |
| `LedManagers.LEDManager.Start` | src/BioUtils.cpp:109-122 | on a set-up manager with a valid pin, the task exists afterwards and is Running |
| `LedManagers.LEDManager.SetAnimation` | src/BioUtils.cpp:157-198 | same identity: nothing changes. Different identity: the animation is replaced and the position is `Schedule.Install(new, now)`. `ledState` becomes frame 0's level only when set up with a valid pin. Suspended or Blocked become Running only when set up, valid and with a task; any other task state is untouched. The invariant is kept |
| `LedManagers.LEDManager.GetAnimation` | src/BioUtils.cpp:201-206 | returns the installed Animation |
| `LedManagers.LEDManager.Setup` | src/BioUtils.cpp:132-153 | a second call aborts and changes nothing. If the member-pin check fails, `invalidPin` is set, the call returns false, and set-up state, task, animation and `usedPins` are untouched. Otherwise the pin is the argument, the manager is set up and valid, the animation is installed as by `setAnimation`, the task is Running, and `usedPins` is unchanged |
| `LedManagers.LEDManager.SetupChecked` | src/BioUtils.cpp:132-153 | corrected setup: a second call aborts and changes nothing. Otherwise it succeeds exactly when the requested pin is below 128 and unclaimed. On failure `invalidPin` is set and the registry, pin, level, task, animation and position are untouched. On success it claims exactly that slot, the manager is set up and valid, the animation is installed as by `setAnimation`, and the task is Running |
| `LedManagers.LEDManager.Decide` | src/BioUtils.cpp:79-103 | parking branch: when the frame lasts 0 ms or there are at most one frame, the task becomes Suspended and neither position nor pin changes. Otherwise the position becomes `Schedule.Step`, and the pin changes only when a frame was advanced. The task becomes Blocked with a sleep of `msToTick(calcTime)` exactly when `calcTime > 0`; otherwise it goes straight round |
| `LedManagers.LEDManager.Wake` | src/BioUtils.cpp:104-105 | however the task came back, it ends the iteration Running |
| `Scenarios.BlinkTimeline` | src/BioUtils.cpp:89-95 | Blink from time 0: at exactly 500 ms nothing advances and 0 ms remain. At 501 ms it moves to On with 500 ms to sleep, and 501 ms later it is back to Off |
| `Scenarios.BlinkCycle` | src/BioUtils.cpp:76-106 | a manager set up with Blink reads Off, Off at 500 ms, On at 501 ms and Off at 1002 ms, sleeping `500 / tickPeriod` ticks after each advance |
| `Scenarios.OffPresetParksUntilReplaced` | include/BioUtils.h:247 | `setup()` with its defaults takes pin 2 and the Off preset. The loop then parks with the pin Off, and installing Blink makes the task Running at once |
| `Scenarios.ReinstallKeepsClock` | src/BioUtils.cpp:163 | installing the animation already installed keeps the frame index and the frame's start time |
| `Scenarios.SharedPinAsWritten` | src/BioUtils.cpp:137 | as written, two managers that both set up on pin 5 both succeed |
| `Scenarios.OutOfRangePinAsWritten` | src/BioUtils.cpp:137-145 | as written, pin 200 is accepted although the registry has only 128 slots |
| `Scenarios.SharedPinChecked` | src/BioUtils.cpp:137 | with the corrected check, a second claim of pin 5 is refused, the first owner keeps its claim, and pin 200 is refused |
| `Scenarios.ReleaseUnownedPinAsWritten` | src/BioUtils.cpp:127-130 | as written, destroying a manager that was never set up releases pin 0 while another manager owns it, and a third manager's checked setup on pin 0 then succeeds |
| `Scenarios.ReleaseUnownedPinChecked` | src/BioUtils.cpp:127-130 | with the corrected destructor, the owner keeps pin 0 and the third manager is refused it |

## Left out

- Concurrency is not modelled. This covers the FreeRTOS task primitives (`xTaskCreate`, `vTaskSuspend`, `vTaskResume`, `xTaskAbortDelay`, `vTaskDelay`) and the two mutexes. Every operation is one atomic step, and the task primitives appear only as their effect on `hasTask` and `taskState`. Blocking and waking are events outside the model. The window between `setTaskState(eSuspended)` and `vTaskSuspend` in the loop, where a resume can be lost, is therefore not represented.
- `digitalWrite` and `pinMode` are hardware I/O. They appear as the `ledState` and `pinConfigured` fields.
- `millis()` is a hardware clock; its readings are parameters. `portTICK_PERIOD_MS` is a platform constant; it is a positive parameter of `Decide` and `MsToTick`.
- Random UUID generation (`std::mt19937_64`, `random_device`) is foreign randomness. The draws are parameters, and the preset identities use one fixed outcome.
- `Animation::text()` is diagnostic string rendering and is not modelled.
- Raw `new`/`delete` frame storage is memory management and is not modelled. Neither is the shallow implicit copy of `Animation`, which shares the frame buffer between copies. An Animation is an immutable value here.
- `TaskManager` is not modelled: it is incomplete and nothing uses it.
- The discarded `std::runtime_error` in `setup` has no effect, so it is not modelled.
- include/BioUtil.h only duplicates declarations and is not part of this model.
- `Animations.NewAnimation` requires `frameCount` to be at most the length of the caller's array. Otherwise `memcpy` reads past that array.
- `LedManagers.LEDManager.SetAnimation` requires a non-empty animation whenever it replaces the installed one. `getFrame` divides by the frame count. `Setup` and `SetupChecked` carry the same requirement, but only on the path that reaches `setAnimation`: a second call or a rejected pin needs nothing of the animation.
- `LedManagers.LEDManager.Destroy` requires `ledPin < 128`. For a larger pin, which `setup` accepts as written (see Findings), the source writes outside `usedPins`.
- `LedManagers.LEDManager.Start` requires a set-up manager with a valid pin instead of modelling its `abort()`. Its only caller has just established both, so that `abort()` cannot fire.
- `LedManagers.LEDManager.Setup` models `abort()` on a second call as the outcome `Aborted` with nothing changed. Termination of the process is not modelled.
- `Animations.GetFrameWraps` states the wrap-around law only for indices within the `u_int8_t` range, because that is the type of `getFrame`'s parameter.

## Findings

| source | as written | input that shows it | evidently intended | confidence | as-written member | corrected member |
|---|---|---|---|---|---|---|
| include/BioUtils.h:112 | `std::equal` runs from `uuid[0]` up to but not including `uuid[15]`, so only 15 of the 16 bytes are compared | two identities that agree on bytes 0..14 and differ in byte 15 compare equal | compare all 16 bytes | low (the line does not compile as written), not executed | `Uuid.EqualAsWrittenIgnoresLastByte` | `Uuid.Equal` |
| src/BioUtils.cpp:137 | `setup` checks the member `ledPin`, which is still 0 before a successful setup, with `> 128`. It never sets `usedPins[pin]` | two managers calling `setup(5, …)` both return true. `setup(200, …)` returns true, and the destructor then writes `usedPins[200]` | check the argument with `>= 128 \|\| usedPins[pin]` and claim the slot on success | high, not executed | `Scenarios.SharedPinAsWritten` | `LedManagers.LEDManager.SetupChecked` |
| src/BioUtils.cpp:127-130 | the destructor clears `usedPins[ledPin]` whether or not this manager was ever set up; before setup `ledPin` is 0 | one manager sets up on pin 0, a second manager that was never set up is destroyed, and pin 0 is free again while the first still drives it | only a manager that was set up releases its pin | medium, not executed | `Scenarios.ReleaseUnownedPinAsWritten` | `LedManagers.LEDManager.DestroyChecked` |

The identity comparison used throughout (`Animations.SameIdentity`) is the corrected
16-byte one. `LedManagers.LEDManager.Setup` remains the model of `setup` as written.
`LedManagers.LEDManager.SetupChecked` is the corrected version, and
`Scenarios.SharedPinChecked` shows it refusing a second claim. Likewise
`LedManagers.LEDManager.Destroy` models the destructor as written and
`LedManagers.LEDManager.DestroyChecked` the corrected one, shown keeping the owner's claim
in `Scenarios.ReleaseUnownedPinChecked`.
