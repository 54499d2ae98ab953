# Party Monster: the party sequencer and the quick-settings tile, in Dafny

Party Monster is an Android app that puts a phone into "party mode". A
foreground service (`PartyMonsterService`) runs a timer. On every tick it adds
one to a step counter and picks a main effect from `counter % 4`:

- 0: a disco vibration plus a brightness pulse;
- 1: a night-mode (accent colour) change;
- 2: a dance vibration whose waveform comes from `(counter / 4) % 3`;
- 3: no main effect.

Every tick then pulses the camera flashlight. A quick-settings tile
(`PartyMonsterTileService`) keeps a local "party time" flag. A click flips the
flag, shows it on the tile at once, and sends a start or stop command to the
service. If the start fails, the flag is put back.

This project models both controllers and proves what their code promises.
Platform calls are replaced by a log of effects:

- vibrate;
- brightness write;
- night-mode request;
- torch switch;
- volume write;
- post or cancel of the timer tick;
- stopSelf;
- tile update;
- service command.

The log records each call the code issues, even one that then throws. What an
exception changes in the controller's own fields is modelled exactly. The
platform's answers are parameters of the operations:

- whether a flash camera is found;
- whether the camera throws;
- whether a camera id exists when the torch is switched off;
- whether the foreground-service start throws.

Files:

- `KotlinInt.dfy`: Kotlin `Int` arithmetic. `++` wraps at 2^31 - 1, and `%` and
  `/` truncate toward zero. The file also holds the arithmetic lemmas the
  selection functions need.
- `Service.dfy`: two layers.
  - Pure specification functions: step, waveform, night-mode and torch
    selection; the pulse; tick, start, stop, destroy and the torch callback as
    transitions on a `ServiceState` record; runs of events.
  - The class `PartyMonsterService`. Its fields are the service's fields, and
    each method is proved to perform exactly its transition function.
  - Lemmas about runs of events.
- `Tiles.dfy`: the same two layers for the tile. The pure `Click`, `Start`,
  `Stop` and `Refresh` act on a `TileModel`. The class
  `PartyMonsterTileService` sets the `Tile` object's state and label in place.
- `Wrappers.dfy`: `Option`.

Facts the proofs establish that are not obvious from reading the code:

- The colour step runs only on odd counters, so `MODE_NIGHT_YES` is never
  requested. The `counter % 2 == 0` branch of `colorCrazy` is dead.
- The first step after a start runs with counter 1, which is the colour step.
- The desired torch state alternates on every tick. This holds across the
  32-bit wrap too, because `Int.MAX_VALUE` is odd and `Int.MIN_VALUE` is even.
- Vibration steps rotate through techno, house and drum roll.
- After the counter wraps to a negative value, truncating `%` selects only the
  disco step or nothing.
- Once the flashlight is disabled, it stays disabled, and the torch is never
  switched on again.
- The last volume the service writes on stop or destroy is 80.

The service stores the music volume it finds at creation, next to the
brightness (`PartyMonsterService.kt:67-72`), evidently so that both can be put
back. The brightness is put back by `stopParty`. The volume is not:
`stopParty` sets it to the constant 80 (`PartyMonsterService.kt:219-223`).
Only `onDestroy` writes the stored volume (`PartyMonsterService.kt:245-249`),
and it then calls `stopParty`, so the last volume written is 80 there too
(`StopLeavesVolume80`, `DestroyLeavesVolume80`).

## Model

| member | source | states |
|---|---|---|
| KotlinInt.Inc | app/src/main/java/com/kardani/partymonster/service/PartyMonsterService.kt:46 | `partyCounter++` yields a 32-bit value congruent to counter + 1 modulo 2^32. It is counter + 1 below `Int.MAX_VALUE`. |
| KotlinInt.Rem | app/src/main/java/com/kardani/partymonster/service/PartyMonsterService.kt:91 | Kotlin `%` by a positive constant lies strictly between -b and b. It agrees with Euclidean `%` on non-negative values and is non-positive on negative ones. With the division law stated on `Div`, this fixes the truncated remainder for every dividend. |
| KotlinInt.Div | app/src/main/java/com/kardani/partymonster/service/PartyMonsterService.kt:131 | Kotlin `/` agrees with Euclidean `/` on non-negative values and is non-positive on negative ones. The division law `a == b * (a / b) + a % b` holds with Kotlin's `%`, so quotient and remainder are the truncated ones for every dividend. |
| Service.StepOf | app/src/main/java/com/kardani/partymonster/service/PartyMonsterService.kt:91-96 | For counter >= 0 the step is disco, colour, vibration or none by `counter % 4`. A negative counter selects only disco or none, and disco exactly on multiples of 4. Colour implies an odd positive counter; vibration implies an even positive one. |
| Service.WaveformOf | app/src/main/java/com/kardani/partymonster/service/PartyMonsterService.kt:131-135 | For counter >= 0 the waveform is set by `counter % 12`: 0-3 techno, 4-7 house, 8-11 drum roll. A negative counter never gives house. |
| Service.NightModeOf | app/src/main/java/com/kardani/partymonster/service/PartyMonsterService.kt:119-121 | `MODE_NIGHT_YES` exactly for even counters, truncation notwithstanding. |
| Service.DesiredTorch | app/src/main/java/com/kardani/partymonster/service/PartyMonsterService.kt:150 | The pulse asks for the torch on exactly for even counters. |
| Service.MainEffects | app/src/main/java/com/kardani/partymonster/service/PartyMonsterService.kt:99-138 | A step never issues `MODE_NIGHT_YES`, a torch call or a re-post. Night mode is requested iff it is the colour step on a supporting device. No call is issued iff it is step 3 or an unsupported colour step. |
| Service.StepIssuesOnlyStepCalls | app/src/main/java/com/kardani/partymonster/service/PartyMonsterService.kt:91-138 | Every call a step issues is a vibration, the brightness pulse or `MODE_NIGHT_NO`. |
| Service.Created | app/src/main/java/com/kardani/partymonster/service/PartyMonsterService.kt:67-86 | After creation the service is idle with counter 0 and torch off. The flashlight is enabled and the torch callback registered exactly on a device with a flash. The original volume and brightness are kept. The invariant holds. |
| Service.Pulse | app/src/main/java/com/kardani/partymonster/service/PartyMonsterService.kt:140-160 | Only the flashlight fields change. Without a flashlight it is a no-op. A torch call, always to the desired state, is issued iff a flash camera is found and the torch differs from the desired state. The flashlight is disabled iff a camera exception occurs. A working camera leaves the torch in the desired state. The torch belief changes only by a successful torch call, and then to the desired state. |
| Service.PartyStep | app/src/main/java/com/kardani/partymonster/service/PartyMonsterService.kt:89-97 | The main effect comes first, then the flashlight pulse, always. Only the two flashlight fields can change, and night mode is never switched on. |
| Service.Tick | app/src/main/java/com/kardani/partymonster/service/PartyMonsterService.kt:43-51 | While partying, the counter is incremented before the step runs, with the new counter. The runnable is re-posted as the last call. Not partying: nothing changes and nothing is posted. The new state is the pulse's on the incremented counter, so nothing but the counter and the flashlight fields changes. It never requests `MODE_NIGHT_YES`, never re-enables the flashlight, and keeps the invariant. |
| Service.Stop | app/src/main/java/com/kardani/partymonster/service/PartyMonsterService.kt:207-235 | Only `isPartying` changes, to false. The calls are exactly: cancel the ticks, write the original brightness, write the volume 80, switch the torch off iff a camera id exists, stopSelf. So nothing is re-posted, and the last brightness written is the one read at creation. |
| Service.TorchOff | app/src/main/java/com/kardani/partymonster/service/PartyMonsterService.kt:225-231 | The torch-off attempt issues `SetTorch(false)` exactly when a camera id exists, and nothing else; it writes no volume. |
| Service.StartCommand | app/src/main/java/com/kardani/partymonster/service/PartyMonsterService.kt:162-175 | Start sets `isPartying`, resets the counter to 0 and posts a tick. Stop is `stopParty`. Any other action changes nothing. |
| Service.Destroy | app/src/main/java/com/kardani/partymonster/service/PartyMonsterService.kt:237-260 | The party ends. The calls are exactly: write the original volume, switch the torch off iff the flashlight is enabled, believed on and a camera id exists, then the calls of `stopParty`. The torch is never switched on. |
| Service.TorchChanged | app/src/main/java/com/kardani/partymonster/service/PartyMonsterService.kt:79-86 | The callback mirrors the reported torch state only where it was registered, and it keeps the invariant. |
| Service.StopLeavesVolume80 | app/src/main/java/com/kardani/partymonster/service/PartyMonsterService.kt:219-223 | The last volume written by `stopParty` is 80. |
| Service.DestroyLeavesVolume80 | app/src/main/java/com/kardani/partymonster/service/PartyMonsterService.kt:245-259 | The last volume written by `onDestroy` is 80, not the original volume (when they differ). |
| Service.Apply | app/src/main/java/com/kardani/partymonster/service/PartyMonsterService.kt:43-51 | Every event (command, tick, torch callback, destroy) keeps the invariant. |
| Service.Replay | app/src/main/java/com/kardani/partymonster/service/PartyMonsterService.kt:75-86 | After any run of events, the counter is a 32-bit value. A flashlight is enabled only where the torch callback is registered, and without the callback the torch is never believed on. |
| Service.DisabledFlashlightStaysDisabled | app/src/main/java/com/kardani/partymonster/service/PartyMonsterService.kt:155-158 | Once `hasFlashlight` is false, no run of events sets it again or switches the torch on. |
| Service.NeverNightYes | app/src/main/java/com/kardani/partymonster/service/PartyMonsterService.kt:113-122 | No run of events ever requests `MODE_NIGHT_YES`. |
| Service.StoppedTicksAreInert | app/src/main/java/com/kardani/partymonster/service/PartyMonsterService.kt:45-49 | When not partying, any number of ticks changes nothing and issues no call. |
| Service.TicksAdvanceCounter | app/src/main/java/com/kardani/partymonster/service/PartyMonsterService.kt:45-48 | While partying, n ticks without wrap add exactly n to the counter and keep the party on. |
| Service.FirstStepIsColour | app/src/main/java/com/kardani/partymonster/service/PartyMonsterService.kt:164-168 | After a start, the first tick runs with counter 1: the colour step. It issues `MODE_NIGHT_NO` if supported, then the pulse, then the re-post. |
| Service.DesiredTorchAlternates | app/src/main/java/com/kardani/partymonster/service/PartyMonsterService.kt:150 | The desired torch state flips with every increment, including the wrap from `Int.MAX_VALUE` to `Int.MIN_VALUE`. |
| Service.WorkingTorchTogglesEveryTick | app/src/main/java/com/kardani/partymonster/service/PartyMonsterService.kt:150-154 | With a working flash camera and a torch in step with the counter, each tick issues one torch call, to the opposite state, and stays in step. |
| Service.PulseIsIdempotent | app/src/main/java/com/kardani/partymonster/service/PartyMonsterService.kt:149-154 | After a successful pulse, pulsing again at the same counter issues no call, whatever the camera answers. |
| Service.VibrationStepsRotate | app/src/main/java/com/kardani/partymonster/service/PartyMonsterService.kt:131-135 | The vibration step after a vibration step uses the next waveform: techno, house, drum roll, techno. |
| Service.PartyMonsterService.constructor | app/src/main/java/com/kardani/partymonster/service/PartyMonsterService.kt:53-87 | `onCreate` sets the fields as `Created` describes, with an empty log. |
| Service.PartyMonsterService.Run | app/src/main/java/com/kardani/partymonster/service/PartyMonsterService.kt:43-51 | `partyRunnable.run` performs `Tick` on the fields and the log. It reports a re-post exactly when it was partying. |
| Service.PartyMonsterService.ExecutePartyStep | app/src/main/java/com/kardani/partymonster/service/PartyMonsterService.kt:89-97 | Performs `PartyStep`. |
| Service.PartyMonsterService.DiscoBeat | app/src/main/java/com/kardani/partymonster/service/PartyMonsterService.kt:99-111 | Issues the disco waveform `0,100,50,100,50,100` and a brightness pulse. |
| Service.PartyMonsterService.ColorCrazy | app/src/main/java/com/kardani/partymonster/service/PartyMonsterService.kt:113-127 | Issues the night mode of the counter, only on a supporting device. |
| Service.PartyMonsterService.VibrateParty | app/src/main/java/com/kardani/partymonster/service/PartyMonsterService.kt:129-138 | Issues the counter's dance waveform. |
| Service.PartyMonsterService.FlashlightPulse | app/src/main/java/com/kardani/partymonster/service/PartyMonsterService.kt:140-160 | Performs `Pulse`. |
| Service.PartyMonsterService.OnStartCommand | app/src/main/java/com/kardani/partymonster/service/PartyMonsterService.kt:162-175 | Performs `StartCommand` and keeps the invariant. |
| Service.PartyMonsterService.StopParty | app/src/main/java/com/kardani/partymonster/service/PartyMonsterService.kt:207-235 | Performs `Stop`. |
| Service.PartyMonsterService.OnDestroy | app/src/main/java/com/kardani/partymonster/service/PartyMonsterService.kt:237-260 | Performs `Destroy` and keeps the invariant. |
| Service.PartyMonsterService.OnTorchModeChanged | app/src/main/java/com/kardani/partymonster/service/PartyMonsterService.kt:80-85 | Performs `TorchChanged` and issues no call. |
| Tiles.FaceFor | app/src/main/java/com/kardani/partymonster/tiles/PartyMonsterTileService.kt:58-64 | The tile is `STATE_ACTIVE` iff party time. Its label is "PARTY ON! 🎉" iff party time and "Party Time?" iff not. |
| Tiles.Refresh | app/src/main/java/com/kardani/partymonster/tiles/PartyMonsterTileService.kt:12-19 | The flag is unchanged. A present tile shows the flag's face and is pushed once; an absent tile gets nothing. |
| Tiles.Start | app/src/main/java/com/kardani/partymonster/tiles/PartyMonsterTileService.kt:30-46 | The flag ends equal to "the start succeeded", and a present tile shows it. A present tile is pushed with the party face before the start command is sent, and after a failed start it is pushed again with the idle face. No stop command is sent. |
| Tiles.Stop | app/src/main/java/com/kardani/partymonster/tiles/PartyMonsterTileService.kt:48-56 | The flag is always false afterwards, since there is no failure path. A present tile shows it and is pushed with the idle face before the stop command, which is the only other call. |
| Tiles.Click | app/src/main/java/com/kardani/partymonster/tiles/PartyMonsterTileService.kt:21-28 | The new flag is "was not party time and the start succeeded". A present tile shows the new flag, and an absent tile gets no update while the flag still changes. Stop is sent when it was party time, start otherwise, and a present tile is pushed before the command is sent. |
| Tiles.ClickTwiceRestores | app/src/main/java/com/kardani/partymonster/tiles/PartyMonsterTileService.kt:21-56 | When starts succeed, two clicks restore the flag, and a present tile shows its face. |
| Tiles.TileMirrorsFlag | app/src/main/java/com/kardani/partymonster/tiles/PartyMonsterTileService.kt:30-64 | After any non-empty run of clicks, a present tile shows the controller's flag. |
| Tiles.FailingStartsNeverParty | app/src/main/java/com/kardani/partymonster/tiles/PartyMonsterTileService.kt:39-45 | If every start throws, the flag is false after any non-empty run of clicks. |
| Tiles.PartyMonsterTileService.constructor | app/src/main/java/com/kardani/partymonster/tiles/PartyMonsterTileService.kt:9-10 | The controller starts with the flag down, bound to the system's tile object (which may be absent), with an empty log. |
| Tiles.PartyMonsterTileService.OnStartListening | app/src/main/java/com/kardani/partymonster/tiles/PartyMonsterTileService.kt:12-19 | Performs `Refresh` on the flag, the tile object and the log. |
| Tiles.PartyMonsterTileService.OnClick | app/src/main/java/com/kardani/partymonster/tiles/PartyMonsterTileService.kt:21-28 | Performs `Click`. |
| Tiles.PartyMonsterTileService.StartParty | app/src/main/java/com/kardani/partymonster/tiles/PartyMonsterTileService.kt:30-46 | Performs `Start`, including the revert on a failed start. |
| Tiles.PartyMonsterTileService.StopParty | app/src/main/java/com/kardani/partymonster/tiles/PartyMonsterTileService.kt:48-56 | Performs `Stop`. |
| Tiles.PartyMonsterTileService.UpdateTileState | app/src/main/java/com/kardani/partymonster/tiles/PartyMonsterTileService.kt:58-64 | Sets the tile object's state and label in place from the flag, as `FaceFor` maps them, and pushes it. Without a tile nothing happens. |

## Left out

- The brightness value of the disco step, `sin(counter * 0.5) * 127 + 128`, is floating point. The model records only that the disco step writes a brightness (`PulseBrightness`).
- Handler scheduling, the 500 ms delay and the handler's queue are not modelled. A tick is one atomic transition, and posting or removing the runnable is an effect (`PostTick`, `CancelTicks`). As a result, the model does not show that a second start while partying posts a second runnable, after which two tick chains would run.
- MediaPlayer (create, start, pause, stop, release), the notification (`createNotification`, `startForeground`) and the `serviceStatus` LiveData are platform I/O without logic.
- The camera-id search is reduced to its outcome: a flash camera is found, none is found, or a call throws.
- Platform calls that the code does not wrap in try/catch are assumed to return normally. An exception there would end the process. These are the vibrator, the settings and audio writes, the reads of the volume and the brightness in `onCreate` (`Settings.System.getInt` throws when the setting is missing), `startForeground` in `onCreate` (`PartyMonsterService.kt:56`) and `startService` in the tile's `stopParty` (`PartyMonsterTileService.kt:55`).
- The logging calls (`Log.d`, `Log.e`, `printStackTrace`) have no effect on the controllers and are not modelled.
- `onStartCommand`'s return value `START_NOT_STICKY` and `onBind` are not modelled.
- The tile object is fixed when the controller is created (`qsTile` may be null). The model does not let it appear or vanish between calls.
- MainActivity.kt is not part of this model. It holds the Compose UI with its float colour animation, the permission requests and the tile-add request.
