/**
 * The party foreground service: a periodic step sequencer over four fields
 * (`isPartying`, `partyCounter`, `hasFlashlight`, `isFlashlightOn`) and the
 * lifecycle that starts and stops it.
 *
 * Every platform call the service issues (vibrator, settings provider, night
 * mode, camera torch, audio volume, handler, stopSelf) is recorded as an
 * `Effect` in a log. A call that then throws is still recorded; what the
 * exception changes in the service's own fields is modelled exactly.
 * The environment's answers (is a flash camera found, does the camera
 * throw, is there a camera id to switch off) are parameters.
 */
module Service {
  import opened KotlinInt
  import opened Wrappers

  // ---------------------------------------------------------------------
  // Commands, effects and constants
  // ---------------------------------------------------------------------

  /** The action of the intent handed to `onStartCommand`. */
  datatype Command = ActionStartParty | ActionStopParty | OtherAction

  /** `UiModeManager.MODE_NIGHT_YES` / `MODE_NIGHT_NO`. */
  datatype NightMode = NightYes | NightNo

  /** The three dance waveforms of the vibration step. */
  datatype Waveform = Techno | House | DrumRoll

  datatype Effect =
    | Vibrate(timings: seq<int>)      // vibrator.vibrate(createWaveform(timings, -1))
    | PulseBrightness                 // the disco step's sinusoidal SCREEN_BRIGHTNESS write
    | SetBrightness(level: int)       // SCREEN_BRIGHTNESS := level
    | SetNightMode(mode: NightMode)   // setApplicationNightMode(mode)
    | SetTorch(on: bool)              // cameraManager.setTorchMode(id, on)
    | SetVolume(index: int)           // setStreamVolume(STREAM_MUSIC, index, 0)
    | PostTick                        // handler.post / postDelayed(partyRunnable)
    | CancelTicks                     // handler.removeCallbacks(partyRunnable)
    | StopSelf                        // stopForeground(true); stopSelf()

  /** What the camera service answers during one flashlight pulse. */
  datatype CameraResponse =
    | NoFlashCamera                   // no camera id reports FLASH_INFO_AVAILABLE
    | LookupThrows                    // listing or inspecting the cameras throws
    | FlashFound(torchThrows: bool)   // a flash camera is found; setTorchMode may throw

  /** The music volume `stopParty` writes, whatever the volume was before. */
  const StopVolume: int := 80

  function DiscoPattern(): (timings: seq<int>) {
    [0, 100, 50, 100, 50, 100]
  }

  function Timings(w: Waveform): (timings: seq<int>) {
    match w
    case Techno => [0, 100, 50, 100, 50, 300]
    case House => [0, 200, 100, 200, 100]
    case DrumRoll => [0, 50, 50, 50, 50, 50]
  }

  function NextWaveform(w: Waveform): (next: Waveform) {
    match w
    case Techno => House
    case House => DrumRoll
    case DrumRoll => Techno
  }

  // ---------------------------------------------------------------------
  // Pure selection from the counter
  // ---------------------------------------------------------------------

  /** The main effect of a party step. */
  datatype Step = DiscoStep | ColorStep | VibrationStep | NoMainEffect

  /**
   * `when (partyCounter % 4)` with Kotlin's truncating `%`. For a
   * non-negative counter the step cycles disco, colour, vibration, nothing;
   * a negative counter (reachable only by wrap-around) never selects the
   * colour or vibration step. The colour step is only ever selected for an
   * odd counter.
   */
  function StepOf(counter: int): (r: Step)
    ensures counter >= 0 ==> r == [DiscoStep, ColorStep, VibrationStep, NoMainEffect][counter % 4]
    ensures counter < 0 ==> r == DiscoStep || r == NoMainEffect
    ensures counter < 0 ==> (r == DiscoStep <==> counter % 4 == 0)
    ensures r == ColorStep ==> counter > 0 && counter % 2 == 1
    ensures r == VibrationStep ==> counter > 0 && counter % 2 == 0
  {
    RemFour(counter);
    RemFourZero(counter);
    match Rem(counter, 4)
    case 0 => DiscoStep
    case 1 => ColorStep
    case 2 => VibrationStep
    case _ => NoMainEffect
  }

  /**
   * `when ((partyCounter / 4) % 3)`. For a non-negative counter the
   * waveform depends only on the counter modulo 12.
   */
  function WaveformOf(counter: int): (w: Waveform)
    ensures counter >= 0 ==> w == [Techno, Techno, Techno, Techno, House, House, House, House,
                                   DrumRoll, DrumRoll, DrumRoll, DrumRoll][counter % 12]
    ensures counter < 0 ==> w != House
  {
    QuarterModThree(counter);
    match Rem(Div(counter, 4), 3)
    case 0 => Techno
    case 1 => House
    case _ => DrumRoll
  }

  /** `if (partyCounter % 2 == 0) MODE_NIGHT_YES else MODE_NIGHT_NO`. */
  function NightModeOf(counter: int): (m: NightMode)
    ensures m == NightYes <==> counter % 2 == 0
  {
    RemTwo(counter);
    if Rem(counter, 2) == 0 then NightYes else NightNo
  }

  /** The torch state a pulse asks for: `partyCounter % 2 == 0`. */
  function DesiredTorch(counter: int): (on: bool)
    ensures on <==> counter % 2 == 0
  {
    RemTwo(counter);
    Rem(counter, 2) == 0
  }

  /**
   * The platform calls of the step selected by the counter (the pulse is
   * not part of it). Night mode is requested only where the platform
   * supports it, and it is never `MODE_NIGHT_YES`: the colour step runs
   * only on odd counters.
   */
  function MainEffects(counter: int, nightModeSupported: bool): (r: seq<Effect>)
    ensures SetNightMode(NightYes) !in r
    ensures SetTorch(true) !in r && SetTorch(false) !in r && PostTick !in r
    ensures SetNightMode(NightNo) in r <==> StepOf(counter) == ColorStep && nightModeSupported
    ensures r == [] <==> StepOf(counter) == NoMainEffect || (StepOf(counter) == ColorStep && !nightModeSupported)
  {
    match StepOf(counter)
    case DiscoStep => [Vibrate(DiscoPattern()), PulseBrightness]
    case ColorStep => if nightModeSupported then [SetNightMode(NightModeOf(counter))] else []
    case VibrationStep => [Vibrate(Timings(WaveformOf(counter)))]
    case NoMainEffect => []
  }

  /** A step issues only vibrations, a brightness pulse or `MODE_NIGHT_NO`. */
  lemma StepIssuesOnlyStepCalls(counter: int, nightModeSupported: bool)
    ensures forall e :: e in MainEffects(counter, nightModeSupported) ==>
              e.Vibrate? || e == PulseBrightness || e == SetNightMode(NightNo)
  {
    var m := NightModeOf(counter);
    assert StepOf(counter) == ColorStep ==> m == NightNo;
  }

  // ---------------------------------------------------------------------
  // The service state and its transitions
  // ---------------------------------------------------------------------

  /**
   * The fields of the service. `torchCallbackRegistered` and
   * `nightModeSupported` are fixed when the service is created (the torch
   * callback is registered only on a device with a flash; night mode needs
   * Android 12).
   */
  datatype ServiceState = ServiceState(
    isPartying: bool,
    partyCounter: int,
    hasFlashlight: bool,
    isFlashlightOn: bool,
    originalVolume: int,
    originalBrightness: int,
    torchCallbackRegistered: bool,
    nightModeSupported: bool)

  /** What a transition does: the new state and the platform calls, in order. */
  datatype Transition = Transition(next: ServiceState, effects: seq<Effect>)

  /**
   * Holds from creation on: the counter is a 32-bit value; a flashlight is
   * only ever enabled where the torch callback was registered; without that
   * callback nothing ever switches `isFlashlightOn` on.
   */
  predicate Invariant(s: ServiceState) {
    && IsInt(s.partyCounter)
    && (s.hasFlashlight ==> s.torchCallbackRegistered)
    && (!s.torchCallbackRegistered ==> !s.isFlashlightOn)
  }

  /** `onCreate`, as far as the fields go. */
  function Created(flashFeature: bool, volume: int, brightness: int, nightModeSupported: bool): (s: ServiceState)
    ensures Invariant(s)
    ensures !s.isPartying && s.partyCounter == 0 && !s.isFlashlightOn
    ensures s.hasFlashlight == flashFeature && s.torchCallbackRegistered == flashFeature
    ensures s.originalVolume == volume && s.originalBrightness == brightness
  {
    ServiceState(false, 0, flashFeature, false, volume, brightness, flashFeature, nightModeSupported)
  }

  /**
   * `flashlightPulse`. Without a flashlight nothing happens. Otherwise the
   * torch is switched only when it is not already in the desired state; a
   * successful switch records the new state, and an exception disables the
   * flashlight for good. Only the two flashlight fields can change.
   */
  function Pulse(s: ServiceState, camera: CameraResponse): (r: Transition)
    ensures r.next == s.(hasFlashlight := r.next.hasFlashlight, isFlashlightOn := r.next.isFlashlightOn)
    ensures !s.hasFlashlight ==> r == Transition(s, [])
    ensures r.effects == [] || r.effects == [SetTorch(DesiredTorch(s.partyCounter))]
    ensures r.effects != [] <==> s.hasFlashlight && camera.FlashFound? && s.isFlashlightOn != DesiredTorch(s.partyCounter)
    ensures r.next.hasFlashlight <==> s.hasFlashlight && !(camera == LookupThrows || (camera == FlashFound(true) && r.effects != []))
    ensures r.next.isFlashlightOn != s.isFlashlightOn ==> r.next.isFlashlightOn == DesiredTorch(s.partyCounter)
    ensures r.next.isFlashlightOn != s.isFlashlightOn ==> r.effects != [] && r.next.hasFlashlight
    ensures s.hasFlashlight && camera == FlashFound(false) ==> r.next.hasFlashlight && r.next.isFlashlightOn == DesiredTorch(s.partyCounter)
  {
    if !s.hasFlashlight then Transition(s, [])
    else
      var desired := DesiredTorch(s.partyCounter);
      match camera
      case NoFlashCamera => Transition(s, [])
      case LookupThrows => Transition(s.(hasFlashlight := false), [])
      case FlashFound(torchThrows) =>
        if s.isFlashlightOn == desired then Transition(s, [])
        else if torchThrows then Transition(s.(hasFlashlight := false), [SetTorch(desired)])
        else Transition(s.(isFlashlightOn := desired), [SetTorch(desired)])
  }

  /** `executePartyStep`: the main effect of the counter, then always a pulse. */
  function PartyStep(s: ServiceState, camera: CameraResponse): (r: Transition)
    ensures r.effects == MainEffects(s.partyCounter, s.nightModeSupported) + Pulse(s, camera).effects
    ensures r.next == Pulse(s, camera).next
    ensures r.next == s.(hasFlashlight := r.next.hasFlashlight, isFlashlightOn := r.next.isFlashlightOn)
    ensures SetNightMode(NightYes) !in r.effects
  {
    var pulse := Pulse(s, camera);
    Transition(pulse.next, MainEffects(s.partyCounter, s.nightModeSupported) + pulse.effects)
  }

  /**
   * `partyRunnable.run`. While partying, the counter goes up by one (with
   * 32-bit wrap-around) before the step runs, and the runnable is posted
   * again as the last call. Otherwise nothing changes and nothing is
   * posted. A tick never stops the party and never asks for night mode.
   */
  function Tick(s: ServiceState, camera: CameraResponse): (r: Transition)
    requires Invariant(s)
    ensures Invariant(r.next)
    ensures !s.isPartying ==> r == Transition(s, [])
    ensures s.isPartying ==> r.next.partyCounter == Inc(s.partyCounter) && r.next.isPartying
    ensures s.isPartying ==> r.effects == PartyStep(s.(partyCounter := Inc(s.partyCounter)), camera).effects + [PostTick]
    ensures s.isPartying ==> r.next == PartyStep(s.(partyCounter := Inc(s.partyCounter)), camera).next
    ensures PostTick in r.effects <==> s.isPartying
    ensures SetNightMode(NightYes) !in r.effects
    ensures r.next.hasFlashlight ==> s.hasFlashlight
    ensures !s.hasFlashlight ==> SetTorch(true) !in r.effects && SetTorch(false) !in r.effects
  {
    if s.isPartying then
      var step := PartyStep(s.(partyCounter := Inc(s.partyCounter)), camera);
      Transition(step.next, step.effects + [PostTick])
    else
      Transition(s, [])
  }

  /**
   * `stopParty`: the party flag goes down, pending ticks are cancelled, the
   * brightness read at creation is written back, the music volume is set to
   * the constant 80 (not to the volume read at creation), the torch is
   * switched off when a camera id exists, and the service stops itself.
   * The flashlight fields are left as they were: only the torch callback
   * updates `isFlashlightOn`.
   */
  function Stop(s: ServiceState, cameraListed: bool): (r: Transition)
    ensures r.next == s.(isPartying := false)
    ensures |r.effects| >= 2 && r.effects[0] == CancelTicks && r.effects[|r.effects| - 1] == StopSelf
    ensures SetBrightness(s.originalBrightness) in r.effects
    ensures SetVolume(StopVolume) in r.effects
    ensures SetTorch(false) in r.effects <==> cameraListed
    ensures SetTorch(true) !in r.effects
    ensures SetNightMode(NightYes) !in r.effects && PostTick !in r.effects
    ensures r.effects == [CancelTicks, SetBrightness(s.originalBrightness), SetVolume(StopVolume)] + TorchOff(cameraListed) + [StopSelf]
  {
    Transition(s.(isPartying := false),
      [CancelTicks, SetBrightness(s.originalBrightness), SetVolume(StopVolume)] + TorchOff(cameraListed) + [StopSelf])
  }

  /** The torch-off call, issued when the camera list has a first id. */
  function TorchOff(cameraListed: bool): (r: seq<Effect>)
    ensures r == [] || r == [SetTorch(false)]
    ensures (r != []) == cameraListed
    ensures LastVolume(r) == None
  {
    if cameraListed then [SetTorch(false)] else []
  }

  /**
   * `onStartCommand`. A start raises the flag, resets the counter to 0 and
   * posts the first tick; a stop is `stopParty`; any other action is ignored.
   */
  function StartCommand(s: ServiceState, command: Command, cameraListed: bool): (r: Transition)
    ensures command == ActionStartParty ==>
      r.next == s.(isPartying := true, partyCounter := 0) && r.effects == [PostTick]
    ensures command == ActionStopParty ==> r == Stop(s, cameraListed)
    ensures command == OtherAction ==> r == Transition(s, [])
  {
    match command
    case ActionStartParty => Transition(s.(isPartying := true, partyCounter := 0), [PostTick])
    case ActionStopParty => Stop(s, cameraListed)
    case OtherAction => Transition(s, [])
  }

  /**
   * `onDestroy`: restores the volume read at creation, switches the torch
   * off if it is known to be on, and then runs `stopParty`, whose volume
   * write comes last. So the volume the service leaves behind is 80, not the
   * original one.
   */
  function Destroy(s: ServiceState, cameraListed: bool): (r: Transition)
    ensures r.next == s.(isPartying := false)
    ensures |r.effects| > 0 && r.effects[0] == SetVolume(s.originalVolume)
    ensures SetTorch(true) !in r.effects
    ensures SetTorch(false) in r.effects <==> cameraListed
    ensures SetBrightness(s.originalBrightness) in r.effects
    ensures CancelTicks in r.effects && r.effects[|r.effects| - 1] == StopSelf
    ensures SetNightMode(NightYes) !in r.effects && PostTick !in r.effects
    ensures r.effects == [SetVolume(s.originalVolume)] + TorchOff(s.hasFlashlight && s.isFlashlightOn && cameraListed)
                         + Stop(s, cameraListed).effects
  {
    var stop := Stop(s, cameraListed);
    Transition(stop.next,
      [SetVolume(s.originalVolume)] + TorchOff(s.hasFlashlight && s.isFlashlightOn && cameraListed) + stop.effects)
  }

  /**
   * The torch callback: it exists only where it was registered at creation,
   * and it mirrors the torch state reported by the platform.
   */
  function TorchChanged(s: ServiceState, enabled: bool): (r: ServiceState)
    requires Invariant(s)
    ensures Invariant(r)
    ensures s.torchCallbackRegistered ==> r == s.(isFlashlightOn := enabled)
    ensures !s.torchCallbackRegistered ==> r == s
  {
    if s.torchCallbackRegistered then s.(isFlashlightOn := enabled) else s
  }

  /** The last music volume written in a sequence of effects, if any is. */
  function LastVolume(effects: seq<Effect>): (v: Option<int>)
    ensures v.Some? ==> SetVolume(v.value) in effects
    ensures v.None? ==> forall i :: 0 <= i < |effects| ==> !effects[i].SetVolume?
    decreases |effects|
  {
    if effects == [] then None
    else
      match LastVolume(effects[1..])
      case Some(v) => Some(v)
      case None => if effects[0].SetVolume? then Some(effects[0].index) else None
  }

  /** Appending to a log in two steps appends the concatenation. */
  lemma AppendTwice<T>(log: seq<T>, a: seq<T>, b: seq<T>)
    ensures log + a + b == log + (a + b)
  {
  }

  /** In a concatenation, the volume written last comes from the second part if it writes one. */
  lemma {:induction false} LastVolumeAppend(a: seq<Effect>, b: seq<Effect>)
    ensures LastVolume(a + b) == if LastVolume(b).Some? then LastVolume(b) else LastVolume(a)
    decreases |a|
  {
    if a == [] {
      assert a + b == b;
    } else {
      assert (a + b)[1..] == a[1..] + b;
      LastVolumeAppend(a[1..], b);
    }
  }

  /** After `stopParty` the music volume left behind is 80, not the one read at creation. */
  lemma StopLeavesVolume80(s: ServiceState, cameraListed: bool)
    ensures LastVolume(Stop(s, cameraListed).effects) == Some(StopVolume)
  {
    var restore := [CancelTicks, SetBrightness(s.originalBrightness)];
    var volume := [SetVolume(StopVolume)];
    assert volume[1..] == [];
    LastVolumeAppend(restore, volume);
    LastVolumeAppend(restore + volume, TorchOff(cameraListed));
    LastVolumeAppend(restore + volume + TorchOff(cameraListed), [StopSelf]);
    assert [StopSelf][1..] == [];
    assert Stop(s, cameraListed).effects == restore + volume + TorchOff(cameraListed) + [StopSelf];
  }

  /**
   * `onDestroy` writes the original volume first, but the volume it leaves
   * behind is still 80, because `stopParty` runs after it.
   */
  lemma DestroyLeavesVolume80(s: ServiceState, cameraListed: bool)
    ensures LastVolume(Destroy(s, cameraListed).effects) == Some(StopVolume)
    ensures StopVolume != s.originalVolume ==> LastVolume(Destroy(s, cameraListed).effects) != Some(s.originalVolume)
  {
    var before := [SetVolume(s.originalVolume)] + TorchOff(s.hasFlashlight && s.isFlashlightOn && cameraListed);
    StopLeavesVolume80(s, cameraListed);
    LastVolumeAppend(before, Stop(s, cameraListed).effects);
  }

  // ---------------------------------------------------------------------
  // Runs of events
  // ---------------------------------------------------------------------

  /** Everything that can happen to a created service. */
  datatype Event =
    | StartCommandEvent(command: Command, cameraListed: bool)
    | RunTick(camera: CameraResponse)
    | TorchModeChanged(enabled: bool)
    | Destroyed(cameraListed: bool)

  function Apply(s: ServiceState, e: Event): (r: Transition)
    requires Invariant(s)
    ensures Invariant(r.next)
  {
    match e
    case StartCommandEvent(command, cameraListed) => StartCommand(s, command, cameraListed)
    case RunTick(camera) => Tick(s, camera)
    case TorchModeChanged(enabled) => Transition(TorchChanged(s, enabled), [])
    case Destroyed(cameraListed) => Destroy(s, cameraListed)
  }

  /** The events applied one after the other; the effects are concatenated. */
  function Replay(s: ServiceState, events: seq<Event>): (r: Transition)
    requires Invariant(s)
    ensures Invariant(r.next)
    decreases |events|
  {
    if events == [] then Transition(s, [])
    else
      var first := Apply(s, events[0]);
      var rest := Replay(first.next, events[1..]);
      Transition(rest.next, first.effects + rest.effects)
  }

  predicate AllTicks(events: seq<Event>) {
    forall i :: 0 <= i < |events| ==> events[i].RunTick?
  }

  /** Once the flashlight is disabled, no event enables it again and the torch is never switched on. */
  lemma {:induction false} DisabledFlashlightStaysDisabled(s: ServiceState, events: seq<Event>)
    requires Invariant(s) && !s.hasFlashlight
    ensures !Replay(s, events).next.hasFlashlight
    ensures SetTorch(true) !in Replay(s, events).effects
    decreases |events|
  {
    if events != [] {
      var first := Apply(s, events[0]);
      assert SetTorch(true) !in first.effects;
      DisabledFlashlightStaysDisabled(first.next, events[1..]);
    }
  }

  /** No single event requests `MODE_NIGHT_YES`. */
  lemma EventNeverNightYes(s: ServiceState, e: Event)
    requires Invariant(s)
    ensures SetNightMode(NightYes) !in Apply(s, e).effects
  {
  }

  /** `MODE_NIGHT_YES` is never requested, whatever happens. */
  lemma {:induction false} NeverNightYes(s: ServiceState, events: seq<Event>)
    requires Invariant(s)
    ensures SetNightMode(NightYes) !in Replay(s, events).effects
    decreases |events|
  {
    if events != [] {
      var first := Apply(s, events[0]);
      EventNeverNightYes(s, events[0]);
      NeverNightYes(first.next, events[1..]);
    }
  }

  /** After a stop, ticks change nothing and issue no call. */
  lemma {:induction false} StoppedTicksAreInert(s: ServiceState, events: seq<Event>)
    requires Invariant(s) && !s.isPartying && AllTicks(events)
    ensures Replay(s, events) == Transition(s, [])
    decreases |events|
  {
    if events != [] {
      StoppedTicksAreInert(s, events[1..]);
    }
  }

  /** While partying, n ticks (without wrap-around) add exactly n to the counter and keep the party on. */
  lemma {:induction false} TicksAdvanceCounter(s: ServiceState, events: seq<Event>)
    requires Invariant(s) && s.isPartying && AllTicks(events)
    requires s.partyCounter + |events| <= MaxValue
    ensures Replay(s, events).next.partyCounter == s.partyCounter + |events|
    ensures Replay(s, events).next.isPartying
    decreases |events|
  {
    if events != [] {
      var first := Apply(s, events[0]);
      TicksAdvanceCounter(first.next, events[1..]);
    }
  }

  /** The first step after a start runs with counter 1: the colour step, asking for `MODE_NIGHT_NO`. */
  lemma FirstStepIsColour(s: ServiceState, cameraListed: bool, camera: CameraResponse)
    requires Invariant(s)
    ensures var started := StartCommand(s, ActionStartParty, cameraListed).next;
            var tick := Tick(started, camera);
            && tick.next.partyCounter == 1
            && StepOf(tick.next.partyCounter) == ColorStep
            && tick.effects == (if s.nightModeSupported then [SetNightMode(NightNo)] else [])
                               + Pulse(started.(partyCounter := 1), camera).effects + [PostTick]
  {
    var started := StartCommand(s, ActionStartParty, cameraListed).next;
    assert started == s.(isPartying := true, partyCounter := 0);
    var stepped := started.(partyCounter := 1);
    assert Inc(started.partyCounter) == 1;
    assert StepOf(1) == ColorStep && NightModeOf(1) == NightNo;
    assert MainEffects(1, s.nightModeSupported) == if s.nightModeSupported then [SetNightMode(NightNo)] else [];
    assert Tick(started, camera).effects == PartyStep(stepped, camera).effects + [PostTick];
  }

  /** The torch the pulse asks for alternates on every increment, across the 32-bit wrap-around too. */
  lemma DesiredTorchAlternates(counter: int)
    requires IsInt(counter)
    ensures DesiredTorch(Inc(counter)) == !DesiredTorch(counter)
  {
    if counter == MaxValue {
      assert Inc(counter) == MinValue;
    } else {
      assert Inc(counter) == counter + 1;
    }
  }

  /**
   * With a flash camera that works, once the torch matches the counter, every
   * tick switches it: exactly one torch call, to the opposite state.
   */
  lemma WorkingTorchTogglesEveryTick(s: ServiceState)
    requires Invariant(s) && s.isPartying && s.hasFlashlight
    requires s.isFlashlightOn == DesiredTorch(s.partyCounter)
    ensures var r := Tick(s, FlashFound(false));
            && r.next.hasFlashlight
            && r.next.isFlashlightOn == !s.isFlashlightOn
            && r.next.isFlashlightOn == DesiredTorch(r.next.partyCounter)
            && SetTorch(!s.isFlashlightOn) in r.effects
  {
    DesiredTorchAlternates(s.partyCounter);
    var stepped := s.(partyCounter := Inc(s.partyCounter));
    var r := Tick(s, FlashFound(false));
    assert Pulse(stepped, FlashFound(false)).effects == [SetTorch(!s.isFlashlightOn)];
    assert r.effects[|MainEffects(stepped.partyCounter, s.nightModeSupported)|] == SetTorch(!s.isFlashlightOn);
  }

  /** Repeating a successful pulse at the same counter issues no call, whatever the camera answers. */
  lemma PulseIsIdempotent(s: ServiceState, again: CameraResponse)
    ensures var first := Pulse(s, FlashFound(false));
            Pulse(first.next, again).effects == []
  {
  }

  /** Successive vibration steps rotate techno, house, drum roll. */
  lemma VibrationStepsRotate(counter: int)
    requires counter >= 0 && StepOf(counter) == VibrationStep
    requires counter + 4 <= MaxValue
    ensures StepOf(counter + 4) == VibrationStep
    ensures WaveformOf(counter + 4) == NextWaveform(WaveformOf(counter))
  {
  }

  // ---------------------------------------------------------------------
  // The service object
  // ---------------------------------------------------------------------

  class PartyMonsterService {
    var isPartying: bool
    var partyCounter: int
    var hasFlashlight: bool
    var isFlashlightOn: bool
    var originalVolume: int
    var originalBrightness: int
    const torchCallbackRegistered: bool
    const nightModeSupported: bool
    /** The platform calls issued so far. */
    ghost var log: seq<Effect>

    function State(): ServiceState
      reads this
    {
      ServiceState(isPartying, partyCounter, hasFlashlight, isFlashlightOn,
                   originalVolume, originalBrightness, torchCallbackRegistered, nightModeSupported)
    }

    ghost predicate Valid()
      reads this
    {
      Invariant(State())
    }

    /** `onCreate`: reads the volume and brightness to restore, and whether the device has a flash. */
    constructor (flashFeature: bool, volume: int, brightness: int, nightModeSupported: bool)
      ensures Valid() && log == []
      ensures State() == Created(flashFeature, volume, brightness, nightModeSupported)
    {
      isPartying := false;
      partyCounter := 0;
      originalVolume := volume;
      originalBrightness := brightness;
      hasFlashlight := flashFeature;
      isFlashlightOn := false;
      torchCallbackRegistered := flashFeature;
      this.nightModeSupported := nightModeSupported;
      log := [];
    }

    /** `partyRunnable.run`; the result says whether the runnable was posted again. */
    method Run(camera: CameraResponse) returns (rescheduled: bool)
      requires Valid()
      modifies this
      ensures Valid()
      ensures State() == Tick(old(State()), camera).next
      ensures log == old(log) + Tick(old(State()), camera).effects
      ensures rescheduled == old(isPartying)
    {
      rescheduled := false;
      if isPartying {
        ghost var stepped := State().(partyCounter := Inc(partyCounter));
        partyCounter := Inc(partyCounter);
        ExecutePartyStep(camera);
        log := log + [PostTick];
        rescheduled := true;
        assert log == old(log) + (PartyStep(stepped, camera).effects + [PostTick]);
      }
    }

    method ExecutePartyStep(camera: CameraResponse)
      modifies this
      ensures State() == PartyStep(old(State()), camera).next
      ensures log == old(log) + PartyStep(old(State()), camera).effects
    {
      ghost var before := State();
      ghost var main := MainEffects(partyCounter, nightModeSupported);
      ghost var log0 := log;
      var step := Rem(partyCounter, 4);
      if step == 0 {
        assert StepOf(before.partyCounter) == DiscoStep;
        DiscoBeat();
      } else if step == 1 {
        assert StepOf(before.partyCounter) == ColorStep;
        ColorCrazy();
      } else if step == 2 {
        assert StepOf(before.partyCounter) == VibrationStep;
        VibrateParty();
      } else {
        assert StepOf(before.partyCounter) == NoMainEffect;
      }
      assert log == log0 + main;
      assert State() == before;
      FlashlightPulse(camera);
      AppendTwice(log0, main, Pulse(before, camera).effects);
    }

    method DiscoBeat()
      modifies this`log
      ensures log == old(log) + [Vibrate(DiscoPattern()), PulseBrightness]
    {
      log := log + [Vibrate(DiscoPattern()), PulseBrightness];
    }

    method ColorCrazy()
      modifies this`log
      ensures log == old(log) + if nightModeSupported then [SetNightMode(NightModeOf(partyCounter))] else []
    {
      if nightModeSupported {
        var mode := if Rem(partyCounter, 2) == 0 then NightYes else NightNo;
        log := log + [SetNightMode(mode)];
      }
    }

    method VibrateParty()
      modifies this`log
      ensures log == old(log) + [Vibrate(Timings(WaveformOf(partyCounter)))]
    {
      var pattern := WaveformOf(partyCounter);
      log := log + [Vibrate(Timings(pattern))];
    }

    method FlashlightPulse(camera: CameraResponse)
      modifies this
      ensures State() == Pulse(old(State()), camera).next
      ensures log == old(log) + Pulse(old(State()), camera).effects
    {
      if !hasFlashlight {
        return;
      }
      match camera {
        case NoFlashCamera =>
          return;
        case LookupThrows =>
          hasFlashlight := false;
        case FlashFound(torchThrows) =>
          var desiredState := Rem(partyCounter, 2) == 0;
          if isFlashlightOn != desiredState {
            log := log + [SetTorch(desiredState)];
            if torchThrows {
              hasFlashlight := false;
            } else {
              isFlashlightOn := desiredState;
            }
          }
      }
    }

    /** `onStartCommand`; `cameraListed` says whether the camera list has a first id. */
    method OnStartCommand(command: Command, cameraListed: bool)
      requires Valid()
      modifies this
      ensures Valid()
      ensures State() == StartCommand(old(State()), command, cameraListed).next
      ensures log == old(log) + StartCommand(old(State()), command, cameraListed).effects
    {
      match command {
        case ActionStartParty =>
          isPartying := true;
          partyCounter := 0;
          log := log + [PostTick];
        case ActionStopParty =>
          StopParty(cameraListed);
        case OtherAction =>
      }
    }

    method StopParty(cameraListed: bool)
      modifies this
      ensures State() == Stop(old(State()), cameraListed).next
      ensures log == old(log) + Stop(old(State()), cameraListed).effects
    {
      isPartying := false;
      log := log + [CancelTicks, SetBrightness(originalBrightness), SetVolume(StopVolume)];
      if cameraListed {
        log := log + [SetTorch(false)];
      }
      log := log + [StopSelf];
    }

    method OnDestroy(cameraListed: bool)
      requires Valid()
      modifies this
      ensures Valid()
      ensures State() == Destroy(old(State()), cameraListed).next
      ensures log == old(log) + Destroy(old(State()), cameraListed).effects
    {
      ghost var before := State();
      ghost var prefix := [SetVolume(originalVolume)] + TorchOff(hasFlashlight && isFlashlightOn && cameraListed);
      ghost var stop := Stop(before, cameraListed);
      assert Destroy(before, cameraListed) == Transition(stop.next, prefix + stop.effects);
      ghost var log0 := log;
      log := log + [SetVolume(originalVolume)];
      if hasFlashlight && isFlashlightOn && cameraListed {
        log := log + [SetTorch(false)];
      }
      assert log == log0 + prefix;
      StopParty(cameraListed);
      AppendTwice(log0, prefix, stop.effects);
    }

    /** The torch callback registered in `onCreate`, delivered only if it was registered. */
    method OnTorchModeChanged(enabled: bool)
      requires Valid()
      modifies this
      ensures Valid()
      ensures State() == TorchChanged(old(State()), enabled) && log == old(log)
    {
      if torchCallbackRegistered {
        isFlashlightOn := enabled;
      }
    }
  }
}
