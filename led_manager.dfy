/** `LEDManager`: the per-pin scheduler that owns a pin, one Animation and the background
    task that steps through it. Clock readings, the scheduler's tick period and the random
    identity of the member Animation are parameters; the FreeRTOS calls are represented
    by their effect on `hasTask` and `taskState`, and GPIO by `ledState` and `pinConfigured`. */
module LedManagers {
  import opened MachineInts
  import opened Uuid
  import opened Animations
  import opened Timing
  import opened Schedule
  import Presets

  /** `usedPins` has one slot per pin number 0..127. */
  const PIN_SLOTS: nat := 128

  /** The `eTaskState` values the manager records. */
  datatype TaskState = Invalid | Running | Blocked | Suspended

  /** How `setup` ends: `abort()` of the process, `return false` or `return true`. */
  datatype SetupOutcome = Aborted | Rejected | Accepted

  /** How one iteration of the loop leaves the task: parked by `vTaskSuspend`, sleeping
      through `vTaskDelay(ticks)`, or going straight round again. */
  datatype Wait = Park | Sleep(ticks: u32) | NoWait

  /** `static bool usedPins[128] = {false}`. */
  method NewPinRegistry() returns (usedPins: array<bool>)
    ensures fresh(usedPins) && usedPins.Length == PIN_SLOTS
    ensures forall pin :: 0 <= pin < usedPins.Length ==> !usedPins[pin]
  {
    usedPins := new bool[PIN_SLOTS](_ => false);
  }

  class LEDManager {
    /** The process-wide pin registry every manager shares. */
    const usedPins: array<bool>

    var taskState: TaskState
    var animation: Animation
    var animFrameIndex: int
    var currentFrame: AnimationFrame
    var animFrameStartTime: u32
    var ledPin: u8
    /** The level last written to the pin. */
    var ledState: bool
    /** `pinMode(ledPin, OUTPUT)` has been called. */
    var pinConfigured: bool
    var invalidPin: bool
    var isSetup: bool
    /** `task != nullptr`: the background task exists. */
    var hasTask: bool

    ghost function FramePosition(): Position
      reads this
    {
      Position(animFrameIndex, currentFrame, animFrameStartTime)
    }

    /** The object invariant: the frame index names a frame of the Animation (once it has
        any), and the set-up and task flags move together. */
    ghost predicate Valid()
      reads this
    {
      && usedPins.Length == PIN_SLOTS
      && (|animation.frames| == 0 ==> animFrameIndex == 0)
      && (|animation.frames| > 0 ==> InRange(animation, FramePosition()))
      && (!isSetup ==> ledPin == 0 && !hasTask)
      && pinConfigured == isSetup
      && !(isSetup && invalidPin)
      && (hasTask <==> taskState != Invalid)
    }

    /** `LEDManager()`: the member Animation is default-constructed, with the identity
        `animationId` drawn for it. */
    constructor (usedPins: array<bool>, animationId: UUID)
      requires usedPins.Length == PIN_SLOTS
      ensures Valid() && this.usedPins == usedPins
      ensures animation == DefaultAnimation(animationId) && currentFrame == DefaultFrame
      ensures animFrameIndex == 0 && animFrameStartTime == 0 && ledPin == 0 && !ledState
      ensures !isSetup && !invalidPin && !pinConfigured && !hasTask && taskState == Invalid
    {
      this.usedPins := usedPins;
      animation := DefaultAnimation(animationId);
      currentFrame := DefaultFrame;
      animFrameIndex, animFrameStartTime, ledPin, ledState := 0, 0, 0, false;
      invalidPin, isSetup, pinConfigured, hasTask := false, false, false, false;
      taskState := Invalid;
    }

    /** `~LEDManager()`: drives the pin Off and clears its registry slot. The slot must
        exist: the source writes past the 128 entries otherwise. */
    method Destroy()
      requires Valid() && ledPin < PIN_SLOTS
      modifies this`ledState, usedPins
      ensures Valid() && ledState == Level(LEDState.Off)
      ensures usedPins[..] == old(usedPins[..])[ledPin := false]
    {
      SetLED(LEDState.Off);
      usedPins[ledPin] := false;
    }

    /** The destructor as evidently intended: only a manager that was set up owns its pin, so
        only such a manager drives it Off and releases its slot. */
    method DestroyChecked()
      requires Valid() && (isSetup ==> ledPin < PIN_SLOTS)
      modifies this`ledState, usedPins
      ensures Valid()
      ensures old(isSetup) ==>
                ledState == Level(LEDState.Off) && usedPins[..] == old(usedPins[..])[ledPin := false]
      ensures !old(isSetup) ==> ledState == old(ledState) && unchanged(usedPins)
    {
      if isSetup {
        SetLED(LEDState.Off);
        usedPins[ledPin] := false;
      }
    }

    /** `setLED`: write the level to the pin and remember it. */
    method SetLED(state: LEDState)
      modifies this`ledState
      ensures ledState == Level(state)
    {
      ledState := Level(state);
    }

    /** `setTaskState`. */
    method SetTaskState(state: TaskState)
      modifies this`taskState
      ensures taskState == state
    {
      taskState := state;
    }

    /** `nextFrame`: move to the following frame, drive its level and restart its clock. */
    method NextFrame(now: u32)
      requires Valid() && GetFrameCount(animation) > 0
      modifies this`animFrameIndex, this`currentFrame, this`ledState, this`animFrameStartTime
      ensures Valid()
      ensures FramePosition() == Advance(animation, old(FramePosition()), now)
      ensures ledState == Level(currentFrame.state)
    {
      ghost var next := Advance(animation, FramePosition(), now);
      animFrameIndex := (animFrameIndex + 1) % GetFrameCount(animation);
      assert animFrameIndex == next.index;
      currentFrame := GetFrame(animation, animFrameIndex);
      SetLED(currentFrame.state);
      animFrameStartTime := now;
    }

    /** `start`: create the background task and mark it Running. Its only caller has just
        set the manager up with a valid pin, so the `abort()` guard never fires. */
    method Start()
      requires Valid() && isSetup && !invalidPin
      modifies this`hasTask, this`taskState
      ensures Valid() && hasTask && taskState == Running
    {
      hasTask := true;
      SetTaskState(Running);
    }

    /** `setAnimation`: a no-op for the Animation already installed (same identity);
        otherwise install it at frame 0 started now, drive the pin once the manager is set
        up with a valid pin, and wake a parked or sleeping task. */
    method SetAnimation(newAnimation: Animation, now: u32)
      requires Valid()
      requires SameIdentity(newAnimation, animation) || GetFrameCount(newAnimation) > 0
      modifies this`animation, this`animFrameIndex, this`currentFrame, this`animFrameStartTime
      modifies this`ledState, this`taskState
      ensures Valid()
      ensures SameIdentity(newAnimation, old(animation)) ==> unchanged(this)
      ensures !SameIdentity(newAnimation, old(animation)) ==>
                && animation == newAnimation
                && FramePosition() == Install(newAnimation, now)
                && ledState == (if isSetup && !invalidPin then Level(currentFrame.state) else old(ledState))
                && taskState == (if isSetup && !invalidPin && hasTask && old(taskState) in {Suspended, Blocked}
                                 then Running else old(taskState))
    {
      if SameIdentity(newAnimation, animation) {
        return;
      }
      animation := newAnimation;
      animFrameIndex := 0;
      animFrameStartTime := now;
      currentFrame := GetFrame(animation, animFrameIndex);
      if !isSetup || invalidPin {
        return;
      }
      SetLED(currentFrame.state);
      if !hasTask {
        return;
      }
      match taskState
      case Suspended =>
        taskState := Running;  // vTaskResume
      case Blocked =>
        taskState := Running;  // xTaskAbortDelay
      case _ =>
    }

    /** `getAnimation`: a copy of the installed Animation. */
    method GetAnimation() returns (a: Animation)
      ensures a == animation
    {
      a := animation;
    }

    /** `setup(ledPin = 2, animation = PresetAnimation::Off)` as written: a second call
        aborts; the guard looks at the member pin (still 0 before setup) rather than the
        argument, and no slot of `usedPins` is claimed. */
    method Setup(now: u32, pin: u8 := Presets.DefaultLEDPin, initial: Animation := Presets.OffAnimation)
      returns (outcome: SetupOutcome)
      requires Valid()
      requires isSetup || ledPin > 128 || usedPins[ledPin]
               || SameIdentity(initial, animation) || GetFrameCount(initial) > 0
      modifies this
      ensures Valid() && unchanged(usedPins)
      ensures old(isSetup) ==> outcome == Aborted && unchanged(this)
      ensures !old(isSetup) && old(ledPin > 128 || usedPins[ledPin]) ==>
                && outcome == Rejected && invalidPin
                && !isSetup && !hasTask && taskState == old(taskState) && ledPin == old(ledPin)
                && animation == old(animation) && FramePosition() == old(FramePosition())
                && ledState == old(ledState)
      ensures !old(isSetup) && !old(ledPin > 128 || usedPins[ledPin]) ==>
                && outcome == Accepted && ledPin == pin
                && isSetup && !invalidPin && pinConfigured && hasTask && taskState == Running
                && (if SameIdentity(initial, old(animation))
                    then animation == old(animation) && FramePosition() == old(FramePosition())
                         && ledState == old(ledState)
                    else animation == initial && FramePosition() == Install(initial, now)
                         && ledState == Level(currentFrame.state))
    {
      if isSetup {
        return Aborted;
      }
      if ledPin > 128 || usedPins[ledPin] {
        invalidPin := true;
        return Rejected;
      }
      invalidPin := false;
      ledPin := pin;
      pinConfigured := true;
      isSetup := true;
      SetAnimation(initial, now);
      Start();
      outcome := Accepted;
    }

    /** `setup` as evidently intended: the argument is checked against the 128 registry
        slots and against claims of other managers, and a successful setup claims it. */
    method SetupChecked(now: u32, pin: u8, initial: Animation) returns (outcome: SetupOutcome)
      requires Valid()
      requires isSetup || pin >= PIN_SLOTS || usedPins[pin]
               || SameIdentity(initial, animation) || GetFrameCount(initial) > 0
      modifies this, usedPins
      ensures Valid()
      ensures outcome == Aborted <==> old(isSetup)
      ensures old(isSetup) ==> unchanged(this) && unchanged(usedPins)
      ensures !old(isSetup) ==> (outcome == Accepted <==> pin < PIN_SLOTS && !old(usedPins[pin]))
      ensures outcome == Rejected ==>
                && invalidPin && !isSetup && !hasTask && unchanged(usedPins)
                && taskState == old(taskState) && ledPin == old(ledPin)
                && animation == old(animation) && FramePosition() == old(FramePosition())
                && ledState == old(ledState)
      ensures outcome == Accepted ==>
                && ledPin == pin && pin < PIN_SLOTS
                && usedPins[..] == old(usedPins[..])[pin := true]
                && isSetup && !invalidPin && pinConfigured && hasTask && taskState == Running
                && (if SameIdentity(initial, old(animation))
                    then animation == old(animation) && FramePosition() == old(FramePosition())
                         && ledState == old(ledState)
                    else animation == initial && FramePosition() == Install(initial, now)
                         && ledState == Level(currentFrame.state))
    {
      if isSetup {
        return Aborted;
      }
      if pin >= PIN_SLOTS || usedPins[pin] {
        invalidPin := true;
        return Rejected;
      }
      invalidPin := false;
      ledPin := pin;
      usedPins[pin] := true;
      pinConfigured := true;
      isSetup := true;
      SetAnimation(initial, now);
      Start();
      outcome := Accepted;
    }

    /** The first half of one iteration of `threadedLoop`, up to the point where the task
        parks or sleeps. `t1` is the clock reading the expiry is judged by, `t2` the one
        `nextFrame` takes, `t3` the one `calcTime` is computed from. */
    method Decide(t1: u32, t2: u32, t3: u32, tickPeriodMs: nat) returns (wait: Wait)
      requires Valid() && hasTask && tickPeriodMs > 0
      modifies this`animFrameIndex, this`currentFrame, this`ledState, this`animFrameStartTime
      modifies this`taskState
      ensures Valid()
      ensures Parks(animation, old(FramePosition())) ==>
                && wait == Park && taskState == Suspended
                && FramePosition() == old(FramePosition()) && ledState == old(ledState)
      ensures !Parks(animation, old(FramePosition())) ==>
                && InRange(animation, old(FramePosition()))
                && FramePosition() == Step(animation, old(FramePosition()), t1, t2)
                && ledState == (if Expired(old(FramePosition()), t1) then Level(currentFrame.state)
                                else old(ledState))
                && (Remaining(FramePosition(), t3) > 0 ==>
                      taskState == Blocked && wait == Sleep(MsToTick(Remaining(FramePosition(), t3), tickPeriodMs)))
                && (Remaining(FramePosition(), t3) <= 0 ==> taskState == old(taskState) && wait == NoWait)
    {
      if currentFrame.msDuration == 0 || GetFrameCount(animation) <= 1 {
        SetTaskState(Suspended);
        return Park;
      }
      var currentTime := t1;
      if Elapsed(currentTime, animFrameStartTime) > currentFrame.msDuration && currentFrame.msDuration != 0 {
        NextFrame(t2);
      }
      var calcTime := CalcTime(currentFrame.msDuration, Elapsed(t3, animFrameStartTime));
      if calcTime > 0 {
        SetTaskState(Blocked);
        return Sleep(MsToTick(calcTime, tickPeriodMs));
      }
      wait := NoWait;
    }

    /** The second half of the iteration: however the task came back (resumed, woken early,
        its delay over, or never waiting), it marks itself Running. */
    method Wake()
      requires Valid() && hasTask
      modifies this`taskState
      ensures Valid() && taskState == Running
    {
      SetTaskState(Running);
    }
  }
}
