/** Whole runs of the scheduler built from the `LEDManager` contracts alone: the behaviours
    the scheduler exists for, end to end, and the places where the pin registry goes wrong
    as written. Each run takes the identity drawn for its managers' own default Animation. */
module Scenarios {
  import opened MachineInts
  import opened Uuid
  import opened Animations
  import opened LedManagers
  import opened Schedule
  import opened Timing
  import Presets

  /** A tick period of 10 ms, the scheduler's default rate of 100 ticks a second. */
  const TICK_PERIOD_MS: nat := 10

  /** The Blink timeline at the level of positions: a frame is left only once it is
      strictly overrun, and the time left is counted from the new frame's start. */
  lemma BlinkTimeline()
    ensures var blink := Presets.BlinkAnimation;
            var off, on := AnimationFrame(LEDState.Off, 500), AnimationFrame(LEDState.On, 500);
            && Install(blink, 0) == Position(0, off, 0)
            && Step(blink, Position(0, off, 0), 500, 500) == Position(0, off, 0)
            && Remaining(Position(0, off, 0), 500) == 0
            && Step(blink, Position(0, off, 0), 501, 501) == Position(1, on, 501)
            && Remaining(Position(1, on, 501), 501) == 500
            && Step(blink, Position(1, on, 501), 1002, 1002) == Position(0, off, 1002)
            && Remaining(Position(0, off, 1002), 1002) == 500
  {
  }

  /** Blink installed at time 0: Off after setup, still Off at exactly 500 ms (the frame must
      be strictly overrun), On at 501 ms, Off again 501 ms later. */
  method BlinkCycle(idle: UUID) returns (levels: seq<bool>, waits: seq<Wait>)
    requires !Equal(idle, Presets.BlinkAnimation.id)
    ensures levels == [false, false, true, false]
    ensures waits == [NoWait, Sleep(50), Sleep(50)]
  {
    var usedPins := NewPinRegistry();
    var manager := new LEDManager(usedPins, idle);
    var off, on := AnimationFrame(LEDState.Off, 500), AnimationFrame(LEDState.On, 500);
    BlinkTimeline();
    var outcome := manager.Setup(0, 2, Presets.BlinkAnimation);
    assert manager.currentFrame == off && manager.animFrameStartTime == 0;
    levels, waits := [manager.ledState], [];
    var wait := manager.Decide(500, 500, 500, TICK_PERIOD_MS);
    assert manager.currentFrame == off && manager.animFrameStartTime == 0 && wait == NoWait;
    manager.Wake();
    levels, waits := levels + [manager.ledState], waits + [wait];
    wait := manager.Decide(501, 501, 501, TICK_PERIOD_MS);
    assert manager.animFrameIndex == 1 && manager.currentFrame == on && manager.animFrameStartTime == 501;
    manager.Wake();
    levels, waits := levels + [manager.ledState], waits + [wait];
    wait := manager.Decide(1002, 1002, 1002, TICK_PERIOD_MS);
    assert manager.animFrameIndex == 0 && manager.currentFrame == off;
    manager.Wake();
    levels, waits := levels + [manager.ledState], waits + [wait];
  }

  /** `setup()` with its defaults takes pin 2 and the Off preset; the loop then parks with the
      pin Off, and installing Blink wakes the task at once. */
  method OffPresetParksUntilReplaced(idle: UUID)
    returns (pin: u8, wait: Wait, parked: TaskState, level: bool, woken: TaskState)
    requires !Equal(idle, Presets.OffAnimation.id)
    ensures pin == 2 && wait == Park && parked == Suspended && !level && woken == Running
  {
    var usedPins := NewPinRegistry();
    var manager := new LEDManager(usedPins, idle);
    var outcome := manager.Setup(0);
    Presets.PresetsDistinct();
    pin := manager.ledPin;
    wait := manager.Decide(3000, 3000, 3000, TICK_PERIOD_MS);
    parked, level := manager.taskState, manager.ledState;
    manager.SetAnimation(Presets.BlinkAnimation, 3000);
    woken := manager.taskState;
  }

  /** Installing the installed Animation again keeps its frame clock. */
  method ReinstallKeepsClock(idle: UUID) returns (startTime: u32, index: int)
    requires !Equal(idle, Presets.BlinkAnimation.id)
    ensures startTime == 100 && index == 1
  {
    var usedPins := NewPinRegistry();
    var manager := new LEDManager(usedPins, idle);
    var outcome := manager.Setup(100, 2, Presets.BlinkAnimation);
    manager.NextFrame(100);
    manager.SetAnimation(Presets.BlinkAnimation, 700);
    startTime, index := manager.animFrameStartTime, manager.animFrameIndex;
  }

  /** As written, two managers both set up on pin 5 succeed: nothing claims the pin. */
  method SharedPinAsWritten(idle: UUID) returns (first: SetupOutcome, second: SetupOutcome, firstPin: u8, secondPin: u8)
    ensures first == Accepted && second == Accepted && firstPin == secondPin == 5
  {
    var usedPins := NewPinRegistry();
    var one := new LEDManager(usedPins, idle);
    var two := new LEDManager(usedPins, idle);
    first := one.Setup(0, 5, Presets.BlinkAnimation);
    second := two.Setup(0, 5, Presets.BlinkAnimation);
    firstPin, secondPin := one.ledPin, two.ledPin;
  }

  /** As written, pin 200 is accepted, although the registry has only 128 slots for the
      destructor to clear. */
  method OutOfRangePinAsWritten(idle: UUID) returns (outcome: SetupOutcome, pin: u8)
    ensures outcome == Accepted && pin == 200 && pin >= PIN_SLOTS
  {
    var usedPins := NewPinRegistry();
    var manager := new LEDManager(usedPins, idle);
    outcome := manager.Setup(0, 200, Presets.BlinkAnimation);
    pin := manager.ledPin;
  }

  /** With the intended check, the second claim of pin 5 is refused and the first owner keeps
      its claim; pin 200 is refused outright. */
  method SharedPinChecked(idle: UUID) returns (first: SetupOutcome, second: SetupOutcome, stillClaimed: bool, outOfRange: SetupOutcome)
    ensures first == Accepted && second == Rejected && stillClaimed && outOfRange == Rejected
  {
    var usedPins := NewPinRegistry();
    var one := new LEDManager(usedPins, idle);
    var two := new LEDManager(usedPins, idle);
    var three := new LEDManager(usedPins, idle);
    first := one.SetupChecked(0, 5, Presets.BlinkAnimation);
    assert usedPins[5];
    second := two.SetupChecked(0, 5, Presets.BlinkAnimation);
    stillClaimed := usedPins[5];
    assert !(200 < PIN_SLOTS);
    outOfRange := three.SetupChecked(0, 200, Presets.BlinkAnimation);
  }

  /** As written, destroying a manager that was never set up releases pin 0 although another
      manager owns it, so a third manager's checked setup on pin 0 succeeds as well. */
  method ReleaseUnownedPinAsWritten(idle: UUID)
    returns (first: SetupOutcome, claimedAfter: bool, second: SetupOutcome)
    ensures first == Accepted && !claimedAfter && second == Accepted
  {
    var usedPins := NewPinRegistry();
    var one := new LEDManager(usedPins, idle);
    var two := new LEDManager(usedPins, idle);
    var three := new LEDManager(usedPins, idle);
    first := one.SetupChecked(0, 0, Presets.BlinkAnimation);
    two.Destroy();
    claimedAfter := usedPins[0];
    second := three.SetupChecked(0, 0, Presets.BlinkAnimation);
  }

  /** With the intended destructor, the never-set-up manager leaves the registry alone, so
      the owner keeps pin 0 and the third manager is refused it. */
  method ReleaseUnownedPinChecked(idle: UUID)
    returns (first: SetupOutcome, claimedAfter: bool, second: SetupOutcome)
    ensures first == Accepted && claimedAfter && second == Rejected
  {
    var usedPins := NewPinRegistry();
    var one := new LEDManager(usedPins, idle);
    var two := new LEDManager(usedPins, idle);
    var three := new LEDManager(usedPins, idle);
    first := one.SetupChecked(0, 0, Presets.BlinkAnimation);
    two.DestroyChecked();
    claimedAfter := usedPins[0];
    second := three.SetupChecked(0, 0, Presets.BlinkAnimation);
  }
}
