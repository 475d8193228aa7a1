/** The process-wide preset Animations and the defaults of `LEDManager::setup`. */
module Presets {
  import opened MachineInts
  import opened Uuid
  import opened Animations

  const OffFrames: seq<AnimationFrame> := [AnimationFrame(LEDState.Off, 0)]
  const OnFrames: seq<AnimationFrame> := [AnimationFrame(LEDState.On, 0)]
  const BlinkFrames: seq<AnimationFrame> :=
    [AnimationFrame(LEDState.Off, 500), AnimationFrame(LEDState.On, 500)]
  const DoubleBlinkFrames: seq<AnimationFrame> :=
    [AnimationFrame(LEDState.Off, 700), AnimationFrame(LEDState.On, 100),
     AnimationFrame(LEDState.Off, 100), AnimationFrame(LEDState.On, 100)]

  /** The presets' identities come from the random generator at start-up; the model fixes
      one outcome of those draws, `(k, 0)` for the k-th preset, written out as bytes. */
  const OffId: UUID := [1, 0, 0, 0, 0, 0, 0, 0, 0, 0, 0, 0, 0, 0, 0, 0]
  const OnId: UUID := [2, 0, 0, 0, 0, 0, 0, 0, 0, 0, 0, 0, 0, 0, 0, 0]
  const BlinkId: UUID := [3, 0, 0, 0, 0, 0, 0, 0, 0, 0, 0, 0, 0, 0, 0, 0]
  const DoubleBlinkId: UUID := [4, 0, 0, 0, 0, 0, 0, 0, 0, 0, 0, 0, 0, 0, 0, 0]

  const OffAnimation: Animation := NewAnimation(OffFrames, 1, "OffBuiltin", OffId)
  const OnAnimation: Animation := NewAnimation(OnFrames, 1, "OnBuiltin", OnId)
  const BlinkAnimation: Animation := NewAnimation(BlinkFrames, 2, "BlinkBuiltin", BlinkId)
  const DoubleBlinkAnimation: Animation :=
    NewAnimation(DoubleBlinkFrames, 4, "DoubleBlinkBuiltin", DoubleBlinkId)

  /** No two presets share an identity. */
  lemma PresetsDistinct()
    ensures !SameIdentity(OffAnimation, OnAnimation) && !SameIdentity(OffAnimation, BlinkAnimation)
    ensures !SameIdentity(OffAnimation, DoubleBlinkAnimation) && !SameIdentity(OnAnimation, BlinkAnimation)
    ensures !SameIdentity(OnAnimation, DoubleBlinkAnimation) && !SameIdentity(BlinkAnimation, DoubleBlinkAnimation)
  {
  }

  /** The UUID constructor, given a first draw below 256 and a second draw of 0, makes the
      identity whose only non-zero byte is the first: the form of the fixed preset identities. */
  lemma SmallDrawIdentity(x: u64)
    requires x < 256
    ensures NewUUID(x, 0) == [x as u8] + seq(15, _ => 0)
  {
    ZeroBytes(8);
    ZeroBytes(7);
    assert LittleEndian(x, 8) == [x as u8] + LittleEndian(0, 7);
  }

  lemma {:induction false} ZeroBytes(n: nat)
    ensures LittleEndian(0, n) == seq(n, _ => 0)
  {
    if n > 0 {
      ZeroBytes(n - 1);
    }
  }

  /** `setup`'s default pin. */
  const DefaultLEDPin: u8 := 2

  /** Off and On are one frame of duration 0 in the named state, whatever index is asked. */
  lemma StaticPresets(i: u8)
    ensures GetFrameCount(OffAnimation) == 1 && GetFrame(OffAnimation, i) == AnimationFrame(LEDState.Off, 0)
    ensures GetFrameCount(OnAnimation) == 1 && GetFrame(OnAnimation, i) == AnimationFrame(LEDState.On, 0)
  {
  }

  /** Blink alternates Off and On, 500 ms each: even indices are Off, odd ones On. */
  lemma BlinkPreset(i: u8)
    ensures GetFrameCount(BlinkAnimation) == 2
    ensures GetFrame(BlinkAnimation, i) ==
              if i % 2 == 0 then AnimationFrame(LEDState.Off, 500) else AnimationFrame(LEDState.On, 500)
  {
  }

  /** DoubleBlink is Off 700, On 100, Off 100, On 100, and its declared count is the whole array. */
  lemma DoubleBlinkPreset()
    ensures GetFrameCount(DoubleBlinkAnimation) == |DoubleBlinkFrames| == 4
    ensures DoubleBlinkAnimation.frames == DoubleBlinkFrames
    ensures forall i: u8 :: GetFrame(DoubleBlinkAnimation, i) == DoubleBlinkFrames[i % 4]
  {
  }

  /** The presets carry the names the source gives them. */
  lemma PresetNames()
    ensures GetName(OffAnimation) == "OffBuiltin" && GetName(OnAnimation) == "OnBuiltin"
    ensures GetName(BlinkAnimation) == "BlinkBuiltin"
    ensures GetName(DoubleBlinkAnimation) == "DoubleBlinkBuiltin"
  {
  }
}
