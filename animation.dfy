/** Frames and Animations: immutable, named, identity-bearing sequences of timed LED states. */
module Animations {
  import opened MachineInts
  import opened Uuid
  import ModArith

  /** `LEDState`, an enum over `bool`: `Off = LOW`, `On = HIGH`. */
  datatype LEDState = Off | On

  /** The level `digitalWrite` puts on the pin for a state. */
  function Level(state: LEDState): (b: bool)
  {
    state == On
  }

  /** One output level held for `msDuration` milliseconds; a duration of 0 means "hold". */
  datatype AnimationFrame = AnimationFrame(state: LEDState, msDuration: u16)

  /** What `AnimationFrame()` holds when its default arguments are used. */
  const DefaultFrame: AnimationFrame := AnimationFrame(Off, 0)

  /** `frameCount` is a `u_int8_t`, so no Animation holds more frames than this. */
  const MAX_FRAMES: nat := U8_LIMIT - 1

  datatype AnimationData = AnimationData(name: string, frames: seq<AnimationFrame>, id: UUID)

  /** An Animation: its name, its owned copy of the frames and its identity. */
  type Animation = a: AnimationData | |a.frames| <= MAX_FRAMES
    witness AnimationData("", [], [0, 0, 0, 0, 0, 0, 0, 0, 0, 0, 0, 0, 0, 0, 0, 0])

  /** An Animation holds at most 255 frames, each held for at most 65535 ms. */
  lemma AnimationBounds(a: Animation)
    ensures GetFrameCount(a) <= 255
    ensures forall f :: f in a.frames ==> 0 <= f.msDuration <= 65535
  {
  }

  /** `Animation()`: no frames, an empty name and a fresh identity. */
  function DefaultAnimation(id: UUID): (a: Animation)
    ensures GetFrameCount(a) == 0 && GetName(a) == "" && a.id == id
  {
    AnimationData("", [], id)
  }

  /** `Animation(frames, frameCount, name)`: copies the first `frameCount` frames of the
      caller's array, which must hold at least that many. */
  function NewAnimation(source: seq<AnimationFrame>, frameCount: u8, name: string, id: UUID): (a: Animation)
    requires frameCount <= |source|
    ensures GetFrameCount(a) == frameCount && a.frames <= source
    ensures GetName(a) == name && a.id == id
  {
    AnimationData(name, source[..frameCount], id)
  }

  /** `getName`. */
  function GetName(a: Animation): (s: string)
    ensures s == a.name
  {
    a.name
  }

  /** `getFrameCount`: the number of frames held, which fits in a `u_int8_t`. */
  function GetFrameCount(a: Animation): (n: u8)
    ensures n as int == |a.frames| <= MAX_FRAMES
  {
    |a.frames|
  }

  /** The frame at `frameNumber`, wrapped modulo the frame count. The count must not be 0:
      the source divides by it. */
  function GetFrame(a: Animation, frameNumber: u8): (f: AnimationFrame)
    requires GetFrameCount(a) > 0
    ensures f in a.frames
  {
    a.frames[frameNumber % GetFrameCount(a)]
  }

  /** Two Animations are the same for scheduling purposes when their identities are. */
  predicate SameIdentity(a: Animation, b: Animation)
  {
    Uuid.Equal(a.id, b.id)
  }

  /** The getters of a constructed Animation give back what it was built from. */
  lemma NewAnimationGetters(source: seq<AnimationFrame>, n: u8, name: string, id: UUID, i: u8)
    requires 1 <= n <= |source|
    ensures var a := NewAnimation(source, n, name, id);
            GetFrameCount(a) == n && GetName(a) == name && a.id == id &&
            GetFrame(a, i) == source[i % n]
  {
  }

  /** The wrap-around law: indices that differ by whole multiples of the frame count name
      the same frame (within the `u_int8_t` range of the argument). */
  lemma GetFrameWraps(a: Animation, i: u8, k: nat)
    requires GetFrameCount(a) > 0
    requires i + k * GetFrameCount(a) < U8_LIMIT
    ensures GetFrame(a, i) == GetFrame(a, i + k * GetFrameCount(a))
  {
    ModArith.ModAddPeriods(i, k, GetFrameCount(a));
  }
}
