/** Where a manager stands in its Animation, and the pure rules by which that position
    moves: the specification the `LEDManager` methods are proved against. */
module Schedule {
  import opened MachineInts
  import opened Animations
  import opened Timing
  import ModArith

  /** `animFrameIndex`, the cached `currentFrame` and `animFrameStartTime`. */
  datatype Position = Position(index: int, frame: AnimationFrame, startTime: u32)

  /** The index is a frame of the Animation and the cached frame is that frame. */
  predicate InRange(a: Animation, p: Position)
  {
    0 <= p.index < |a.frames| && p.frame == a.frames[p.index]
  }

  /** The reset `setAnimation` performs: frame 0, started now. */
  function Install(a: Animation, now: u32): (p: Position)
    requires GetFrameCount(a) > 0
    ensures InRange(a, p) && p.index == 0 && p.startTime == now
  {
    Position(0, GetFrame(a, 0), now)
  }

  /** `nextFrame`: the following frame, wrapping to 0 after the last one, started now. */
  function Advance(a: Animation, p: Position, now: u32): (q: Position)
    requires InRange(a, p)
    ensures InRange(a, q) && q.startTime == now
    ensures q.index == (p.index + 1) % |a.frames|
    ensures q.index == if p.index + 1 == |a.frames| then 0 else p.index + 1
  {
    var n := GetFrameCount(a);
    var i := (p.index + 1) % n;
    ModArith.ModSuccessor(p.index, n);
    assert 0 <= i < n;
    ModArith.ModSuccessor(i, n);
    Position(i, GetFrame(a, i), now)
  }

  /** The parking condition of the loop: a frame that holds forever, or nothing to cycle
      through. A position that does not park has another frame to go to, and its frame has
      expired one millisecond after its duration is up. */
  predicate Parks(a: Animation, p: Position): (parks: bool)
    ensures !parks ==>
              && GetFrameCount(a) >= 2
              && Expired(p, ((p.startTime + p.frame.msDuration + 1) % U32_LIMIT) as u32)
  {
    p.frame.msDuration == 0 || GetFrameCount(a) <= 1
  }

  /** The advance condition: strictly more than the frame's duration has elapsed, counting
      across a wrap of the clock; a frame that holds forever never expires. */
  predicate Expired(p: Position, now: u32): (expired: bool)
    ensures expired ==> p.frame.msDuration > 0
    ensures p.startTime <= now ==> (expired <==> now - p.startTime > p.frame.msDuration > 0)
    ensures now < p.startTime ==>
              (expired <==> now + U32_LIMIT - p.startTime > p.frame.msDuration > 0)
  {
    Elapsed(now, p.startTime) > p.frame.msDuration && p.frame.msDuration != 0
  }

  /** One decision of the loop's advancing branch: `t1` is the reading the expiry is judged
      by, `t2` the one `nextFrame` starts the new frame at. */
  function Step(a: Animation, p: Position, t1: u32, t2: u32): (q: Position)
    requires InRange(a, p)
    ensures InRange(a, q)
    ensures q.index == if Expired(p, t1) then (p.index + 1) % |a.frames| else p.index
    ensures q.startTime == if Expired(p, t1) then t2 else p.startTime
  {
    if Expired(p, t1) then Advance(a, p, t2) else p
  }

  /** `calcTime`: what is left of the current frame at the reading `t3`. */
  function Remaining(p: Position, t3: u32): (r: int)
    ensures -INT32_LIMIT <= r < INT32_LIMIT
    ensures Elapsed(t3, p.startTime) <= p.frame.msDuration ==> 0 <= r <= p.frame.msDuration
    ensures r > 0 ==> Elapsed(t3, p.startTime) < p.frame.msDuration ||
                      Elapsed(t3, p.startTime) > p.frame.msDuration + INT32_LIMIT
  {
    CalcTime(p.frame.msDuration, Elapsed(t3, p.startTime))
  }

  /** Advancing once per reading in `times`. */
  function AdvanceAll(a: Animation, p: Position, times: seq<u32>): (q: Position)
    requires InRange(a, p)
    ensures InRange(a, q)
    decreases |times|
  {
    if times == [] then p else AdvanceAll(a, Advance(a, p, times[0]), times[1..])
  }

  /** After `k` advances the index has moved `k` places round the cycle. */
  lemma {:induction false} AdvanceAllIndex(a: Animation, p: Position, times: seq<u32>)
    requires InRange(a, p)
    ensures AdvanceAll(a, p, times).index == (p.index + |times|) % |a.frames|
    decreases |times|
  {
    if times != [] {
      var q := Advance(a, p, times[0]);
      var rest := AdvanceAll(a, q, times[1..]);
      AdvanceAllIndex(a, q, times[1..]);
      IndexChain(p.index + 1, |times| - 1, |a.frames|, q.index, rest.index);
    }
  }

  /** Stepping `x` round a cycle of `n` once and then `k` more times is stepping it `k + 1` times. */
  lemma IndexChain(x: int, k: int, n: int, first: int, last: int)
    requires n > 0 && first == x % n && last == (first + k) % n
    ensures last == (x + k) % n
  {
    ModArith.ModOfSum(x, k, n);
  }

  /** A whole cycle of advances comes back to the frame it started from. */
  lemma FullCycle(a: Animation, p: Position, times: seq<u32>)
    requires InRange(a, p) && |times| == |a.frames|
    ensures AdvanceAll(a, p, times).index == p.index
    ensures AdvanceAll(a, p, times).frame == p.frame
  {
    AdvanceAllIndex(a, p, times);
    ModArith.ModAddPeriods(p.index, 1, |a.frames|);
    ModArith.ModSuccessor(p.index, |a.frames|);
  }

  /** An Animation parks straight after installation exactly when it is a single frame or
      its first frame holds forever. */
  lemma InstalledParks(a: Animation, now: u32)
    requires GetFrameCount(a) > 0
    ensures Parks(a, Install(a, now)) <==> (|a.frames| == 1 || a.frames[0].msDuration == 0)
  {
  }
}
