/**
 * Playback state and index logic of the replay engine (camera/replay_engine.py). The engine
 * shares a ReplayBuffer, which frames are pushed into from outside; its methods only read it.
 * Speeds are whole thousandths of real time (1000 is normal speed, 125 is one eighth), and
 * the playback timer is reduced to whether it is running.
 */
module Replay {
  import opened Common
  import opened RingBuffers

  datatype PlaybackState = Stopped | Playing | Paused | FrameStep

  /** SPEEDS, in thousandths. */
  const Speeds: seq<int> := [125, 250, 500, 750, 1000, 1500, 2000]
  const MinSpeed := 125
  const MaxSpeed := 2000
  /** The position of 1.0 in SPEEDS, used for a speed that is not listed. */
  const NormalSpeedIndex := 4

  /** The speed clamp of play and set_speed: max(0.125, min(2.0, speed)). */
  function ClampSpeed(speed: int): (r: int)
    ensures MinSpeed <= r <= MaxSpeed
    ensures MinSpeed <= speed <= MaxSpeed ==> r == speed
    ensures speed < MinSpeed ==> r == MinSpeed
    ensures speed > MaxSpeed ==> r == MaxSpeed
  {
    Clamp(speed, MinSpeed, MaxSpeed)
  }

  /** SPEEDS.index(speed), or the index of 1.0 when the speed is not listed. */
  function SpeedIndex(speed: int): (r: nat)
    ensures r < |Speeds|
    ensures speed in Speeds ==> Speeds[r] == speed && forall j :: 0 <= j < r ==> Speeds[j] != speed
    ensures speed !in Speeds ==> r == NormalSpeedIndex
  {
    if speed == 125 then 0
    else if speed == 250 then 1
    else if speed == 500 then 2
    else if speed == 750 then 3
    else if speed == 1000 then 4
    else if speed == 1500 then 5
    else if speed == 2000 then 6
    else NormalSpeedIndex
  }

  /** The speed cycle_speed moves to: the position in SPEEDS moves by direction, clamped to the list. */
  function CycledSpeed(speed: int, direction: int): (r: int)
    ensures r in Speeds
    ensures r == Speeds[Clamp(SpeedIndex(speed) + direction, 0, |Speeds| - 1)]
  {
    Speeds[Clamp(SpeedIndex(speed) + direction, 0, |Speeds| - 1)]
  }

  /** SPEEDS is strictly increasing, so moving up the list never slows playback down. */
  lemma SpeedsIncreasing(i: int, j: int)
    requires 0 <= i < j < |Speeds|
    ensures Speeds[i] < Speeds[j]
  {
  }

  /** From a listed speed below the top, one step up and one step down returns to it; likewise the other way. */
  lemma CycleUpThenDown(speed: int)
    requires speed in Speeds
    ensures speed != MaxSpeed ==> CycledSpeed(CycledSpeed(speed, 1), -1) == speed
    ensures speed != MinSpeed ==> CycledSpeed(CycledSpeed(speed, -1), 1) == speed
  {
    var i := SpeedIndex(speed);
    if speed != MaxSpeed {
      assert i < 6;
      assert SpeedIndex(Speeds[i + 1]) == i + 1;
    }
    if speed != MinSpeed {
      assert i > 0;
      assert SpeedIndex(Speeds[i - 1]) == i - 1;
    }
  }

  /** Cycling up never slows playback: the result is at least the current speed, or 1.0 for an unlisted one. */
  lemma CycleUpIsFaster(speed: int, direction: int)
    requires direction >= 0
    ensures speed in Speeds ==> CycledSpeed(speed, direction) >= speed
    ensures speed !in Speeds ==> CycledSpeed(speed, direction) >= 1000
    ensures speed in Speeds && direction > 0 && speed != MaxSpeed ==> CycledSpeed(speed, direction) > speed
  {
    var i := SpeedIndex(speed);
    var k := Clamp(i + direction, 0, |Speeds| - 1);
    if i < k {
      SpeedsIncreasing(i, k);
    }
  }

  /** The clamp of seek_to_index: max(0, min(size - 1, index)). */
  function SeekTarget(index: int, size: int): (r: int)
    ensures size > 0 ==> 0 <= r < size
    ensures size <= 0 ==> r == 0
    ensures 0 <= index < size ==> r == index
    ensures index < 0 ==> r == 0
    ensures 0 < size <= index ==> r == size - 1
  {
    Max(0, Min(size - 1, index))
  }

  /** Seeking to where a seek landed stays put. */
  lemma SeekIdempotent(index: int, size: int)
    ensures SeekTarget(SeekTarget(index, size), size) == SeekTarget(index, size)
  {
  }

  /** Stepping forward by k and then back by k returns to the start when the forward step stays inside the buffer. */
  lemma StepForwardThenBack(index: int, k: int, size: int)
    requires 0 <= index && 0 <= k && index + k < size
    ensures SeekTarget(SeekTarget(index + k, size) - k, size) == index
  {
  }

  /** The index after one playback tick from PLAYING. */
  function TickIndex(index: int, size: int, looping: bool): (r: int)
    ensures index + 1 < size ==> r == index + 1
    ensures index + 1 >= size && looping ==> r == 0
    ensures index + 1 >= size && !looping ==> r == size - 1
  {
    if index + 1 >= size then (if looping then 0 else size - 1) else index + 1
  }

  /** Whether that tick ran past the end without looping and so paused playback. */
  function TickPauses(index: int, size: int, looping: bool): (b: bool)
    ensures b <==> index + 1 >= size && !looping
  {
    index + 1 >= size && !looping
  }

  /** A tick from any index the engine can hold lands inside a non-empty buffer. */
  lemma TickStaysInBuffer(index: int, size: int, looping: bool)
    requires index >= -1 && size > 0
    ensures 0 <= TickIndex(index, size, looping) < size
  {
  }

  /** A looping playback never pauses by itself. */
  lemma LoopingNeverPauses(index: int, size: int)
    ensures !TickPauses(index, size, true)
  {
  }

  /** On an empty buffer a tick without looping parks the index at -1, one before the start. */
  lemma EmptyBufferParksBeforeStart(index: int)
    requires index >= -1
    ensures TickIndex(index, 0, false) == -1 && TickPauses(index, 0, false)
  {
  }

  /** The index after k consecutive ticks of a looping playback. */
  function LoopTicks(index: int, size: int, k: nat): (r: int)
    requires size > 0
    ensures k > 0 && index >= -1 ==> 0 <= r < size
    ensures k == 0 ==> r == index
    decreases k
  {
    if k == 0 then index else LoopTicks(TickIndex(index, size, true), size, k - 1)
  }

  /** Ticks compose: a + b ticks are a ticks followed by b ticks. */
  lemma {:induction false} LoopTicksAdd(index: int, size: int, a: nat, b: nat)
    requires size > 0
    ensures LoopTicks(index, size, a + b) == LoopTicks(LoopTicks(index, size, a), size, b)
    decreases a
  {
    if a > 0 {
      LoopTicksAdd(TickIndex(index, size, true), size, a - 1, b);
    }
  }

  /** Inside the buffer each tick moves one frame on. */
  lemma {:induction false} LoopTicksAdvance(index: int, size: int, k: nat)
    requires size > 0 && 0 <= index && index + k < size
    ensures LoopTicks(index, size, k) == index + k
    decreases k
  {
    if k > 0 {
      LoopTicksAdvance(index + 1, size, k - 1);
    }
  }

  /** A looping playback is periodic: after as many ticks as the buffer has frames it is back where it started. */
  lemma LoopingPlaybackIsPeriodic(index: int, size: int)
    requires 0 <= index < size
    ensures LoopTicks(index, size, size) == index
  {
    var a := size - 1 - index;
    LoopTicksAdd(index, size, a, index + 1);
    LoopTicksAdvance(index, size, a);
    LoopTicksAdd(size - 1, size, 1, index);
    assert LoopTicks(size - 1, size, 1) == 0 by {
      assert TickIndex(size - 1, size, true) == 0;
    }
    LoopTicksAdvance(0, size, index);
  }

  /** The range export_clip writes: both marks are needed, and the clip runs from the smaller to the larger. */
  function ExportSpan(markIn: Option<int>, markOut: Option<int>): (r: Option<(int, int)>)
    ensures r.Some? <==> markIn.Some? && markOut.Some?
    ensures r.Some? ==> r.value.0 <= r.value.1
    ensures r.Some? ==> (r.value.0 == markIn.value && r.value.1 == markOut.value) ||
                        (r.value.0 == markOut.value && r.value.1 == markIn.value)
  {
    if markIn.None? || markOut.None? then None
    else Some((Min(markIn.value, markOut.value), Max(markIn.value, markOut.value)))
  }

  /** The engine's fields; the wrapped buffer is shared and only read. */
  class ReplayEngine<F> {
    const buffer: ReplayBuffer<F>
    const fps: int
    var state: PlaybackState
    var currentIndex: int
    /** The playback speed in thousandths. */
    var speed: int
    var isLooping: bool
    var markIn: Option<int>
    var markOut: Option<int>
    /** Whether the playback timer is running. */
    var timerActive: bool

    /**
     * The timer runs exactly while PLAYING, the speed stays within the clamp, and no
     * method moves the index below -1 (the parked position on an empty buffer).
     */
    ghost predicate Valid()
      reads this
    {
      (timerActive <==> state == Playing) && MinSpeed <= speed <= MaxSpeed && currentIndex >= -1
    }

    function TotalFrames(): (n: nat)
      reads buffer
      ensures n == |buffer.buffer|
    {
      buffer.Size()
    }

    constructor (replayBuffer: ReplayBuffer<F>, fps: int)
      ensures Valid()
      ensures buffer == replayBuffer && this.fps == fps
      ensures state == Stopped && currentIndex == 0 && speed == 1000 && !isLooping
      ensures markIn == None && markOut == None && !timerActive
    {
      buffer := replayBuffer;
      this.fps := fps;
      state := Stopped;
      currentIndex := 0;
      speed := 1000;
      isLooping := false;
      markIn := None;
      markOut := None;
      timerActive := false;
    }

    /** play: clamp the speed, enter PLAYING and start the timer. */
    method Play(newSpeed: int)
      requires Valid()
      modifies this
      ensures Valid()
      ensures speed == ClampSpeed(newSpeed) && state == Playing && timerActive
      ensures currentIndex == old(currentIndex) && isLooping == old(isLooping)
      ensures markIn == old(markIn) && markOut == old(markOut)
    {
      speed := ClampSpeed(newSpeed);
      state := Playing;
      timerActive := true;
    }

    /** pause: stop the timer and enter PAUSED. */
    method Pause()
      requires Valid()
      modifies this
      ensures Valid()
      ensures state == Paused && !timerActive
      ensures currentIndex == old(currentIndex) && speed == old(speed) && isLooping == old(isLooping)
      ensures markIn == old(markIn) && markOut == old(markOut)
    {
      timerActive := false;
      state := Paused;
    }

    /** stop: stop the timer, enter STOPPED and rewind to index 0. */
    method Stop()
      requires Valid()
      modifies this
      ensures Valid()
      ensures state == Stopped && !timerActive && currentIndex == 0
      ensures speed == old(speed) && isLooping == old(isLooping)
      ensures markIn == old(markIn) && markOut == old(markOut)
    {
      timerActive := false;
      state := Stopped;
      currentIndex := 0;
    }

    /** toggle_play_pause: PLAYING goes to PAUSED, every other state plays at the current speed. */
    method TogglePlayPause()
      requires Valid()
      modifies this
      ensures Valid()
      ensures old(state) == Playing ==> state == Paused
      ensures old(state) != Playing ==> state == Playing
      ensures speed == old(speed) && currentIndex == old(currentIndex) && isLooping == old(isLooping)
      ensures markIn == old(markIn) && markOut == old(markOut)
    {
      if state == Playing {
        Pause();
      } else {
        Play(speed);
      }
    }

    /** set_speed: clamp the speed and, when PLAYING, restart playback at it. */
    method SetSpeed(newSpeed: int)
      requires Valid()
      modifies this
      ensures Valid()
      ensures speed == ClampSpeed(newSpeed)
      ensures state == old(state) && timerActive == old(timerActive)
      ensures currentIndex == old(currentIndex) && isLooping == old(isLooping)
      ensures markIn == old(markIn) && markOut == old(markOut)
    {
      speed := ClampSpeed(newSpeed);
      if state == Playing {
        Play(speed);
      }
    }

    /** cycle_speed: move along SPEEDS by direction and return the new speed. */
    method CycleSpeed(direction: int) returns (r: int)
      requires Valid()
      modifies this
      ensures Valid()
      ensures r == speed == CycledSpeed(old(speed), direction)
      ensures state == old(state) && timerActive == old(timerActive)
      ensures currentIndex == old(currentIndex) && isLooping == old(isLooping)
      ensures markIn == old(markIn) && markOut == old(markOut)
    {
      var newIdx := Clamp(SpeedIndex(speed) + direction, 0, |Speeds| - 1);
      SetSpeed(Speeds[newIdx]);
      r := speed;
    }

    /** seek_to_index: move to the index, clamped into the buffer. */
    method SeekToIndex(index: int)
      requires Valid()
      modifies this
      ensures Valid()
      ensures currentIndex == SeekTarget(index, TotalFrames())
      ensures state == old(state) && timerActive == old(timerActive) && speed == old(speed)
      ensures isLooping == old(isLooping) && markIn == old(markIn) && markOut == old(markOut)
    {
      currentIndex := SeekTarget(index, buffer.Size());
    }

    /** seek_to_end: the newest frame, or index 0 on an empty buffer. */
    method SeekToEnd()
      requires Valid()
      modifies this
      ensures Valid()
      ensures TotalFrames() > 0 ==> currentIndex == TotalFrames() - 1
      ensures TotalFrames() == 0 ==> currentIndex == 0
      ensures state == old(state) && timerActive == old(timerActive) && speed == old(speed)
      ensures isLooping == old(isLooping) && markIn == old(markIn) && markOut == old(markOut)
    {
      SeekToIndex(buffer.Size() - 1);
    }

    /** step_forward: enter FRAME_STEP, stop the timer and seek frames ahead. */
    method StepForward(frames: int)
      requires Valid()
      modifies this
      ensures Valid()
      ensures state == FrameStep && !timerActive
      ensures currentIndex == SeekTarget(old(currentIndex) + frames, TotalFrames())
      ensures speed == old(speed) && isLooping == old(isLooping)
      ensures markIn == old(markIn) && markOut == old(markOut)
    {
      state := FrameStep;
      timerActive := false;
      SeekToIndex(currentIndex + frames);
    }

    /** step_backward: enter FRAME_STEP, stop the timer and seek frames back. */
    method StepBackward(frames: int)
      requires Valid()
      modifies this
      ensures Valid()
      ensures state == FrameStep && !timerActive
      ensures currentIndex == SeekTarget(old(currentIndex) - frames, TotalFrames())
      ensures speed == old(speed) && isLooping == old(isLooping)
      ensures markIn == old(markIn) && markOut == old(markOut)
    {
      state := FrameStep;
      timerActive := false;
      SeekToIndex(currentIndex - frames);
    }

    /** set_mark_in: the mark-in point becomes the current index, which is returned. */
    method SetMarkIn() returns (m: int)
      requires Valid()
      modifies this
      ensures Valid()
      ensures m == currentIndex && markIn == Some(m)
      ensures state == old(state) && timerActive == old(timerActive) && speed == old(speed)
      ensures currentIndex == old(currentIndex) && isLooping == old(isLooping) && markOut == old(markOut)
    {
      markIn := Some(currentIndex);
      m := currentIndex;
    }

    /** set_mark_out: the mark-out point becomes the current index, which is returned. */
    method SetMarkOut() returns (m: int)
      requires Valid()
      modifies this
      ensures Valid()
      ensures m == currentIndex && markOut == Some(m)
      ensures state == old(state) && timerActive == old(timerActive) && speed == old(speed)
      ensures currentIndex == old(currentIndex) && isLooping == old(isLooping) && markIn == old(markIn)
    {
      markOut := Some(currentIndex);
      m := currentIndex;
    }

    /** clear_marks: both marks are unset. */
    method ClearMarks()
      requires Valid()
      modifies this
      ensures Valid()
      ensures markIn == None && markOut == None
      ensures state == old(state) && timerActive == old(timerActive) && speed == old(speed)
      ensures currentIndex == old(currentIndex) && isLooping == old(isLooping)
    {
      markIn := None;
      markOut := None;
    }

    /** set_loop. */
    method SetLoop(enabled: bool)
      requires Valid()
      modifies this
      ensures Valid()
      ensures isLooping == enabled
      ensures state == old(state) && timerActive == old(timerActive) && speed == old(speed)
      ensures currentIndex == old(currentIndex) && markIn == old(markIn) && markOut == old(markOut)
    {
      isLooping := enabled;
    }

    /**
     * _on_playback_tick: outside PLAYING nothing happens; otherwise the index moves one
     * frame on, wrapping to 0 when looping, or pausing on the last frame past the end.
     */
    method OnPlaybackTick()
      requires Valid()
      modifies this
      ensures Valid()
      ensures old(state) != Playing ==> state == old(state) && currentIndex == old(currentIndex) &&
                                        timerActive == old(timerActive)
      ensures old(state) == Playing ==>
                currentIndex == TickIndex(old(currentIndex), TotalFrames(), isLooping) &&
                (state == if TickPauses(old(currentIndex), TotalFrames(), isLooping) then Paused else Playing)
      ensures speed == old(speed) && isLooping == old(isLooping)
      ensures markIn == old(markIn) && markOut == old(markOut)
    {
      if state != Playing {
        return;
      }
      currentIndex := currentIndex + 1;
      if currentIndex >= buffer.Size() {
        if isLooping {
          currentIndex := 0;
        } else {
          Pause();
          currentIndex := buffer.Size() - 1;
          return;
        }
      }
    }

    /** The marked span export_clip uses, or None while a mark is missing. */
    function MarkedSpan(): (r: Option<(int, int)>)
      reads this
      ensures r.Some? <==> markIn.Some? && markOut.Some?
      ensures r.Some? ==> r.value.0 <= r.value.1
    {
      ExportSpan(markIn, markOut)
    }

    /**
     * The frames export_clip writes: None without both marks or when the range holds no
     * frame, otherwise the buffer's frames from the smaller mark to the larger, inclusive.
     */
    function ClipFrames(): (r: Option<seq<TimestampedFrame<F>>>)
      reads this, buffer
      ensures r.Some? ==> markIn.Some? && markOut.Some? && |r.value| > 0
      ensures r.Some? ==> r.value == buffer.GetFramesInRange(MarkedSpan().value.0, MarkedSpan().value.1)
      ensures (MarkedSpan().Some? && 0 <= MarkedSpan().value.0 && MarkedSpan().value.1 < TotalFrames()) ==>
                r.Some? && |r.value| == MarkedSpan().value.1 - MarkedSpan().value.0 + 1
    {
      var span := MarkedSpan();
      if span.None? then None
      else
        var frames := buffer.GetFramesInRange(span.value.0, span.value.1);
        if |frames| == 0 then None else Some(frames)
    }
  }
}
