/**
 * The replay ring buffer of camera/ring_buffer.py: a deque bounded by max_frames, with a
 * frame counter that stamps each pushed frame. The frame payload is the type parameter F;
 * the wall-clock timestamp is not modelled.
 */
module RingBuffers {
  import opened Common

  datatype TimestampedFrame<F> = TimestampedFrame(frame: F, frameNumber: int)

  /** Python's index normalisation for one slice bound: negative counts from the end, then clamp. */
  function SliceBound(len: nat, k: int): (b: nat)
    ensures b <= len
    ensures k >= 0 ==> b == Min(k, len)
    ensures k < 0 ==> b == Max(0, len + k)
  {
    if k < 0 then (if len + k < 0 then 0 else len + k) else (if k > len then len else k)
  }

  /** `s[start:end]` with Python semantics. */
  function PySlice<T>(s: seq<T>, start: int, end: int): (r: seq<T>)
    ensures SliceBound(|s|, start) <= SliceBound(|s|, end) ==> r == s[SliceBound(|s|, start)..SliceBound(|s|, end)]
    ensures SliceBound(|s|, start) > SliceBound(|s|, end) ==> r == []
  {
    var a, b := SliceBound(|s|, start), SliceBound(|s|, end);
    if a <= b then s[a..b] else []
  }

  /** `s[k:]` with Python semantics. */
  function PySliceFrom<T>(s: seq<T>, k: int): (r: seq<T>)
    ensures r == s[SliceBound(|s|, k)..]
  {
    s[SliceBound(|s|, k)..]
  }

  /** deque.append under a maxlen: the new element goes last, and a full deque drops its oldest. */
  function DequeAppend<T>(s: seq<T>, x: T, maxlen: nat): (r: seq<T>)
    requires |s| <= maxlen
  {
    if |s| < maxlen then s + [x] else (s + [x])[1..]
  }

  /** The deque never exceeds maxlen, ends in the new element (unless maxlen is 0) and keeps the rest in order. */
  lemma DequeAppendSpec<T>(s: seq<T>, x: T, maxlen: nat)
    requires |s| <= maxlen
    ensures |DequeAppend(s, x, maxlen)| == Min(|s| + 1, maxlen)
    ensures maxlen > 0 ==> DequeAppend(s, x, maxlen)[|DequeAppend(s, x, maxlen)| - 1] == x
    ensures DequeAppend(s, x, maxlen) == (s + [x])[|s| + 1 - Min(|s| + 1, maxlen)..]
    ensures |s| == maxlen && maxlen > 0 ==> DequeAppend(s, x, maxlen) == s[1..] + [x]
    ensures maxlen == 0 ==> DequeAppend(s, x, maxlen) == []
  {
    if |s| == maxlen && maxlen > 0 {
      assert (s + [x])[1..] == s[1..] + [x];
    }
  }

  /** Frame numbers run contiguously from the oldest frame up to the counter. */
  ghost predicate Numbered<F>(buf: seq<TimestampedFrame<F>>, counter: int) {
    forall i :: 0 <= i < |buf| ==> buf[i].frameNumber == counter - |buf| + 1 + i
  }

  /** Under the numbering, position k holds frame number counter - |buf| + 1 + k. */
  lemma NumberAt<F>(buf: seq<TimestampedFrame<F>>, counter: int, k: int)
    requires Numbered(buf, counter)
    ensures 0 <= k < |buf| ==> buf[k].frameNumber == counter - |buf| + 1 + k
  {
  }

  class ReplayBuffer<F> {
    const maxFrames: nat
    const fps: int
    /** The deque, oldest frame first. */
    var buffer: seq<TimestampedFrame<F>>
    var frameCounter: int

    /** The deque holds at most max_frames frames, stamped with consecutive numbers ending in the counter. */
    ghost predicate Valid()
      reads this
    {
      |buffer| <= maxFrames && |buffer| <= frameCounter && Numbered(buffer, frameCounter)
    }

    /** max_frames = max_seconds * fps; the deque refuses a negative maxlen. */
    constructor (maxSeconds: int, fps: int)
      requires maxSeconds * fps >= 0
      ensures Valid()
      ensures maxFrames == maxSeconds * fps && this.fps == fps && buffer == [] && frameCounter == 0
    {
      maxFrames := maxSeconds * fps;
      this.fps := fps;
      buffer := [];
      frameCounter := 0;
    }

    /** push: the counter goes up by one and stamps the new newest frame; a full buffer drops its oldest. */
    method Push(frame: F)
      requires Valid()
      modifies this
      ensures Valid()
      ensures frameCounter == old(frameCounter) + 1
      ensures buffer == DequeAppend(old(buffer), TimestampedFrame(frame, frameCounter), maxFrames)
      ensures maxFrames > 0 ==> NewestFrame() == Some(TimestampedFrame(frame, frameCounter))
      ensures old(|buffer|) == maxFrames > 0 ==> buffer == old(buffer)[1..] + [TimestampedFrame(frame, frameCounter)]
      ensures old(|buffer|) < maxFrames ==> buffer == old(buffer) + [TimestampedFrame(frame, frameCounter)]
    {
      frameCounter := frameCounter + 1;
      var stamped := TimestampedFrame(frame, frameCounter);
      DequeAppendSpec(buffer, stamped, maxFrames);
      PushKeepsNumbering(buffer, frameCounter - 1, frame, maxFrames);
      buffer := DequeAppend(buffer, stamped, maxFrames);
    }

    /** get_last_n_seconds: `list(buffer)[-count:]` for count = min(seconds * fps, size). */
    function GetLastNSeconds(seconds: int): (r: seq<TimestampedFrame<F>>)
      reads this
      ensures var count := Min(seconds * fps, |buffer|);
        (count > 0 ==> r == buffer[|buffer| - count..] && |r| == count) &&
        (count == 0 ==> r == buffer) &&
        (count < 0 ==> r == buffer[Min(-count, |buffer|)..])
    {
      var count := Min(seconds * fps, |buffer|);
      PySliceFrom(buffer, -count)
    }

    /** get_frame_at: the frame at a buffer index (0 is the oldest), or None out of range. */
    function GetFrameAt(index: int): (r: Option<TimestampedFrame<F>>)
      reads this
      ensures r.Some? <==> 0 <= index < |buffer|
      ensures r.Some? ==> r.value == buffer[index]
    {
      if 0 <= index < |buffer| then Some(buffer[index]) else None
    }

    /** get_frame_by_number: the first frame carrying the number, or None. */
    method GetFrameByNumber(frameNumber: int) returns (r: Option<TimestampedFrame<F>>)
      requires Valid()
      ensures r.Some? <==> frameCounter - |buffer| < frameNumber <= frameCounter
      ensures r.Some? ==> r == GetFrameAt(frameNumber - (frameCounter - |buffer| + 1)) &&
                          r.value.frameNumber == frameNumber
    {
      for i := 0 to |buffer|
        invariant forall j :: 0 <= j < i ==> buffer[j].frameNumber != frameNumber
      {
        if buffer[i].frameNumber == frameNumber {
          return Some(buffer[i]);
        }
      }
      var k := frameNumber - (frameCounter - |buffer| + 1);
      NumberAt(buffer, frameCounter, k);
      return None;
    }

    /** get_frames_in_range: `list(buffer)[max(0, s) : min(size, e + 1)]`, inclusive of e. */
    function GetFramesInRange(startIndex: int, endIndex: int): (r: seq<TimestampedFrame<F>>)
      reads this
      ensures 0 <= startIndex <= endIndex < |buffer| ==> r == buffer[startIndex..endIndex + 1] &&
                                                         |r| == endIndex - startIndex + 1
      ensures -1 <= endIndex ==> r == buffer[Min(Max(0, startIndex), Min(|buffer|, endIndex + 1))..Min(|buffer|, endIndex + 1)]
      ensures |r| <= |buffer|
    {
      PySlice(buffer, Max(0, startIndex), Min(|buffer|, endIndex + 1))
    }

    /** clear: empty, and the next push is numbered 1. */
    method Clear()
      requires Valid()
      modifies this
      ensures Valid() && buffer == [] && frameCounter == 0
    {
      buffer := [];
      frameCounter := 0;
    }

    function Size(): (n: nat)
      reads this
      ensures n == |buffer|
    {
      |buffer|
    }

    /** is_full: size >= max_frames. */
    function IsFull(): (b: bool)
      reads this
      ensures b <==> |buffer| >= maxFrames
    {
      |buffer| >= maxFrames
    }

    function OldestFrame(): (r: Option<TimestampedFrame<F>>)
      reads this
      ensures r.Some? <==> |buffer| > 0
      ensures r.Some? ==> r.value == buffer[0]
    {
      if |buffer| > 0 then Some(buffer[0]) else None
    }

    function NewestFrame(): (r: Option<TimestampedFrame<F>>)
      reads this
      ensures r.Some? <==> |buffer| > 0
      ensures r.Some? ==> r.value == buffer[|buffer| - 1]
    {
      if |buffer| > 0 then Some(buffer[|buffer| - 1]) else None
    }
  }

  /** Pushing keeps the numbering contiguous: the dropped frame is the oldest, the new one is the counter. */
  lemma PushKeepsNumbering<F>(buf: seq<TimestampedFrame<F>>, counter: int, frame: F, maxlen: nat)
    requires |buf| <= maxlen && Numbered(buf, counter)
    ensures Numbered(DequeAppend(buf, TimestampedFrame(frame, counter + 1), maxlen), counter + 1)
  {
    var x := TimestampedFrame(frame, counter + 1);
    var r := DequeAppend(buf, x, maxlen);
    DequeAppendSpec(buf, x, maxlen);
    var drop := |buf| + 1 - |r|;
    forall i | 0 <= i < |r| ensures r[i].frameNumber == counter + 1 - |r| + 1 + i {
      assert r[i] == (buf + [x])[drop + i];
      if drop + i < |buf| {
        assert (buf + [x])[drop + i] == buf[drop + i];
      }
    }
  }

  /**
   * Slice ends below zero count from the back: get_frames_in_range(0, e) with e <= -2 computes
   * the slice [0:e + 1] and so drops the newest -(e + 1) frames; on a buffer of five frames,
   * get_frames_in_range(0, -2) returns the first four. End -1 makes the slice [0:0], which is empty.
   */
  lemma RangeWithNegativeEndCountsFromBack<T>(s: seq<T>, endIndex: int)
    requires endIndex < 0
    ensures endIndex <= -2 ==> PySlice(s, Max(0, 0), Min(|s|, endIndex + 1)) == s[..Max(0, |s| + endIndex + 1)]
    ensures endIndex == -1 ==> PySlice(s, Max(0, 0), Min(|s|, endIndex + 1)) == []
  {
  }

  /** get_last_n_seconds(0) slices from -0, which is the start: the whole buffer comes back. */
  lemma ZeroSecondsIsWholeBuffer<T>(s: seq<T>)
    ensures PySliceFrom(s, -Min(0, |s|)) == s
  {
  }
}
