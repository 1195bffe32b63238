/** The playback side of the audio interface: a transport state, a frame
    cursor, and the stream callback that copies frames of the working buffer
    into the output block the audio device asks for.  Opening and starting
    the device stream is not modelled; `Play` records only its outcome. */
module PlaybackTransport {
  import opened SampleBuffer

  datatype TransportState = Idle | Playing | Recording

  /** The value the callback returns to the audio stream. */
  datatype CallbackResult = Continue | Complete

  /** Samples per frame the callback copies: two for a stereo buffer and one
      otherwise. */
  function FrameWidth(b: BufferState): (w: int)
    ensures w == 1 || w == 2
    ensures w == 2 <==> b.numChannels == 2
  {
    if b.numChannels == 2 then 2 else 1
  }

  /** Frames one callback copies: what was asked for, but never past the end. */
  function CallbackFrames(numFrames: int, framePos: int, requested: int): (n: int)
    requires 0 <= framePos <= numFrames && 0 <= requested
    ensures 0 <= n <= requested && framePos + n <= numFrames
    ensures n == requested || framePos + n == numFrames
  {
    Min(requested, numFrames - framePos)
  }

  /** The stream is told to complete once the frames left fit in the block:
      exactly when this callback leaves the cursor at the end. */
  function CallbackOutcome(numFrames: int, framePos: int, requested: int): (r: CallbackResult)
    requires 0 <= framePos <= numFrames && 0 <= requested
    ensures r == Complete <==> framePos + CallbackFrames(numFrames, framePos, requested) == numFrames
  {
    if numFrames - framePos <= requested then Complete else Continue
  }

  class AudioInterface {
    var state: TransportState
    var framePos: nat

    constructor ()
      ensures state == Idle && framePos == 0
    {
      state, framePos := Idle, 0;
    }

    /** `set_pos`: the cursor is moved only while idle. */
    method SetPos(pos: nat)
      modifies this
      ensures state == old(state)
      ensures framePos == if old(state) == Idle then pos else old(framePos)
    {
      if state != Idle {
        return;
      }
      framePos := pos;
    }

    /** `play`: starts only when idle and the cursor is before the end (`num_frames`). */
    method Play(buffer: AudioBuffer)
      requires buffer.Valid()
      modifies this
      ensures framePos == old(framePos)
      ensures state == if old(state) == Idle && old(framePos) < buffer.numFrames then Playing else old(state)
    {
      if state != Idle {
        return;
      }
      if framePos >= buffer.GetNumFrames() {
        return;
      }
      state := Playing;
    }

    /** `stop`: asks the stream to stop when not idle; the transport state is
        left for the stream's finished notification to reset. */
    method Stop() returns (stopRequested: bool)
      ensures stopRequested <==> state != Idle
    {
      if state == Idle {
        return false;
      }
      stopRequested := true;
    }

    /** `stream_finished`: the device stream has ended. */
    method StreamFinished()
      modifies this
      ensures state == Idle && framePos == old(framePos)
    {
      state := Idle;
    }

    /** `playback_callback`: copy up to `requested` frames from the cursor into
        `output`, advance the cursor by the frames copied, and tell the stream
        whether this was the last block. */
    method PlaybackCallback(buffer: AudioBuffer, output: array<Sample>, requested: nat) returns (result: CallbackResult)
      requires buffer.Valid() && framePos <= buffer.numFrames
      requires output.Length >= requested * FrameWidth(buffer.State())
      modifies this, output
      ensures state == old(state)
      ensures framePos == old(framePos) + CallbackFrames(buffer.numFrames, old(framePos), requested)
      ensures result == CallbackOutcome(buffer.numFrames, old(framePos), requested)
      ensures forall k :: 0 <= k < CallbackFrames(buffer.numFrames, old(framePos), requested) * FrameWidth(buffer.State()) ==>
                0 <= old(framePos) * FrameWidth(buffer.State()) + k < |buffer.samples|
                && output[k] == buffer.samples[old(framePos) * FrameWidth(buffer.State()) + k]
      ensures forall k :: CallbackFrames(buffer.numFrames, old(framePos), requested) * FrameWidth(buffer.State()) <= k < output.Length ==>
                output[k] == old(output[k])
    {
      var framesLeft := buffer.GetNumFrames() - framePos;
      var num := Min(requested, framesLeft);
      var width := if buffer.IsStereo() then 2 else 1;
      var first := framePos * width;
      CopyBounds(buffer.State(), framePos, num, width);
      var i := 0;
      while i < num * width
        modifies output
        invariant 0 <= i <= num * width
        invariant forall k :: 0 <= k < i ==> output[k] == buffer.samples[first + k]
        invariant forall k :: i <= k < output.Length ==> output[k] == old(output[k])
      {
        output[i] := buffer.samples[first + i];
        i := i + 1;
      }
      framePos := framePos + num;
      result := if framesLeft <= requested then Complete else Continue;
    }
  }

  /** The frames the callback copies lie inside the store, and their samples
      fit in an output block of `requested` frames. */
  lemma CopyBounds(b: BufferState, pos: int, num: int, width: int)
    requires Consistent(b) && 0 <= pos && 0 <= num && pos + num <= b.numFrames
    requires width == FrameWidth(b)
    ensures 0 <= pos * width && (pos + num) * width <= |b.samples|
    ensures num * width + pos * width == (pos + num) * width
  {
    MulMonotone(0, pos, width);
    MulMonotone(pos + num, b.numFrames, width);
    OffsetInStore(b, b.numFrames);
    assert b.numFrames * width <= b.numFrames * b.numChannels by {
      MulMonotone(width, b.numChannels, b.numFrames);
    }
    Distrib(pos + num, pos, width);
  }

  // ---------------------------------------------------------------------
  // Properties of the callback sequence

  /** The cursor after `n` callbacks that each ask for `requested` frames. */
  function CursorAfter(numFrames: int, framePos: int, requested: nat, n: nat): (r: int)
    requires 0 <= framePos <= numFrames
    ensures framePos <= r <= numFrames
    decreases n
  {
    if n == 0 then framePos
    else CursorAfter(numFrames, framePos + CallbackFrames(numFrames, framePos, requested), requested, n - 1)
  }

  /** Closed form of the cursor: it advances by the block size per callback
      until it reaches the end, and stays there. */
  lemma {:induction false} CursorClosedForm(numFrames: int, framePos: int, requested: nat, n: nat)
    requires 0 <= framePos <= numFrames
    ensures CursorAfter(numFrames, framePos, requested, n) == Min(numFrames, framePos + n * requested)
    decreases n
  {
    if n > 0 {
      var next := framePos + CallbackFrames(numFrames, framePos, requested);
      CursorClosedForm(numFrames, next, requested, n - 1);
      assert framePos + n * requested == framePos + requested + (n - 1) * requested;
      if next == numFrames {
        MulMonotone(0, n - 1, requested);
      }
    }
  }

  /** Playing from `framePos` with blocks of `requested > 0` frames, callback
      number j (from 0) completes the stream exactly when it is the one that
      reaches the end: at j = ceil((numFrames - framePos) / requested) - 1. */
  lemma CompletesOnLastBlock(numFrames: int, framePos: int, requested: nat, j: nat)
    requires 0 <= framePos < numFrames && requested > 0
    ensures CallbackOutcome(numFrames, CursorAfter(numFrames, framePos, requested, j), requested) == Complete
            <==> framePos + (j + 1) * requested >= numFrames
  {
    CursorClosedForm(numFrames, framePos, requested, j);
    var c := CursorAfter(numFrames, framePos, requested, j);
    assert framePos + (j + 1) * requested == framePos + j * requested + requested;
    if framePos + j * requested >= numFrames {
      MulMonotone(0, j, requested);
    }
  }
}
