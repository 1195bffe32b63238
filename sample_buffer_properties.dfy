/** What the region operations of an AudioBuffer do to its samples, stated
    over the value functions the class methods are proved against. */
module SampleBufferProperties {
  import opened SampleBuffer

  // ---------------------------------------------------------------------
  // Layout

  /** Interleaving is a bijection: raw index `frame * ch + channel` belongs to
      exactly that frame and that channel. */
  lemma InterleavedLayout(frame: int, ch: int, channel: int)
    requires ch > 0 && 0 <= channel < ch
    ensures RawIndex(frame, ch, channel) / ch == frame
    ensures RawIndex(frame, ch, channel) % ch == channel
  {
    DivUnique(RawIndex(frame, ch, channel), ch, frame, channel);
  }

  /** Shifting a frame by `s` frames shifts its raw index by `s * ch`. */
  lemma RawIndexShift(s: int, i: int, ch: int, c: int)
    ensures RawIndex(s + i, ch, c) == s * ch + RawIndex(i, ch, c)
  {
  }

  /** Channel `c` of frame `i` lies before the raw offset of frame `n`. */
  lemma RawIndexBelow(i: int, n: int, ch: int, c: int)
    requires 0 <= i < n && 0 <= c < ch
    ensures 0 <= RawIndex(i, ch, c) < n * ch
  {
    MulMonotone(0, i, ch);
    MulMonotone(i + 1, n, ch);
  }

  // ---------------------------------------------------------------------
  // limit_bounds

  /** Clamping twice is clamping once, so operations that clamp and then call
      operations that clamp again see the same region. */
  lemma LimitBoundsIdempotent(x: int, n: int)
    requires 0 <= n
    ensures LimitBounds(LimitBounds(x, n), n) == LimitBounds(x, n)
  {
  }

  /** Clamping keeps the order of the region ends. */
  lemma LimitBoundsMonotone(x: int, y: int, n: int)
    requires 0 <= n && x <= y
    ensures LimitBounds(x, n) <= LimitBounds(y, n)
  {
  }

  // ---------------------------------------------------------------------
  // delete_region

  /** An empty clamped region changes nothing; otherwise exactly the raw
      elements [s * ch, e * ch) are removed and the frame count drops by e - s. */
  lemma DeleteRegionEffect(b: BufferState, start: int, end: int)
    requires Consistent(b) && start <= end
    ensures 0 <= Clamp(b, start) * b.numChannels <= Clamp(b, end) * b.numChannels <= |b.samples|
    ensures !RegionNonEmpty(b, start, end) ==> Deleted(b, start, end) == b
    ensures RegionNonEmpty(b, start, end) ==>
              Deleted(b, start, end).samples
                == b.samples[..Clamp(b, start) * b.numChannels] + b.samples[Clamp(b, end) * b.numChannels..]
    ensures Deleted(b, start, end).numFrames == b.numFrames - (Clamp(b, end) - Clamp(b, start))
  {
    RegionOffsets(|b.samples|, b.numChannels, LimitBounds(start, b.numFrames), LimitBounds(end, b.numFrames));
  }

  /** A region that starts at or past the end (`num_frames`) is empty once clamped:
      deleting it, however often, is a no-op. */
  lemma DeletePastEndIsNoop(b: BufferState, start: int, end: int)
    requires Consistent(b) && b.numFrames <= start <= end
    ensures !RegionNonEmpty(b, start, end)
    ensures Deleted(b, start, end) == b
    ensures Deleted(Deleted(b, start, end), start, end) == b
  {
  }

  // ---------------------------------------------------------------------
  // copy_region

  /** The copy holds frames s .. e-1 of the source, channel by channel, in the
      same interleaved layout. */
  lemma CopiedFrames(b: BufferState, start: int, end: int)
    requires Consistent(b) && start <= end
    ensures |Copied(b, start, end).samples| == (Clamp(b, end) - Clamp(b, start)) * b.numChannels
    ensures forall i, c :: 0 <= i < Clamp(b, end) - Clamp(b, start) && 0 <= c < b.numChannels ==>
              (0 <= RawIndex(i, b.numChannels, c) < |Copied(b, start, end).samples|
               && 0 <= Clamp(b, start) * b.numChannels + RawIndex(i, b.numChannels, c) < |b.samples|
               && Copied(b, start, end).samples[RawIndex(i, b.numChannels, c)]
                  == b.samples[Clamp(b, start) * b.numChannels + RawIndex(i, b.numChannels, c)])
  {
    CopiedSlice(b, start, end);
    forall i, c | 0 <= i < Clamp(b, end) - Clamp(b, start) && 0 <= c < b.numChannels
      ensures 0 <= RawIndex(i, b.numChannels, c) < |Copied(b, start, end).samples|
      ensures 0 <= Clamp(b, start) * b.numChannels + RawIndex(i, b.numChannels, c) < |b.samples|
      ensures Copied(b, start, end).samples[RawIndex(i, b.numChannels, c)]
              == b.samples[Clamp(b, start) * b.numChannels + RawIndex(i, b.numChannels, c)]
    {
      CopiedAt(b, start, end, i, c);
    }
  }

  /** The copy's store is the raw slice [s * ch, e * ch) of the source. */
  lemma CopiedSlice(b: BufferState, start: int, end: int)
    requires Consistent(b) && start <= end
    ensures 0 <= Clamp(b, start) * b.numChannels <= Clamp(b, end) * b.numChannels <= |b.samples|
    ensures Copied(b, start, end).samples == b.samples[Clamp(b, start) * b.numChannels..Clamp(b, end) * b.numChannels]
    ensures |Copied(b, start, end).samples| == (Clamp(b, end) - Clamp(b, start)) * b.numChannels
  {
    RegionOffsets(|b.samples|, b.numChannels, Clamp(b, start), Clamp(b, end));
  }

  lemma CopiedAt(b: BufferState, start: int, end: int, i: int, c: int)
    requires Consistent(b) && start <= end
    requires 0 <= i < Clamp(b, end) - Clamp(b, start) && 0 <= c < b.numChannels
    ensures 0 <= RawIndex(i, b.numChannels, c) < |Copied(b, start, end).samples|
    ensures 0 <= Clamp(b, start) * b.numChannels + RawIndex(i, b.numChannels, c) < |b.samples|
    ensures Copied(b, start, end).samples[RawIndex(i, b.numChannels, c)]
            == b.samples[Clamp(b, start) * b.numChannels + RawIndex(i, b.numChannels, c)]
  {
    var s, e, ch := Clamp(b, start), Clamp(b, end), b.numChannels;
    CopiedSlice(b, start, end);
    RawIndexBelow(i, e - s, ch, c);
    RawIndexShift(s, i, ch, c);
    RawIndexBelow(s + i, e, ch, c);
    OffsetInStore(b, e);
  }

  /** Copying frames [1, 3) of a four-frame stereo
      buffer yields the two middle frames. */
  lemma CopyStereoExample(l0: real, r0: real, l1: real, r1: real, l2: real, r2: real, l3: real, r3: real, rate: int)
    ensures Copied(BufferState([l0, r0, l1, r1, l2, r2, l3, r3], 4, rate, 2), 1, 3)
            == BufferState([l1, r1, l2, r2], 2, rate, 2)
  {
    var b := BufferState([l0, r0, l1, r1, l2, r2, l3, r3], 4, rate, 2);
    assert b.samples[2..6] == [l1, r1, l2, r2];
  }

  // ---------------------------------------------------------------------
  // insert_silence and paste_from

  /** Pasting pads the end with (where - numFrames) frames of zeros when
      `where` is at or past the end, and then splices `from` in whole at raw
      offset where * ch; nothing checks that `from` has this buffer's channel
      count. */
  lemma PasteFromEffect(b: BufferState, where: int, from: seq<Sample>)
    requires Consistent(b) && 0 <= where
    ensures where <= b.numFrames ==>
              0 <= where * b.numChannels <= |b.samples|
              && Pasted(b, where, from).samples
                 == b.samples[..where * b.numChannels] + from + b.samples[where * b.numChannels..]
    ensures where >= b.numFrames && |b.samples| % b.numChannels == 0 ==>
              (where - b.numFrames) * b.numChannels >= 0
              && Pasted(b, where, from).samples
                 == b.samples + Zeros((where - b.numFrames) * b.numChannels) + from
  {
    var ch := b.numChannels;
    OffsetInStore(b, if where <= b.numFrames then where else 0);
    if where >= b.numFrames && |b.samples| % ch == 0 {
      var p := Padded(b, where - b.numFrames);
      MulSign(where - b.numFrames, ch);
      assert (where - b.numFrames) * ch >= 0;
      assert p.samples == b.samples + Zeros((where - b.numFrames) * ch);
      assert |p.samples| == |b.samples| + (where - b.numFrames) * ch;
      assert where * ch == |p.samples| by {
        assert p.numFrames == where;
        DivMulBelow(|b.samples|, ch);
        assert |b.samples| == b.numFrames * ch + |b.samples| % ch;
        assert where * ch == b.numFrames * ch + (where - b.numFrames) * ch;
        AppendedWhole(b, where);
      }
      assert p.samples[..where * ch] == p.samples;
    }
  }

  /** After padding to `where`, the store ends exactly at raw offset
      where * ch when the old store held whole frames only. */
  lemma AppendedWhole(b: BufferState, where: int)
    requires Consistent(b) && b.numFrames <= where
    ensures |b.samples| % b.numChannels == 0 ==>
              |b.samples| + (where - b.numFrames) * b.numChannels == where * b.numChannels
  {
    var ch := b.numChannels;
    assert |b.samples| == b.numFrames * ch + |b.samples| % ch;
    Distrib(where, b.numFrames, ch);
  }

  /** Pasting a clip whose length is not a whole number of frames leaves the
      store with a partial frame at its end: the frame count truncates and the
      interleaving of the tail is shifted. */
  lemma PasteMismatchedClip(b: BufferState, where: int, from: seq<Sample>)
    requires Consistent(b) && 0 <= where < b.numFrames
    requires |b.samples| % b.numChannels == 0 && |from| % b.numChannels != 0
    ensures |Pasted(b, where, from).samples| % b.numChannels != 0
  {
    var ch := b.numChannels;
    var n := |Pasted(b, where, from).samples|;
    assert n == |b.samples| + |from|;
    var q := |b.samples| / ch;
    assert |b.samples| == q * ch;
    assert n == |from| + q * ch;
    DivAddMultiple(|from|, q, ch);
    assert |from| == (|from| / ch) * ch + |from| % ch;
    assert n == (|from| / ch + q) * ch + |from| % ch by {
      Distrib(|from| / ch + q, q, ch);
    }
    DivUnique(n, ch, |from| / ch + q, |from| % ch);
  }

  // ---------------------------------------------------------------------
  // cut_region followed by paste_from

  /** Cutting a non-empty region and pasting the clip back at the region
      start restores the buffer exactly: samples, frame count, channels and
      rate. */
  lemma CutPasteRoundTrip(b: BufferState, start: int, end: int)
    requires Consistent(b) && 0 <= start <= end && RegionNonEmpty(b, start, end)
    ensures Pasted(Deleted(b, start, end), start, Copied(b, start, end).samples) == b
  {
    var s, e, ch := LimitBounds(start, b.numFrames), LimitBounds(end, b.numFrames), b.numChannels;
    assert s == start;
    RegionOffsets(|b.samples|, ch, s, e);
    var cut := Deleted(b, start, end);
    var clip := Copied(b, start, end).samples;
    assert cut.samples == b.samples[..s * ch] + b.samples[e * ch..];
    assert clip == b.samples[s * ch..e * ch];
    assert cut.numFrames == b.numFrames - (e - s);
    var p := if start >= cut.numFrames then Padded(cut, start - cut.numFrames) else cut;
    assert p == cut;
    assert p.samples[..s * ch] == b.samples[..s * ch];
    assert p.samples[s * ch..] == b.samples[e * ch..];
    assert p.samples[..s * ch] + clip + p.samples[s * ch..] == b.samples;
  }

  /** Copying a region and pasting it back at its start leaves the original
      region's samples at the same raw offsets. */
  lemma CopyPasteKeepsRegion(b: BufferState, start: int, end: int)
    requires Consistent(b) && 0 <= start <= end && RegionNonEmpty(b, start, end)
    ensures 0 <= start * b.numChannels <= Clamp(b, end) * b.numChannels <= |b.samples|
    ensures Clamp(b, end) * b.numChannels <= |Pasted(b, start, Copied(b, start, end).samples).samples|
    ensures Pasted(b, start, Copied(b, start, end).samples).samples[start * b.numChannels..Clamp(b, end) * b.numChannels]
            == b.samples[start * b.numChannels..Clamp(b, end) * b.numChannels]
  {
    var s, e, ch := LimitBounds(start, b.numFrames), LimitBounds(end, b.numFrames), b.numChannels;
    assert s == start;
    RegionOffsets(|b.samples|, ch, s, e);
    var clip := Copied(b, start, end).samples;
    assert |clip| == e * ch - s * ch;
  }

  // ---------------------------------------------------------------------
  // amplify_region

  /** Amplifying scales exactly the samples of `channel` in the clamped
      region that lie in the store. */
  lemma AmplifiedEffect(b: BufferState, channel: int, start: int, end: int, gain: real)
    requires Consistent(b)
    ensures forall i :: Clamp(b, start) <= i < Clamp(b, end) && Scanned(b.samples, b.numChannels, channel, i) ==>
              Amplified(b, channel, start, end, gain).samples[RawIndex(i, b.numChannels, channel)]
              == b.samples[RawIndex(i, b.numChannels, channel)] * gain
  {
    var lo, hi, ch := LimitBounds(start, b.numFrames), LimitBounds(end, b.numFrames), b.numChannels;
    forall i | lo <= i < hi && Scanned(b.samples, ch, channel, i)
      ensures Amplified(b, channel, start, end, gain).samples[RawIndex(i, ch, channel)]
              == b.samples[RawIndex(i, ch, channel)] * gain
    {
      AmplifiedAt(b, channel, start, end, gain, RawIndex(i, ch, channel));
      InChannelRegionAt(i, ch, channel, lo, hi);
    }
  }

  /** Every sample that is not channel `channel` of a frame of the clamped
      region keeps its value. */
  lemma AmplifiedElsewhere(b: BufferState, channel: int, start: int, end: int, gain: real)
    requires Consistent(b)
    ensures forall k :: (0 <= k < |b.samples|
                         && (forall i :: Clamp(b, start) <= i < Clamp(b, end) ==> k != RawIndex(i, b.numChannels, channel))) ==>
              Amplified(b, channel, start, end, gain).samples[k] == b.samples[k]
  {
    var lo, hi, ch := LimitBounds(start, b.numFrames), LimitBounds(end, b.numFrames), b.numChannels;
    forall k | 0 <= k < |b.samples| && (forall i :: lo <= i < hi ==> k != RawIndex(i, ch, channel))
      ensures Amplified(b, channel, start, end, gain).samples[k] == b.samples[k]
    {
      AmplifiedAt(b, channel, start, end, gain, k);
      if InChannelRegion(k, ch, channel, lo, hi) {
        InChannelRegionWitness(k, ch, channel, lo, hi);
        assert false;
      }
    }
  }

  /** One element of the amplified store. */
  lemma AmplifiedAt(b: BufferState, channel: int, start: int, end: int, gain: real, k: int)
    requires Consistent(b) && 0 <= k < |b.samples|
    ensures Amplified(b, channel, start, end, gain).samples[k]
            == if InChannelRegion(k, b.numChannels, channel, Clamp(b, start), Clamp(b, end))
               then b.samples[k] * gain else b.samples[k]
  {
    ScaledRangeAt(b.samples, b.numChannels, channel, Clamp(b, start), Clamp(b, end), gain, k);
  }

  /** A raw index in the channel region is the raw index of one of its frames. */
  lemma InChannelRegionWitness(k: int, ch: int, channel: int, lo: int, hi: int)
    requires ch > 0 && InChannelRegion(k, ch, channel, lo, hi)
    ensures lo <= (k - channel) / ch < hi && k == RawIndex((k - channel) / ch, ch, channel)
  {
    assert k - channel == ((k - channel) / ch) * ch + (k - channel) % ch;
  }

  // ---------------------------------------------------------------------
  // sample_amplitude

  /** With no scanned index inside the store, the pair is the sentinel
      (max, min) = (-2, 2). */
  lemma {:induction false} AmplitudeOfNothing(s: seq<Sample>, ch: int, channel: int, lo: int, hi: int)
    requires forall i :: lo <= i < hi ==> !Scanned(s, ch, channel, i)
    ensures Amplitude(s, ch, channel, lo, hi) == (-2.0, 2.0)
    decreases hi - lo
  {
    if hi > lo {
      AmplitudeOfNothing(s, ch, channel, lo, hi - 1);
      assert !Scanned(s, ch, channel, hi - 1);
    }
  }

  // ---------------------------------------------------------------------
  // normalize_region

  /** Amplifying channel 1 of a stereo buffer leaves channel 0 alone. */
  lemma OtherChannelUntouched(i: int, lo: int, hi: int)
    ensures !InChannelRegion(RawIndex(i, 2, 0), 2, 1, lo, hi)
  {
    InterleavedLayout(i, 2, 0);
    assert RawIndex(i, 2, 0) - 1 == (i - 1) * 2 + 1;
    DivUnique(RawIndex(i, 2, 0) - 1, 2, i - 1, 1);
  }

  /** After normalising a non-empty region, no channel-0 sample in it exceeds
      unit amplitude: the gain is the inverse of channel 0's peak (at least
      0.0001). */
  lemma NormalizedPeak(b: BufferState, start: int, end: int)
    requires Consistent(b)
    ensures forall i :: Clamp(b, start) <= i < Clamp(b, end) && Scanned(b.samples, b.numChannels, 0, i) ==>
              Abs(Normalized(b, start, end).samples[RawIndex(i, b.numChannels, 0)]) <= 1.0
  {
    var s, e := Clamp(b, start), Clamp(b, end);
    if s < e {
      var amp := Amplitude(b.samples, b.numChannels, 0, s, e);
      AmplitudeBounds(b.samples, b.numChannels, 0, s, e);
      assert Normalized(b, start, end) == ScaledChannels(b, s, e, NormalizeGain(amp.0, amp.1));
      GainScaledPeak(b, s, e, amp.0, amp.1);
    }
  }

  lemma GainScaledPeak(b: BufferState, s: int, e: int, hi: real, lo: real)
    requires Consistent(b) && 0 <= s <= e <= b.numFrames
    requires forall i :: s <= i < e && Scanned(b.samples, b.numChannels, 0, i) ==>
               lo <= b.samples[RawIndex(i, b.numChannels, 0)] <= hi
    ensures forall i :: s <= i < e && Scanned(b.samples, b.numChannels, 0, i) ==>
              Abs(ScaledChannels(b, s, e, NormalizeGain(hi, lo)).samples[RawIndex(i, b.numChannels, 0)]) <= 1.0
  {
    ScaledPeak(b, s, e, hi, lo, NormalizeGain(hi, lo));
  }

  /** Scaling channel 0 by a gain that maps its extrema `hi` and `lo` into
      [-1, 1] maps every sample between them into [-1, 1]. */
  lemma ScaledPeak(b: BufferState, s: int, e: int, hi: real, lo: real, gain: real)
    requires Consistent(b) && 0 <= s <= e <= b.numFrames
    requires forall i :: s <= i < e && Scanned(b.samples, b.numChannels, 0, i) ==>
               lo <= b.samples[RawIndex(i, b.numChannels, 0)] <= hi
    requires gain > 0.0 && gain * Abs(hi) <= 1.0 && gain * Abs(lo) <= 1.0
    ensures forall i :: s <= i < e && Scanned(b.samples, b.numChannels, 0, i) ==>
              Abs(ScaledChannels(b, s, e, gain).samples[RawIndex(i, b.numChannels, 0)]) <= 1.0
  {
    forall i | s <= i < e && Scanned(b.samples, b.numChannels, 0, i)
      ensures Abs(ScaledChannels(b, s, e, gain).samples[RawIndex(i, b.numChannels, 0)]) <= 1.0
    {
      ScaledSampleBounded(b, s, e, hi, lo, gain, i);
    }
  }

  lemma ScaledSampleBounded(b: BufferState, s: int, e: int, hi: real, lo: real, gain: real, i: int)
    requires Consistent(b) && 0 <= s <= e <= b.numFrames && s <= i < e && Scanned(b.samples, b.numChannels, 0, i)
    requires lo <= b.samples[RawIndex(i, b.numChannels, 0)] <= hi
    requires gain > 0.0 && gain * Abs(hi) <= 1.0 && gain * Abs(lo) <= 1.0
    ensures Abs(ScaledChannels(b, s, e, gain).samples[RawIndex(i, b.numChannels, 0)]) <= 1.0
  {
    ScaledChannelsAt(b, s, e, gain, i);
    ScaledBelowOne(b.samples[RawIndex(i, b.numChannels, 0)], hi, lo, gain);
  }

  /** Channel 0 of a frame of the region is multiplied by the gain. */
  lemma ScaledChannelsAt(b: BufferState, s: int, e: int, gain: real, i: int)
    requires Consistent(b) && 0 <= s <= e <= b.numFrames && s <= i < e && Scanned(b.samples, b.numChannels, 0, i)
    ensures ScaledChannels(b, s, e, gain).samples[RawIndex(i, b.numChannels, 0)]
            == b.samples[RawIndex(i, b.numChannels, 0)] * gain
  {
    var ch := b.numChannels;
    var k := RawIndex(i, ch, 0);
    var once := Amplified(b, 0, s, e, gain);
    AmplifiedAt(b, 0, s, e, gain, k);
    InChannelRegionAt(i, ch, 0, s, e);
    assert once.samples[k] == b.samples[k] * gain;
    if ch == 2 {
      AmplifiedAt(once, 1, s, e, gain, k);
      OtherChannelUntouched(i, s, e);
    }
  }

  /** Channel 1 of a frame of a stereo region is multiplied by the same gain. */
  lemma ScaledChannelsSecond(b: BufferState, s: int, e: int, gain: real, i: int)
    requires Consistent(b) && b.numChannels == 2 && 0 <= s <= e <= b.numFrames
    requires s <= i < e && Scanned(b.samples, 2, 1, i)
    ensures ScaledChannels(b, s, e, gain).samples[RawIndex(i, 2, 1)] == b.samples[RawIndex(i, 2, 1)] * gain
  {
    var k := RawIndex(i, 2, 1);
    var once := Amplified(b, 0, s, e, gain);
    InterleavedLayout(i, 2, 1);
    AmplifiedAt(b, 0, s, e, gain, k);
    assert once.samples[k] == b.samples[k];
    AmplifiedAt(once, 1, s, e, gain, k);
    InChannelRegionAt(i, 2, 1, s, e);
  }

  /** One gain for the whole region: channel 0, and channel 1 of a stereo
      buffer, of every frame in [s, e) are multiplied by `gain`. */
  lemma ScaledChannelsOneGain(b: BufferState, s: int, e: int, gain: real)
    requires Consistent(b) && 0 <= s <= e <= b.numFrames
    ensures forall i, c :: (c == 0 || (c == 1 && b.numChannels == 2)) && s <= i < e
                           && Scanned(b.samples, b.numChannels, c, i) ==>
              ScaledChannels(b, s, e, gain).samples[RawIndex(i, b.numChannels, c)]
              == b.samples[RawIndex(i, b.numChannels, c)] * gain
  {
    forall i, c | (c == 0 || (c == 1 && b.numChannels == 2)) && s <= i < e && Scanned(b.samples, b.numChannels, c, i)
      ensures ScaledChannels(b, s, e, gain).samples[RawIndex(i, b.numChannels, c)]
              == b.samples[RawIndex(i, b.numChannels, c)] * gain
    {
      ScaledChannelsOneGainAt(b, s, e, gain, i, c);
    }
  }

  lemma ScaledChannelsOneGainAt(b: BufferState, s: int, e: int, gain: real, i: int, c: int)
    requires Consistent(b) && 0 <= s <= e <= b.numFrames
    requires (c == 0 || (c == 1 && b.numChannels == 2)) && s <= i < e && Scanned(b.samples, b.numChannels, c, i)
    ensures ScaledChannels(b, s, e, gain).samples[RawIndex(i, b.numChannels, c)]
            == b.samples[RawIndex(i, b.numChannels, c)] * gain
  {
    if c == 0 {
      ScaledChannelsAt(b, s, e, gain, i);
    } else {
      ScaledChannelsSecond(b, s, e, gain, i);
    }
  }

  /** Every sample outside the raw range [s * ch, e * ch) keeps its value. */
  lemma ScaledChannelsOutside(b: BufferState, s: int, e: int, gain: real)
    requires Consistent(b) && 0 <= s <= e <= b.numFrames
    ensures forall k :: 0 <= k < |b.samples| && (k < s * b.numChannels || e * b.numChannels <= k) ==>
              ScaledChannels(b, s, e, gain).samples[k] == b.samples[k]
  {
    forall k | 0 <= k < |b.samples| && (k < s * b.numChannels || e * b.numChannels <= k)
      ensures ScaledChannels(b, s, e, gain).samples[k] == b.samples[k]
    {
      ScaledChannelsOutsideAt(b, s, e, gain, k);
    }
  }

  lemma ScaledChannelsOutsideAt(b: BufferState, s: int, e: int, gain: real, k: int)
    requires Consistent(b) && 0 <= s <= e <= b.numFrames
    requires 0 <= k < |b.samples| && (k < s * b.numChannels || e * b.numChannels <= k)
    ensures ScaledChannels(b, s, e, gain).samples[k] == b.samples[k]
  {
    var ch := b.numChannels;
    var once := Amplified(b, 0, s, e, gain);
    AmplifiedAt(b, 0, s, e, gain, k);
    OutsideChannelRegion(k, ch, 0, s, e);
    if ch == 2 {
      AmplifiedAt(once, 1, s, e, gain, k);
      OutsideChannelRegion(k, ch, 1, s, e);
    }
  }

  /** A raw index outside [lo * ch, hi * ch) belongs to no frame of [lo, hi). */
  lemma OutsideChannelRegion(k: int, ch: int, channel: int, lo: int, hi: int)
    requires 0 <= channel < ch && (k < lo * ch || hi * ch <= k)
    ensures !InChannelRegion(k, ch, channel, lo, hi)
  {
    if InChannelRegion(k, ch, channel, lo, hi) {
      InChannelRegionWitness(k, ch, channel, lo, hi);
      var q := (k - channel) / ch;
      MulMonotone(lo, q, ch);
      MulMonotone(q + 1, hi, ch);
      assert false;
    }
  }

  // normalize_region, all channels

  /** Normalising a non-empty region multiplies channel 0, and channel 1 of a
      stereo buffer, of every frame in it by the one gain derived from
      channel 0. */
  lemma NormalizedOneGain(b: BufferState, start: int, end: int)
    requires Consistent(b)
    ensures forall i, c :: (c == 0 || (c == 1 && b.numChannels == 2)) && Clamp(b, start) <= i < Clamp(b, end)
                           && Scanned(b.samples, b.numChannels, c, i) ==>
              Normalized(b, start, end).samples[RawIndex(i, b.numChannels, c)]
              == b.samples[RawIndex(i, b.numChannels, c)] * RegionGain(b, Clamp(b, start), Clamp(b, end))
  {
    var s, e := Clamp(b, start), Clamp(b, end);
    if s < e {
      assert Normalized(b, start, end) == ScaledChannels(b, s, e, RegionGain(b, s, e));
      ScaledChannelsOneGain(b, s, e, RegionGain(b, s, e));
    }
  }

  /** Normalising leaves every sample outside the region's raw range alone. */
  lemma NormalizedOutside(b: BufferState, start: int, end: int)
    requires Consistent(b)
    ensures forall k :: 0 <= k < |b.samples|
                        && (k < Clamp(b, start) * b.numChannels || Clamp(b, end) * b.numChannels <= k) ==>
              Normalized(b, start, end).samples[k] == b.samples[k]
  {
    var s, e := Clamp(b, start), Clamp(b, end);
    if s < e {
      assert Normalized(b, start, end) == ScaledChannels(b, s, e, RegionGain(b, s, e));
      ScaledChannelsOutside(b, s, e, RegionGain(b, s, e));
    }
  }

  lemma ScaledBelowOne(v: real, hi: real, lo: real, gain: real)
    requires lo <= v <= hi && gain > 0.0
    requires gain * Abs(hi) <= 1.0 && gain * Abs(lo) <= 1.0
    ensures Abs(v * gain) <= 1.0
  {
    if v >= 0.0 {
      assert v * gain <= hi * gain;
    } else {
      assert v * gain >= lo * gain;
    }
  }

  /** An empty clamped region is left alone. */
  lemma NormalizeEmptyIsNoop(b: BufferState, start: int, end: int)
    requires Consistent(b) && LimitBounds(start, b.numFrames) >= LimitBounds(end, b.numFrames)
    ensures Normalized(b, start, end) == b
  {
  }
}
