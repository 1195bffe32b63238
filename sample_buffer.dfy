/** Interleaved multi-channel sample store and its frame-indexed region
    operations (the AudioBuffer class).

    Every edit is index arithmetic on one flat sequence: frame indices are
    clamped into [0, numFrames], multiplied by the channel count to get raw
    offsets, and the sequence is then cut, spliced or scaled.  Each method of
    the class is proved against a function on BufferState, the value of all
    fields; the lemmas in SampleBufferProperties say what those functions
    mean. */
module SampleBuffer {

  /** One 32-bit float sample; rounding is not modelled. */
  type Sample = real

  /** The value of every field of an AudioBuffer: what a copy or an undo
      snapshot holds. */
  datatype BufferState = BufferState(samples: seq<Sample>, numFrames: int, sampleRate: int, numChannels: int)

  /** The fields of a default-constructed buffer. */
  const DefaultState := BufferState([], 0, -1, -1)

  /** An initialised buffer whose cached frame count matches its store. */
  predicate Consistent(b: BufferState) {
    b.numChannels > 0 && 0 <= b.numFrames && b.numFrames == |b.samples| / b.numChannels
  }

  function Min(a: int, b: int): int { if a < b then a else b }
  function Max(a: int, b: int): int { if a < b then b else a }

  /** Interleaved layout: frame `frame`, channel `channel` lives here. */
  function RawIndex(frame: int, numChannels: int, channel: int): int {
    frame * numChannels + channel
  }

  /** A raw index computed for (frame, channel) that lies inside the store. */
  predicate Scanned(s: seq<Sample>, numChannels: int, channel: int, frame: int) {
    0 <= RawIndex(frame, numChannels, channel) < |s|
  }

  /** `limit_bounds`: clamp a frame position into [0, numFrames]. */
  function LimitBounds(framePos: int, numFrames: int): (r: int)
    requires 0 <= numFrames
    ensures 0 <= r <= numFrames
    ensures 0 <= framePos <= numFrames ==> r == framePos
    ensures framePos < 0 ==> r == 0
    ensures framePos > numFrames ==> r == numFrames
  {
    Max(Min(framePos, numFrames), 0)
  }

  /** A frame position clamped into the buffer's frame range. */
  function Clamp(b: BufferState, framePos: int): int
    requires 0 <= b.numFrames
  {
    LimitBounds(framePos, b.numFrames)
  }

  /** `on_length_changed` on a value: recompute the frame count from the store. */
  function Reframed(b: BufferState, samples: seq<Sample>): (r: BufferState)
    requires b.numChannels > 0
    ensures Consistent(r) && r.samples == samples
    ensures r.sampleRate == b.sampleRate && r.numChannels == b.numChannels
  {
    DivMulBelow(|samples|, b.numChannels);
    MulSign(|samples| / b.numChannels, b.numChannels);
    BufferState(samples, |samples| / b.numChannels, b.sampleRate, b.numChannels)
  }

  /** The clamped region [start, end) holds at least one frame. */
  predicate RegionNonEmpty(b: BufferState, start: int, end: int)
    requires Consistent(b)
  {
    LimitBounds(start, b.numFrames) != LimitBounds(end, b.numFrames)
  }

  // ---------------------------------------------------------------------
  // Arithmetic on raw offsets

  lemma MulMonotone(a: int, b: int, c: int)
    requires a <= b && 0 <= c
    ensures a * c <= b * c
  {
    assert b * c - a * c == (b - a) * c;
  }

  lemma Distrib(a: int, b: int, c: int)
    ensures a * c - b * c == (a - b) * c
  {
  }

  lemma MulSign(a: int, c: int)
    requires c > 0
    ensures a > 0 ==> a * c > 0
    ensures a <= 0 ==> a * c <= 0
  {
    if a > 0 { MulMonotone(1, a, c); } else { MulMonotone(a, 0, c); }
  }

  lemma DivMulBelow(n: int, d: int)
    requires d > 0 && n >= 0
    ensures 0 <= (n / d) * d <= n
  {
    assert n == (n / d) * d + n % d;
  }

  /** Euclidean division is determined by quotient and remainder. */
  lemma DivUnique(x: int, d: int, q: int, r: int)
    requires d > 0 && x == q * d + r && 0 <= r < d
    ensures x / d == q && x % d == r
  {
    var q', r' := x / d, x % d;
    assert x == q' * d + r';
    Distrib(q, q', d);
    if q > q' {
      MulMonotone(1, q - q', d);
    } else if q < q' {
      MulMonotone(1, q' - q, d);
    }
  }

  lemma DivAddMultiple(m: int, k: int, d: int)
    requires d > 0
    ensures (m + k * d) / d == m / d + k
  {
    var q, r := m / d, m % d;
    assert m == q * d + r;
    assert m + k * d == (q + k) * d + r by { Distrib(q + k, k, d); }
    DivUnique(m + k * d, d, q + k, r);
  }

  /** Every frame position up to the frame count has its raw offset in the store. */
  lemma OffsetInStore(b: BufferState, frame: int)
    requires Consistent(b) && 0 <= frame <= b.numFrames
    ensures 0 <= frame * b.numChannels <= |b.samples|
  {
    MulMonotone(0, frame, b.numChannels);
    MulMonotone(frame, b.numFrames, b.numChannels);
    DivMulBelow(|b.samples|, b.numChannels);
  }

  /** Raw offsets of a clamped region [s, e) and the frame count left when
      the region is removed from a store of n samples. */
  lemma RegionOffsets(n: int, ch: int, s: int, e: int)
    requires ch > 0 && 0 <= n && 0 <= s <= e <= n / ch
    ensures 0 <= s * ch <= e * ch <= n
    ensures e * ch - s * ch == (e - s) * ch
    ensures (n - (e * ch - s * ch)) / ch == n / ch - (e - s)
    ensures (e * ch - s * ch) / ch == e - s
  {
    MulMonotone(0, s, ch);
    MulMonotone(s, e, ch);
    MulMonotone(e, n / ch, ch);
    DivMulBelow(n, ch);
    Distrib(e, s, ch);
    DivAddMultiple(n, -(e - s), ch);
    assert n + (-(e - s)) * ch == n - (e * ch - s * ch) by { Distrib(0, e - s, ch); }
    DivUnique((e - s) * ch, ch, e - s, 0);
  }

  lemma InChannelRegionAt(i: int, ch: int, channel: int, lo: int, hi: int)
    requires ch > 0
    ensures InChannelRegion(RawIndex(i, ch, channel), ch, channel, lo, hi) <==> lo <= i < hi
  {
    DivUnique(RawIndex(i, ch, channel) - channel, ch, i, 0);
  }

  lemma InChannelRegionStep(k: int, ch: int, channel: int, lo: int, i: int)
    requires ch > 0
    ensures InChannelRegion(k, ch, channel, lo, i + 1)
        <==> InChannelRegion(k, ch, channel, lo, i) || (lo <= i && k == RawIndex(i, ch, channel))
  {
    InChannelRegionAt(i, ch, channel, lo, i + 1);
    if (k - channel) % ch == 0 && (k - channel) / ch == i {
      assert k - channel == ((k - channel) / ch) * ch + (k - channel) % ch;
    }
  }

  /** Raw index k belongs to one of the frames [lo, hi) on `channel`. */
  predicate InChannelRegion(k: int, ch: int, channel: int, lo: int, hi: int)
    requires ch > 0
  {
    (k - channel) % ch == 0 && lo <= (k - channel) / ch < hi
  }

  function Zeros(n: nat): (z: seq<Sample>)
    ensures |z| == n && forall k :: 0 <= k < n ==> z[k] == 0.0
  {
    seq(n, _ => 0.0)
  }

  // ---------------------------------------------------------------------
  // The operations, on values

  /** The store with the frames [s, e) erased. */
  function EraseFrames(b: BufferState, s: int, e: int): (r: BufferState)
    requires Consistent(b) && 0 <= s <= e <= b.numFrames
    ensures Consistent(r) && r.sampleRate == b.sampleRate && r.numChannels == b.numChannels
    ensures r.numFrames == b.numFrames - (e - s)
  {
    var ch := b.numChannels;
    RegionOffsets(|b.samples|, ch, s, e);
    var kept := b.samples[..s * ch] + b.samples[e * ch..];
    assert |kept| == |b.samples| - (e * ch - s * ch);
    Reframed(b, kept)
  }

  /** A fresh buffer holding the frames [s, e) with the same channels and rate. */
  function SliceFrames(b: BufferState, s: int, e: int): (r: BufferState)
    requires Consistent(b) && 0 <= s <= e <= b.numFrames
    ensures Consistent(r) && r.sampleRate == b.sampleRate && r.numChannels == b.numChannels
    ensures r.numFrames == e - s
  {
    var ch := b.numChannels;
    RegionOffsets(|b.samples|, ch, s, e);
    var slice := b.samples[s * ch..e * ch];
    assert |slice| == e * ch - s * ch;
    Reframed(BufferState([], 0, b.sampleRate, ch), slice)
  }

  /** `delete_region` on a value. */
  function Deleted(b: BufferState, start: int, end: int): (r: BufferState)
    requires Consistent(b) && start <= end
    ensures Consistent(r) && r.sampleRate == b.sampleRate && r.numChannels == b.numChannels
    ensures r.numFrames == b.numFrames - (LimitBounds(end, b.numFrames) - LimitBounds(start, b.numFrames))
  {
    var s := LimitBounds(start, b.numFrames);
    var e := LimitBounds(end, b.numFrames);
    if s == e then b else EraseFrames(b, s, e)
  }

  /** The buffer `copy_region` initialises `to` with (the region ends clamped). */
  function Copied(b: BufferState, start: int, end: int): (r: BufferState)
    requires Consistent(b) && start <= end
    ensures Consistent(r) && r.sampleRate == b.sampleRate && r.numChannels == b.numChannels
    ensures r.numFrames == LimitBounds(end, b.numFrames) - LimitBounds(start, b.numFrames)
  {
    SliceFrames(b, LimitBounds(start, b.numFrames), LimitBounds(end, b.numFrames))
  }

  /** `insert_silence` on a value: `numFrames * numChannels` zeros are
      appended at the end of the store, whatever `where` is. */
  function Padded(b: BufferState, numFrames: int): (r: BufferState)
    requires Consistent(b)
    ensures Consistent(r) && r.sampleRate == b.sampleRate && r.numChannels == b.numChannels
    ensures numFrames >= 0 ==> r.numFrames == b.numFrames + numFrames
    ensures numFrames >= 0 ==> r.samples == b.samples + Zeros(numFrames * b.numChannels)
    ensures numFrames <= 0 ==> r == b
  {
    var n := numFrames * b.numChannels;
    MulSign(numFrames, b.numChannels);
    if n <= 0 then b
    else
      DivAddMultiple(|b.samples|, numFrames, b.numChannels);
      Reframed(b, b.samples + Zeros(n))
  }

  /** The store with `from` inserted at the raw offset of frame `where`. */
  function SpliceFrames(p: BufferState, where: int, from: seq<Sample>): (r: BufferState)
    requires Consistent(p) && 0 <= where <= p.numFrames
    ensures Consistent(r) && r.sampleRate == p.sampleRate && r.numChannels == p.numChannels
    ensures 0 <= where * p.numChannels <= |p.samples|
    ensures r.samples == p.samples[..where * p.numChannels] + from + p.samples[where * p.numChannels..]
    ensures |r.samples| == |p.samples| + |from|
    ensures r.samples[where * p.numChannels..where * p.numChannels + |from|] == from
  {
    OffsetInStore(p, where);
    var offset := where * p.numChannels;
    var spliced := p.samples[..offset] + from + p.samples[offset..];
    assert spliced[offset..offset + |from|] == from;
    Reframed(p, spliced)
  }

  /** `paste_from` on a value: pad with silence up to `where` if it lies at or
      past the end, then splice `from` in at raw offset `where * numChannels`. */
  function Pasted(b: BufferState, where: int, from: seq<Sample>): (r: BufferState)
    requires Consistent(b) && 0 <= where
    ensures Consistent(r) && r.sampleRate == b.sampleRate && r.numChannels == b.numChannels
    ensures where < b.numFrames ==> |r.samples| == |b.samples| + |from|
    ensures where >= b.numFrames ==> |r.samples| == |b.samples| + (where - b.numFrames) * b.numChannels + |from|
    ensures 0 <= where * b.numChannels <= where * b.numChannels + |from| <= |r.samples|
    ensures r.samples[where * b.numChannels..where * b.numChannels + |from|] == from
  {
    if where >= b.numFrames then SpliceFrames(Padded(b, where - b.numFrames), where, from)
    else SpliceFrames(b, where, from)
  }

  /** `amplify_region` on a value: every raw index of a frame of the clamped
      region on `channel` that lies in the store is multiplied by `gain`. */
  function Amplified(b: BufferState, channel: int, start: int, end: int, gain: real): (r: BufferState)
    requires Consistent(b)
    ensures Consistent(r) && |r.samples| == |b.samples|
    ensures r.numFrames == b.numFrames && r.sampleRate == b.sampleRate && r.numChannels == b.numChannels
  {
    b.(samples := ScaledRange(b.samples, b.numChannels, channel, LimitBounds(start, b.numFrames),
                              LimitBounds(end, b.numFrames), gain))
  }

  /** The store after the loop of `amplify_region` has run over the frames
      [lo, hi): frame by frame, the raw index of `channel`, when it lies in
      the store, is multiplied by `gain`.  ScaledRangeAt gives the closed form. */
  function ScaledRange(s: seq<Sample>, ch: int, channel: int, lo: int, hi: int, gain: real): (r: seq<Sample>)
    ensures |r| == |s|
    decreases hi - lo
  {
    if hi <= lo then s
    else
      var prev := ScaledRange(s, ch, channel, lo, hi - 1, gain);
      var index := RawIndex(hi - 1, ch, channel);
      if 0 <= index < |prev| then prev[index := Scale(prev[index], gain)] else prev
  }

  /** One sample multiplied by a gain. */
  function Scale(v: Sample, gain: real): Sample { v * gain }

  /** Closed form: a raw index is multiplied by `gain` exactly when it is
      `channel` of some frame of [lo, hi); every other one keeps its value. */
  lemma {:induction false} ScaledRangeAt(s: seq<Sample>, ch: int, channel: int, lo: int, hi: int, gain: real, k: int)
    requires ch > 0 && 0 <= k < |s|
    ensures ScaledRange(s, ch, channel, lo, hi, gain)[k]
            == if InChannelRegion(k, ch, channel, lo, hi) then s[k] * gain else s[k]
    decreases hi - lo
  {
    if hi > lo {
      var i := hi - 1;
      ScaledRangeAt(s, ch, channel, lo, i, gain, k);
      InChannelRegionStep(k, ch, channel, lo, i);
      if k == RawIndex(i, ch, channel) {
        InChannelRegionAt(i, ch, channel, lo, i);
      }
    }
  }

  /** The extrema `sample_amplitude` returns, scanning frames [lo, hi) left to
      right from the initial pair (max, min) = (-2, 2). */
  function Amplitude(s: seq<Sample>, ch: int, channel: int, lo: int, hi: int): (r: (real, real))
    ensures -2.0 <= r.0 && r.1 <= 2.0
    decreases hi - lo
  {
    if hi <= lo then (-2.0, 2.0)
    else
      var prev := Amplitude(s, ch, channel, lo, hi - 1);
      var index := RawIndex(hi - 1, ch, channel);
      if index < 0 || index >= |s| then prev
      else
        var v := s[index];
        (if v > prev.0 then v else prev.0, if v < prev.1 then v else prev.1)
  }

  /** The pair bounds every scanned sample of the channel: max above, min below. */
  lemma {:induction false} AmplitudeBounds(s: seq<Sample>, ch: int, channel: int, lo: int, hi: int)
    ensures forall i :: lo <= i < hi && Scanned(s, ch, channel, i) ==>
              Amplitude(s, ch, channel, lo, hi).1 <= s[RawIndex(i, ch, channel)] <= Amplitude(s, ch, channel, lo, hi).0
    decreases hi - lo
  {
    if hi > lo {
      AmplitudeBounds(s, ch, channel, lo, hi - 1);
    }
  }

  /** Each of the pair is its initial value or one of the scanned samples. */
  lemma {:induction false} AmplitudeAttained(s: seq<Sample>, ch: int, channel: int, lo: int, hi: int)
    ensures var r := Amplitude(s, ch, channel, lo, hi);
            r.0 == -2.0 || exists i :: lo <= i < hi && Scanned(s, ch, channel, i) && s[RawIndex(i, ch, channel)] == r.0
    ensures var r := Amplitude(s, ch, channel, lo, hi);
            r.1 == 2.0 || exists i :: lo <= i < hi && Scanned(s, ch, channel, i) && s[RawIndex(i, ch, channel)] == r.1
    decreases hi - lo
  {
    if hi > lo {
      AmplitudeAttained(s, ch, channel, lo, hi - 1);
    }
  }

  /** The frame end `sample_amplitude` scans to: an empty range counts as one frame. */
  function ScanEnd(start: int, end: int): (r: int)
    ensures start < end ==> r == end
    ensures start == end ==> r == start + 1
    ensures start <= end ==> start < r
    ensures end < start ==> r <= start
  {
    if start == end then start + 1 else end
  }

  function Abs(x: real): real { if x < 0.0 then -x else x }
  function RealMax(a: real, b: real): real { if a < b then b else a }

  /** Smallest peak `normalize_region` divides by. */
  const MinAmp: real := 0.0001

  /** The gain `normalize_region` derives from channel 0's extrema. */
  function NormalizeGain(leftMin: real, leftMax: real): (gain: real)
    ensures gain > 0.0
    ensures gain * Abs(leftMin) <= 1.0 && gain * Abs(leftMax) <= 1.0
    ensures gain <= 1.0 / MinAmp
  {
    var absMax := RealMax(MinAmp, RealMax(Abs(leftMin), Abs(leftMax)));
    assert absMax * (1.0 / absMax) == 1.0;
    GainBelow(Abs(leftMin), absMax);
    GainBelow(Abs(leftMax), absMax);
    1.0 / absMax
  }

  lemma GainBelow(v: real, a: real)
    requires 0.0 <= v <= a && a > 0.0
    ensures (1.0 / a) * v <= 1.0
  {
    assert (1.0 / a) * v <= (1.0 / a) * a;
  }

  /** Channel 0, and channel 1 of a stereo buffer, of the frames [s, e)
      multiplied by `gain`. */
  function ScaledChannels(b: BufferState, s: int, e: int, gain: real): (r: BufferState)
    requires Consistent(b)
    ensures Consistent(r) && |r.samples| == |b.samples|
    ensures r.numFrames == b.numFrames && r.sampleRate == b.sampleRate && r.numChannels == b.numChannels
  {
    var once := Amplified(b, 0, s, e, gain);
    if b.numChannels == 2 then Amplified(once, 1, s, e, gain) else once
  }

  /** `normalize_region` on a value. */
  function Normalized(b: BufferState, start: int, end: int): (r: BufferState)
    requires Consistent(b)
    ensures Consistent(r) && |r.samples| == |b.samples|
    ensures r.numFrames == b.numFrames && r.sampleRate == b.sampleRate && r.numChannels == b.numChannels
  {
    var s := LimitBounds(start, b.numFrames);
    var e := LimitBounds(end, b.numFrames);
    if s >= e then b else ScaledChannels(b, s, e, RegionGain(b, s, e))
  }

  /** The gain `normalize_region` applies to the frames [s, e): derived from
      channel 0's extrema only. */
  function RegionGain(b: BufferState, s: int, e: int): (gain: real)
    ensures gain > 0.0 && gain <= 1.0 / MinAmp
  {
    // the source receives (max, min) into variables named (left_min, left_max)
    var amp := Amplitude(b.samples, b.numChannels, 0, s, e);
    NormalizeGain(amp.0, amp.1)
  }

  /** What `get_raw_pointer` returns: null, or the address of element `offset`. */
  datatype RawPointer = Null | Element(offset: nat)

  // ---------------------------------------------------------------------
  // The class

  class AudioBuffer {
    var samples: seq<Sample>
    var numFrames: int
    var sampleRate: int
    var numChannels: int

    function State(): BufferState
      reads this
    {
      BufferState(samples, numFrames, sampleRate, numChannels)
    }

    /** The buffer has been initialised and its frame count is up to date. */
    predicate Valid()
      reads this
    {
      Consistent(State())
    }

    /** The default constructor and the member initialisers. */
    constructor ()
      ensures State() == DefaultState
    {
      samples, numFrames, sampleRate, numChannels := [], 0, -1, -1;
    }

    /** The constructor that takes channels, rate and samples. */
    constructor FromSamples(numChannels: int, sampleRate: int, samples: seq<Sample>)
      requires numChannels > 0
      ensures Valid() && this.samples == samples
      ensures this.numChannels == numChannels && this.sampleRate == sampleRate
    {
      this.numChannels, this.sampleRate, this.samples := numChannels, sampleRate, samples;
      numFrames := |samples| / numChannels;
    }

    /** Copy assignment: every field takes the value of `s`. */
    method Assign(s: BufferState)
      modifies this
      ensures State() == s
    {
      samples, numFrames, sampleRate, numChannels := s.samples, s.numFrames, s.sampleRate, s.numChannels;
    }

    method OnLengthChanged()
      requires numChannels > 0
      modifies this`numFrames
      ensures Valid() && numFrames == |samples| / numChannels
    {
      numFrames := |samples| / numChannels;
    }

    method Init(numChannels: int, sampleRate: int)
      requires numChannels > 0
      modifies this
      ensures Valid() && State() == BufferState([], 0, sampleRate, numChannels)
    {
      this.numChannels := numChannels;
      this.sampleRate := sampleRate;
      samples := [];
      OnLengthChanged();
    }

    function GetNumFrames(): (r: int)
      reads this
      ensures Valid() ==> r == |samples| / numChannels && r >= 0
    {
      numFrames
    }

    function GetNumChannels(): (r: int)
      reads this
      ensures r == numChannels
    {
      numChannels
    }

    function GetSampleRate(): (r: int)
      reads this
      ensures r == sampleRate
    {
      sampleRate
    }

    function IsStereo(): (r: bool)
      reads this
      ensures r <==> numChannels == 2
    {
      numChannels == 2
    }

    function GetRawPointer(): (p: RawPointer)
      reads this
      ensures p == Null <==> |samples| == 0
      ensures p != Null ==> p == Element(0)
    {
      if |samples| == 0 then Null else Element(0)
    }

    function GetSamples(): (r: seq<Sample>)
      reads this
      ensures r == samples
    {
      samples
    }

    /** `sample_amplitude(channel, start, end)`: the (max, min) pair of one
        channel over the frames scanned. */
    method SampleAmplitude(channel: int, start: int, end: int) returns (max: real, min: real)
      requires Valid()
      ensures (max, min) == Amplitude(samples, numChannels, channel, start, ScanEnd(start, end))
    {
      var last := if start == end then start + 1 else end;
      max, min := -2.0, 2.0;
      var i := start;
      while i < last
        invariant start <= i <= Max(start, last)
        invariant (max, min) == Amplitude(samples, numChannels, channel, start, i)
      {
        var index := i * numChannels + channel;
        if 0 <= index < |samples| {
          var sample := samples[index];
          if sample > max {
            max := sample;
          }
          if sample < min {
            min := sample;
          }
        }
        i := i + 1;
      }
    }

    method DeleteRegion(start: int, end: int) returns (ok: bool)
      requires Valid() && start <= end
      modifies this
      ensures Valid()
      ensures ok == RegionNonEmpty(old(State()), start, end)
      ensures State() == Deleted(old(State()), start, end)
    {
      var s := LimitBounds(start, numFrames);
      var e := LimitBounds(end, numFrames);
      if s == e {
        return false;
      }
      OffsetInStore(State(), e);
      s := s * numChannels;
      e := e * numChannels;
      samples := samples[..s] + samples[e..];
      OnLengthChanged();
      ok := true;
    }

    method InsertSilence(where: int, numFrames: int)
      requires Valid()
      modifies this
      ensures Valid() && State() == Padded(old(State()), numFrames)
    {
      var num := numFrames * numChannels;
      ghost var before := State();
      var i := 0;
      while i < num
        invariant 0 <= i <= Max(num, 0)
        invariant samples == before.samples + Zeros(i)
        invariant State() == before.(samples := samples)
      {
        assert Zeros(i + 1) == Zeros(i) + [0.0];
        samples := samples + [0.0];
        i := i + 1;
      }
      assert i == Max(num, 0);
      OnLengthChanged();
      assert num <= 0 ==> samples == before.samples;
    }

    method AmplifyRegion(channel: int, start: int, end: int, amp: real)
      requires Valid() && start <= end
      modifies this
      ensures Valid() && State() == Amplified(old(State()), channel, start, end, amp)
    {
      var lo := LimitBounds(start, numFrames);
      var hi := LimitBounds(end, numFrames);
      ghost var was := samples;
      var i := lo;
      while i < hi
        invariant lo <= i <= hi
        invariant numFrames == old(numFrames) && numChannels == old(numChannels) && sampleRate == old(sampleRate)
        invariant samples == ScaledRange(was, numChannels, channel, lo, i, amp)
      {
        var index := i * numChannels + channel;
        if 0 <= index < |samples| {
          samples := samples[index := Scale(samples[index], amp)];
        }
        i := i + 1;
      }
    }

    method NormalizeRegion(start: int, end: int)
      requires Valid()
      modifies this
      ensures Valid() && State() == Normalized(old(State()), start, end)
    {
      var s := LimitBounds(start, numFrames);
      var e := LimitBounds(end, numFrames);
      if s >= e {
        return;
      }
      var leftMin, leftMax := SampleAmplitude(0, s, e);
      var amp := NormalizeGain(leftMin, leftMax);
      ghost var before := State();
      assert Normalized(before, start, end) == ScaledChannels(before, s, e, amp);
      AmplifyRegion(0, s, e, amp);
      if numChannels == 2 {
        AmplifyRegion(1, s, e, amp);
      }
      assert State() == ScaledChannels(before, s, e, amp);
    }

    method CopyRegion(start: int, end: int, to: AudioBuffer) returns (ok: bool)
      requires Valid() && start <= end && to != this
      modifies to
      ensures ok == RegionNonEmpty(State(), start, end)
      ensures to.State() == if ok then Copied(State(), start, end) else old(to.State())
    {
      var s := LimitBounds(start, numFrames);
      var e := LimitBounds(end, numFrames);
      if s == e {
        return false;
      }
      OffsetInStore(State(), e);
      MulMonotone(s, e, numChannels);
      s := s * numChannels;
      e := e * numChannels;
      to.Init(numChannels, sampleRate);
      to.samples := samples[s..e] + to.samples;
      to.OnLengthChanged();
      ok := true;
    }

    method CutRegion(start: int, end: int, to: AudioBuffer) returns (ok: bool)
      requires Valid() && start <= end && to != this
      modifies this, to
      ensures Valid()
      ensures ok == RegionNonEmpty(old(State()), start, end)
      ensures State() == Deleted(old(State()), start, end)
      ensures to.State() == if ok then Copied(old(State()), start, end) else old(to.State())
    {
      var s := LimitBounds(start, numFrames);
      var e := LimitBounds(end, numFrames);
      if s == e {
        return false;
      }
      var copied := CopyRegion(s, e, to);
      var deleted := DeleteRegion(s, e);
      ok := true;
    }

    method PasteFrom(where: int, from: AudioBuffer) returns (ok: bool)
      requires Valid() && 0 <= where && from != this
      modifies this
      ensures Valid() && ok
      ensures State() == Pasted(old(State()), where, from.samples)
    {
      if where >= numFrames {
        InsertSilence(numFrames, where - numFrames);
      }
      OffsetInStore(State(), where);
      var offset := where * numChannels;
      samples := samples[..offset] + from.samples + samples[offset..];
      OnLengthChanged();
      ok := true;
    }
  }
}
