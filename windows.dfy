/** Windowing arithmetic of `process_audio`: the track is cut into CHUNK_SIZE-second
    windows, the last one clipped to the track's duration, and each window's samples
    are the slice `y[int(start*sr):int(end*sr)]`. Durations are exact reals. */
module Windows {

  /** CHUNK_SIZE, seconds per window. */
  const ChunkSize: nat := 60

  /** The rate that `librosa.load(audio_path, sr=44100, mono=True)` resamples to. */
  const SampleRate: nat := 44100

  /** `np.ceil` on a real. */
  function Ceil(x: real): (r: int)
    ensures r as real - 1.0 < x <= r as real
  {
    if x.Floor as real == x then x.Floor else x.Floor + 1
  }

  /** `librosa.get_duration(y=y, sr=sr)` for `samples` samples at SampleRate. */
  function Duration(samples: nat): (d: real)
    ensures 0.0 <= d
    ensures d * SampleRate as real == samples as real
  {
    samples as real / SampleRate as real
  }

  /** `int(np.ceil(duration / CHUNK_SIZE))`: the fewest windows that cover the track. */
  function NumChunks(duration: real): (n: nat)
    requires 0.0 <= duration
    ensures (n as real - 1.0) * ChunkSize as real < duration <= n as real * ChunkSize as real
    ensures n == 0 <==> duration == 0.0
  {
    Ceil(duration / ChunkSize as real)
  }

  /** `start = i * CHUNK_SIZE`. */
  function WindowStart(i: nat): int {
    i * ChunkSize
  }

  /** `end = min((i + 1) * CHUNK_SIZE, duration)`: the window is non-empty, ends inside
      the track, ends where the next one starts, and the last one ends at the duration. */
  function WindowEnd(i: nat, duration: real): (end: real)
    requires 0.0 <= duration && i < NumChunks(duration)
    ensures WindowStart(i) as real < end <= duration
    ensures end <= WindowStart(i) as real + ChunkSize as real
    ensures i + 1 < NumChunks(duration) ==> end == WindowStart(i + 1) as real
    ensures i + 1 == NumChunks(duration) ==> end == duration
  {
    var full := ((i + 1) * ChunkSize) as real;
    if full <= duration then full else duration
  }

  /** `int(t * sr)` for a time `t >= 0` (truncation is the floor there). */
  function SampleIndex(t: real): int
    requires 0.0 <= t
  {
    (t * SampleRate as real).Floor
  }

  /** The sample range `[int(start*sr), int(end*sr))` of window `i` of a track of
      `samples` samples: a non-empty range inside the buffer, starting at sample
      `start*sr`, ending where window `i+1` starts, the last one ending at the buffer's end. */
  function SliceBounds(i: nat, samples: nat): (b: (int, int))
    requires i < NumChunks(Duration(samples))
    ensures 0 <= b.0 < b.1 <= samples
    ensures b.0 == WindowStart(i) * SampleRate
    ensures i + 1 < NumChunks(Duration(samples)) ==> b.1 == WindowStart(i + 1) * SampleRate
    ensures i + 1 == NumChunks(Duration(samples)) ==> b.1 == samples
  {
    var d := Duration(samples);
    var lo := SampleIndex(WindowStart(i) as real);
    var hi := SampleIndex(WindowEnd(i, d));
    assert lo == WindowStart(i) * SampleRate by {
      assert WindowStart(i) as real * SampleRate as real == (WindowStart(i) * SampleRate) as real;
    }
    assert hi <= samples by {
      assert WindowEnd(i, d) * SampleRate as real <= d * SampleRate as real;
    }
    assert lo < hi by {
      assert WindowStart(i) as real * SampleRate as real < WindowEnd(i, d) * SampleRate as real;
    }
    assert i + 1 < NumChunks(d) ==> hi == WindowStart(i + 1) * SampleRate by {
      assert WindowStart(i + 1) as real * SampleRate as real == (WindowStart(i + 1) * SampleRate) as real;
    }
    (lo, hi)
  }

  /** The window slices of `y` from window `k` on, concatenated. */
  function SlicesFrom<T>(y: seq<T>, k: nat): seq<T>
    decreases NumChunks(Duration(|y|)) - k
  {
    if k >= NumChunks(Duration(|y|)) then []
    else
      var b := SliceBounds(k, |y|);
      y[b.0..b.1] + SlicesFrom(y, k + 1)
  }

  /** The windows partition the samples: their slices, in order, are exactly `y`. */
  lemma {:induction false} SlicesPartitionSamples<T>(y: seq<T>)
    ensures SlicesFrom(y, 0) == y
  {
    if NumChunks(Duration(|y|)) > 0 {
      SlicesFromSuffix(y, 0);
      assert SliceBounds(0, |y|).0 == 0;
    }
  }

  lemma {:induction false} SlicesFromSuffix<T>(y: seq<T>, k: nat)
    requires k < NumChunks(Duration(|y|))
    ensures SlicesFrom(y, k) == y[SliceBounds(k, |y|).0..]
    decreases NumChunks(Duration(|y|)) - k
  {
    var b := SliceBounds(k, |y|);
    if k + 1 < NumChunks(Duration(|y|)) {
      SlicesFromSuffix(y, k + 1);
      assert SliceBounds(k + 1, |y|).0 == b.1;
      assert y[b.0..b.1] + y[b.1..] == y[b.0..];
    } else {
      assert b.1 == |y|;
      assert y[b.0..b.1] == y[b.0..];
    }
  }

  /** A 150-second track gives the windows [0,60), [60,120) and [120,150). */
  lemma WindowsOf150Seconds()
    ensures NumChunks(150.0) == 3
    ensures WindowStart(0) == 0 && WindowEnd(0, 150.0) == 60.0
    ensures WindowStart(1) == 60 && WindowEnd(1, 150.0) == 120.0
    ensures WindowStart(2) == 120 && WindowEnd(2, 150.0) == 150.0
  {
    assert NumChunks(150.0) == 3;
  }
}
