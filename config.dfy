/** Configuration constants of the load-test client and the two pieces of
    arithmetic derived from them: the real-time pacing delay between audio
    chunks and the duration of a decoded audio buffer. */
module Config {

  /** Bytes the client means to send per binary message. */
  const ChunkSize: nat := 8192
  /** Sample rate the streaming server expects, in samples per second. */
  const SampleRate: nat := 16000
  /** Channel count the streaming server expects. */
  const Channels: nat := 1
  /** Size in bytes of one decoded sample: the buffer's dtype is float32. */
  const ItemSize: nat := 4

  /** Seconds of audio represented by `chunkBytes` bytes of raw samples of
      the given format: the delay that keeps the stream at real time. */
  function PacingDelay(chunkBytes: nat, rate: nat, itemSize: nat, channels: nat): (d: real)
    requires rate > 0 && itemSize > 0 && channels > 0
    ensures d >= 0.0
    ensures d * (rate * itemSize * channels) as real == chunkBytes as real
  {
    chunkBytes as real / (rate * itemSize * channels) as real
  }

  /** The fixed sleep after each chunk send. */
  const SimulatedDelaySeconds: real := PacingDelay(ChunkSize, SampleRate, ItemSize, Channels)

  /** The fixed delay is 8192 / (16000 * 4 * 1) = 0.128 seconds. */
  lemma SimulatedDelayValue()
    ensures SimulatedDelaySeconds == 0.128
    ensures SimulatedDelaySeconds > 0.0
  {
  }

  /** Doubling the sample rate halves the pacing delay of a fixed chunk size. */
  lemma DoublingRateHalvesDelay(chunkBytes: nat, rate: nat, itemSize: nat, channels: nat)
    requires rate > 0 && itemSize > 0 && channels > 0
    ensures PacingDelay(chunkBytes, 2 * rate, itemSize, channels)
            == PacingDelay(chunkBytes, rate, itemSize, channels) / 2.0
  {
  }

  /** Duration in seconds of a buffer of `frames` frames, taken at the
      expected sample rate whatever the file's own rate is. */
  function AudioDuration(frames: nat): (secs: real)
    ensures secs >= 0.0
    ensures secs * SampleRate as real == frames as real
  {
    frames as real / SampleRate as real
  }
}
