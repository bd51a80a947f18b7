/** Splitting the decoded audio buffer into binary messages: the send loop
    of `run_client` (load_test_client.py lines 86-106) as written, which
    slices the flat sample array using byte offsets as sample indices, and
    the byte-wise chunking the loop evidently intends. */
module Chunking {
  import opened Config

  /** A decoded buffer: the interleaved samples (`audio_data.flat`) and the
      channel count; `len(audio_data)` is its number of frames. */
  datatype AudioData = AudioData(samples: seq<real>, channels: nat) {
    predicate Valid() {
      channels > 0 && |samples| % channels == 0
    }

    function Frames(): (f: nat)
      requires Valid()
      ensures f * channels == |samples|
    {
      |samples| / channels
    }
  }

  function Min(a: nat, b: nat): nat {
    if a <= b then a else b
  }

  /** The chunk-count formula `(size + CHUNK_SIZE - 1) // CHUNK_SIZE`: the
      ceiling of size / ChunkSize. Applied to a length in any unit it is also
      the number of non-empty ChunkSize-wide slices of that length. */
  function NumChunks(size: nat): (q: nat)
    ensures q * ChunkSize >= size
    ensures q > 0 ==> (q - 1) * ChunkSize < size
    ensures q == 0 <==> size == 0
  {
    (size + ChunkSize - 1) / ChunkSize
  }

  /** The ceiling is monotone in the size. */
  lemma NumChunksMonotone(m: nat, n: nat)
    requires m <= n
    ensures NumChunks(m) <= NumChunks(n)
  {
  }

  /** Slice number `i`: the Python slice xs[i*C : i*C + C], whose bounds are
      clamped to the length of xs. */
  function Slice<T>(xs: seq<T>, i: nat): (c: seq<T>)
    ensures |c| <= ChunkSize
    ensures |c| == 0 <==> i * ChunkSize >= |xs|
    ensures |c| == Min(|xs|, i * ChunkSize + ChunkSize) - Min(|xs|, i * ChunkSize)
  {
    xs[Min(i * ChunkSize, |xs|) .. Min(i * ChunkSize + ChunkSize, |xs|)]
  }

  /** The first k slices, in order. */
  function Chunks<T>(xs: seq<T>, k: nat): (cs: seq<seq<T>>)
    ensures |cs| == k
  {
    if k == 0 then [] else Chunks(xs, k - 1) + [Slice(xs, k - 1)]
  }

  /** The bytes of the chunks joined in order, as the receiving end sees them. */
  function Concat<T>(ss: seq<seq<T>>): seq<T> {
    if ss == [] then [] else Concat(ss[..|ss| - 1]) + ss[|ss| - 1]
  }

  /** Number of slices the loop sends when it runs up to `numChunks` times
      over a sequence of length n and stops at the first empty slice. */
  function SentCount(numChunks: nat, n: nat): (k: nat)
    ensures k <= numChunks
    ensures k * ChunkSize >= n <==> numChunks * ChunkSize >= n
  {
    Min(numChunks, NumChunks(n))
  }

  lemma {:induction false} ChunkAt<T>(xs: seq<T>, k: nat, j: nat)
    requires j < k
    ensures Chunks(xs, k)[j] == Slice(xs, j)
  {
    if j < k - 1 {
      ChunkAt(xs, k - 1, j);
    }
  }

  /** Slice j is sent, and holds elements [j*C, min(j*C + C, n)). */
  lemma SliceBounds<T>(xs: seq<T>, j: nat)
    requires j < NumChunks(|xs|)
    ensures 0 < |Slice(xs, j)| <= ChunkSize
    ensures Slice(xs, j) == xs[j * ChunkSize .. Min(|xs|, j * ChunkSize + ChunkSize)]
  {
  }

  /** Concatenating the first k slices gives the prefix of length
      min(n, k * C): slices come in order, none is repeated and none skipped. */
  lemma {:induction false} ConcatChunks<T>(xs: seq<T>, k: nat)
    ensures Concat(Chunks(xs, k)) == xs[..Min(|xs|, k * ChunkSize)]
  {
    if k > 0 {
      var cs := Chunks(xs, k);
      assert cs[..k - 1] == Chunks(xs, k - 1);
      ConcatChunks(xs, k - 1);
      var a, b := Min(|xs|, (k - 1) * ChunkSize), Min(|xs|, k * ChunkSize);
      assert Slice(xs, k - 1) == xs[a..b];
      assert xs[..a] + xs[a..b] == xs[..b];
    }
  }

  /** Every slice the loop can send is non-empty and at most ChunkSize long. */
  lemma SentChunksBounded<T>(xs: seq<T>, k: nat)
    requires k <= NumChunks(|xs|)
    ensures forall j :: 0 <= j < k ==> 0 < |Chunks(xs, k)[j]| <= ChunkSize
  {
    forall j | 0 <= j < k
      ensures 0 < |Chunks(xs, k)[j]| <= ChunkSize
    {
      ChunkAt(xs, k, j);
      SliceBounds(xs, j);
    }
  }

  // The two facts below hold without proof, but stating them keeps the
  // nonlinear `unit * ...` steps of SendChunks within the resource limit.

  lemma ScaledIsZero(unit: nat, x: nat)
    requires unit > 0
    ensures unit * x == 0 <==> x == 0
  {
  }

  lemma ScaledSum(unit: nat, x: nat, y: nat)
    ensures unit * x + unit * y == unit * (x + y)
  {
  }

  /** The loop of lines 91-104 over `xs`, whose elements are `unit` bytes
      each: up to `numChunks` iterations, iteration i slicing elements
      [i*C, i*C + C), stopping at the first empty slice, and adding each
      chunk's byte length to `bytesSent`. */
  method SendChunks<T>(xs: seq<T>, numChunks: nat, unit: nat)
      returns (sent: seq<seq<T>>, bytesSent: nat)
    requires unit > 0
    ensures sent == Chunks(xs, SentCount(numChunks, |xs|))
    ensures forall j :: 0 <= j < |sent| ==> 0 < |sent[j]| <= ChunkSize
    ensures Concat(sent) == xs[..Min(|xs|, |sent| * ChunkSize)]
    ensures bytesSent == unit * |Concat(sent)|
  {
    sent, bytesSent := [], 0;
    var i := 0;
    while i < numChunks
      invariant i <= numChunks && i <= NumChunks(|xs|)
      invariant sent == Chunks(xs, i)
      invariant bytesSent == unit * Min(|xs|, i * ChunkSize)
    {
      var startByte := i * ChunkSize;
      var endByte := startByte + ChunkSize;
      var chunk := xs[Min(startByte, |xs|) .. Min(endByte, |xs|)];
      assert chunk == Slice(xs, i);
      var chunkBytes := unit * |chunk|;
      ScaledIsZero(unit, |chunk|);
      if chunkBytes == 0 {
        break;
      }
      ScaledSum(unit, Min(|xs|, i * ChunkSize), |chunk|);
      sent := sent + [chunk];
      bytesSent := bytesSent + chunkBytes;
      i := i + 1;
    }
    SentChunksBounded(xs, i);
    ConcatChunks(xs, i);
  }

  /** The send loop as written: num_chunks counts the bytes of
      `len(audio_data)` frames, while the slices are taken from the flat
      sample array and so hold up to ChunkSize samples each. */
  method SendAudio(a: AudioData) returns (sent: seq<seq<real>>, bytesSent: nat)
    requires a.Valid()
    ensures |sent| <= NumChunks(a.Frames() * ItemSize)
    ensures sent == Chunks(a.samples, SentCount(NumChunks(a.Frames() * ItemSize), |a.samples|))
    ensures forall j :: 0 <= j < |sent| ==> 0 < |sent[j]| <= ChunkSize
    ensures Concat(sent) == a.samples[..Min(|a.samples|, |sent| * ChunkSize)]
    ensures bytesSent == ItemSize * |Concat(sent)|
    ensures a.channels <= ItemSize ==> Concat(sent) == a.samples && bytesSent == ItemSize * |a.samples|
  {
    var numChunks := NumChunks(a.Frames() * ItemSize);
    sent, bytesSent := SendChunks(a.samples, numChunks, ItemSize);
    if a.channels <= ItemSize {
      CoversWhenFewChannels(a);
    }
  }

  /** With at most ItemSize channels (mono in particular) the byte count of
      the frames is at least the number of samples, so the loop reaches the
      end of the flat array. */
  lemma CoversWhenFewChannels(a: AudioData)
    requires a.Valid() && a.channels <= ItemSize
    ensures SentCount(NumChunks(a.Frames() * ItemSize), |a.samples|) * ChunkSize >= |a.samples|
  {
  }

  /** Mono round trip: all samples are sent, in order, once each, and the
      byte counter ends at the buffer's byte size. */
  lemma MonoRoundTrip(a: AudioData)
    requires a.Valid() && a.channels == 1
    ensures Concat(Chunks(a.samples, SentCount(NumChunks(a.Frames() * ItemSize), |a.samples|))) == a.samples
    ensures SentCount(NumChunks(a.Frames() * ItemSize), |a.samples|) == NumChunks(|a.samples|)
  {
    var k := SentCount(NumChunks(a.Frames() * ItemSize), |a.samples|);
    CoversWhenFewChannels(a);
    NumChunksMonotone(|a.samples|, a.Frames() * ItemSize);
    ConcatChunks(a.samples, k);
  }

  /** The chunking the loop evidently intends: num_chunks from the buffer's
      byte size, slices of ChunkSize bytes of `raw`, which stands for
      `audio_data.tobytes()` (ItemSize bytes per sample, all channels). */
  method SendAudioBytes(raw: seq<bv8>) returns (sent: seq<seq<bv8>>, bytesSent: nat)
    ensures sent == Chunks(raw, NumChunks(|raw|))
    ensures |sent| == NumChunks(|raw|)
    ensures forall j :: 0 <= j < |sent| ==> 0 < |sent[j]| <= ChunkSize
    ensures forall j :: 0 <= j < |sent| ==> sent[j] == raw[j * ChunkSize .. Min(|raw|, j * ChunkSize + ChunkSize)]
    ensures Concat(sent) == raw
    ensures bytesSent == |raw|
  {
    sent, bytesSent := SendChunks(raw, NumChunks(|raw|), 1);
    forall j | 0 <= j < |sent|
      ensures sent[j] == raw[j * ChunkSize .. Min(|raw|, j * ChunkSize + ChunkSize)]
    {
      ChunkAt(raw, |sent|, j);
      SliceBounds(raw, j);
    }
  }

  /** As written, a two-second mono clip at 16 kHz (32000 samples, 128000
      bytes) is announced as 16 chunks but sent as 4, the first carrying
      32768 bytes rather than ChunkSize. */
  lemma TwoSecondClipExample(xs: seq<real>)
    requires |xs| == 32000
    ensures NumChunks(|xs| * ItemSize) == 16
    ensures SentCount(NumChunks(|xs| * ItemSize), |xs|) == 4
    ensures ItemSize * |Slice(xs, 0)| == 32768 > ChunkSize
  {
  }

  /** As written, the chunks the loop sends from a mono buffer each hold up
      to four times the audio the loop sleeps for after them, and every full
      chunk (ChunkSize samples, 0.512 seconds) exactly four times. */
  lemma AsWrittenChunkOutrunsRealTime(a: AudioData, j: nat)
    requires a.Valid() && a.channels == 1
    requires j < SentCount(NumChunks(a.Frames() * ItemSize), |a.samples|)
    ensures var c := Chunks(a.samples, SentCount(NumChunks(a.Frames() * ItemSize), |a.samples|))[j];
            AudioDuration(|c|) <= 4.0 * SimulatedDelaySeconds &&
            (|c| == ChunkSize ==> AudioDuration(|c|) == 4.0 * SimulatedDelaySeconds)
  {
    var k := SentCount(NumChunks(a.Frames() * ItemSize), |a.samples|);
    ChunkAt(a.samples, k, j);
    SliceBounds(a.samples, j);
    SimulatedDelayValue();
  }

  /** As written, a mono buffer is sent in fewer chunks than the logged
      num_chunks exactly when it is longer than 2048 samples (ChunkSize
      bytes): the loop stops at the first empty slice. */
  lemma MonoFallsShortOfNumChunks(a: AudioData)
    requires a.Valid() && a.channels == 1
    ensures SentCount(NumChunks(a.Frames() * ItemSize), |a.samples|) < NumChunks(a.Frames() * ItemSize)
            <==> a.Frames() > ChunkSize / ItemSize
  {
    var f := a.Frames();
    var q, p := NumChunks(f), NumChunks(f * ItemSize);
    if f > ChunkSize / ItemSize {
      if q >= 2 {
        assert f > ChunkSize;
      }
      assert f * ItemSize > q * ChunkSize;
    } else {
      assert p <= 1;
    }
  }

  /** As written, with at least ItemSize channels the loop sends all
      num_chunks chunks: the samples outnumber the frames' bytes. */
  lemma ManyChannelsSendNumChunks(a: AudioData)
    requires a.Valid() && a.channels >= ItemSize
    ensures SentCount(NumChunks(a.Frames() * ItemSize), |a.samples|) == NumChunks(a.Frames() * ItemSize)
  {
    ScaledSum(a.Frames(), ItemSize, a.channels - ItemSize);
    NumChunksMonotone(a.Frames() * ItemSize, |a.samples|);
  }

  /** With byte-wise chunks of a buffer in the configured format (mono
      float32), no chunk holds more audio than the pacing delay, and every
      full chunk holds exactly that much: the stream runs at real time. */
  lemma CorrectedChunkPacedAtRealTime(raw: seq<bv8>, j: nat)
    requires j < NumChunks(|raw|)
    ensures AudioDuration(|Chunks(raw, NumChunks(|raw|))[j]| / (ItemSize * Channels)) <= SimulatedDelaySeconds
    ensures |Chunks(raw, NumChunks(|raw|))[j]| == ChunkSize ==>
            AudioDuration(|Chunks(raw, NumChunks(|raw|))[j]| / (ItemSize * Channels)) == SimulatedDelaySeconds
  {
    ChunkAt(raw, NumChunks(|raw|), j);
    SliceBounds(raw, j);
    var frames := |Slice(raw, j)| / (ItemSize * Channels);
    assert frames <= ChunkSize / (ItemSize * Channels);
    SimulatedDelayValue();
  }

  /** With byte-wise chunks the count comes from the bytes of every sample
      of every channel, so whatever the channel count the chunks cover the
      whole buffer and, joined, give back its bytes. */
  lemma CorrectedSendsEverySample(a: AudioData, raw: seq<bv8>)
    requires a.Valid() && |raw| == ItemSize * |a.samples|
    ensures NumChunks(|raw|) * ChunkSize >= ItemSize * |a.samples|
    ensures Concat(Chunks(raw, NumChunks(|raw|))) == raw
  {
    ConcatChunks(raw, NumChunks(|raw|));
  }

  /** As written, an eight-channel buffer of 8192 frames (65536 samples)
      gets num_chunks = 4 from its frame count, and the 4 chunks sent cover
      only the first half of the samples. */
  lemma EightChannelTruncationExample(a: AudioData)
    requires a.channels == 8 && |a.samples| == 65536
    ensures a.Valid() && a.Frames() == 8192
    ensures SentCount(NumChunks(a.Frames() * ItemSize), |a.samples|) == 4
    ensures Concat(Chunks(a.samples, 4)) == a.samples[..32768]
    ensures |Concat(Chunks(a.samples, 4))| < |a.samples|
  {
    ConcatChunks(a.samples, 4);
  }
}
