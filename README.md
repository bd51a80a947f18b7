# Load-test client for a streaming transcription server, in Dafny

This project models the deterministic core of `load_test_client.py`, a
load generator that starts many simulated clients. Each client reads an
audio file, opens a websocket, sends a handshake and streams the audio as
binary chunks, sleeping after each one as if it held 8192 bytes of audio. Meanwhile a receiver task counts the
server's messages. At the end the orchestrator reduces the clients'
`(success, messages, audio_duration, processing_time)` tuples into a
summary.

Four modules, one per component:

- `Config` (`config.dfy`): the constants `CHUNK_SIZE`, `SAMPLE_RATE`,
  `CHANNELS` and the float32 item size. Also the pacing delay
  `SIMULATED_DELAY_SECONDS` and the audio-duration formula.
- `Chunking` (`chunking.dfy`): the send loop as written. It is one loop,
  `SendChunks`, proved against the slice sequence `Chunks`. `SendAudio`
  applies it to the decoded buffer. `SendAudioBytes` is the byte-wise
  chunking the loop evidently intends (see Findings).
- `Session` (`session.dfy`): the receiver's counting loop
  (`ReceiveMessages`). It also holds `run_client` as a function from an
  event trace to the result tuple. The trace records how far the session
  got, which exception ended it, and what the receiver task had seen.
- `Orchestrator` (`orchestrator.dfy`): `gather` as one slot per client,
  the results loop (`ProcessResults`) proved against the fold `TallyOf`,
  and reference rules for each counter. It also holds the averages guarded
  against zero successes.

Three behaviours of the code are modelled as written:

- Chunks hold up to 8192 *samples*, although the comments at lines 17 and
  94 say bytes. The loop stops after min(`num_chunks`, ceil(samples/8192))
  chunks. For mono audio that is fewer than the logged `num_chunks` exactly
  when the clip is longer than 2048 samples; with 4 or more channels it is
  always `num_chunks` (see Findings).
- After a clean close, `message_count` is the receiver's count only if
  `not receiver_task.done()` (lines 122-124). Otherwise it keeps its
  initial 0 (line 46).
- The handler for any other exception returns 0 messages (line 139),
  whatever the receiver had counted.

## Model

| member | source | states |
|---|---|---|
| Config.PacingDelay | load_test_client.py:21 | the delay is non-negative and is exactly the seconds that `chunkBytes` bytes of audio last at the given rate, item size and channel count |
| Config.SimulatedDelayValue | load_test_client.py:21 | the fixed delay after each chunk is 8192 / (16000 * 4 * 1) = 0.128 s, which is positive |
| Config.DoublingRateHalvesDelay | load_test_client.py:21 | doubling the sample rate halves the pacing delay for a fixed chunk size |
| Config.AudioDuration | load_test_client.py:63 | the duration is non-negative, and multiplied by the 16 kHz rate it gives back the frame count |
| Chunking.NumChunks | load_test_client.py:89 | `num_chunks` is the ceiling of size / 8192: it covers the size, one fewer would not, and it is 0 exactly for an empty buffer |
| Chunking.Slice | load_test_client.py:92-94 | slice i holds at most 8192 elements, is empty exactly when i * 8192 reaches the length, and its length is that of the clamped Python slice |
| Chunking.SentCount | load_test_client.py:91-97 | the loop sends at most `num_chunks` slices, and they reach the end of the buffer exactly when `num_chunks` slices would |
| Chunking.SliceBounds | load_test_client.py:92-97 | every slice before the first empty one is non-empty, at most 8192 long, and holds elements [i*8192, min(n, i*8192 + 8192)) |
| Chunking.ConcatChunks | load_test_client.py:91-100 | the first k slices joined in order give the prefix of length min(n, k*8192): in order, none repeated, none skipped |
| Chunking.SentChunksBounded | load_test_client.py:91-97 | every chunk the loop can send is non-empty and at most 8192 elements long |
| Chunking.SendChunks | load_test_client.py:88-104 | the loop sends the first min(num_chunks, ceil(n/8192)) slices in order, each non-empty and at most 8192 long; their concatenation is a prefix of the buffer, and `bytes_sent` is its byte size |
| Chunking.SendAudio | load_test_client.py:86-106 | the send loop on a decoded buffer, with `num_chunks` from `len(audio_data)` bytes; it sends at most that many chunks; with at most 4 channels (mono included) it sends every sample once, in order, and `bytes_sent` is the buffer's byte size |
| Chunking.CoversWhenFewChannels | load_test_client.py:89-94 | with at most 4 channels, the slices the loop sends reach the end of the flat sample array |
| Chunking.MonoRoundTrip | load_test_client.py:89-100 | for mono audio the chunks sent, joined in order, equal the whole buffer, and ceil(n/8192) of them are sent |
| Chunking.SendAudioBytes | load_test_client.py:89-100 | corrected chunking: the sent chunks are the first ceil(bytes/8192) byte slices, exactly that many, each non-empty and at most 8192 bytes, chunk j is bytes [j*8192, min(n, j*8192 + 8192)), joined they equal the buffer, and `bytes_sent` is its size |
| Chunking.TwoSecondClipExample | load_test_client.py:89-94 | as written, a 32000-sample mono clip gets `num_chunks` = 16 but only 4 chunks are sent, the first one 32768 bytes long |
| Chunking.AsWrittenChunkOutrunsRealTime | load_test_client.py:92-104 | as written, each chunk the loop sends from a mono buffer lasts at most 4 times the 0.128 s it sleeps after it, and every full chunk exactly 4 times |
| Chunking.MonoFallsShortOfNumChunks | load_test_client.py:89-97 | as written, a mono buffer is sent in fewer chunks than `num_chunks` exactly when it holds more than 2048 samples |
| Chunking.ManyChannelsSendNumChunks | load_test_client.py:89-97 | as written, with at least 4 channels the loop sends exactly `num_chunks` chunks |
| Chunking.CorrectedChunkPacedAtRealTime | load_test_client.py:21 | with byte-wise chunks of a mono float32 buffer, no chunk holds more audio than the pacing delay, and every full 8192-byte chunk holds exactly that much |
| Chunking.CorrectedSendsEverySample | load_test_client.py:89 | with byte-wise chunks, whatever the channel count, the chunk count covers the bytes of every sample, and the chunks joined give back the whole buffer |
| Chunking.EightChannelTruncationExample | load_test_client.py:89-94 | as written, an 8-channel buffer of 8192 frames gets `num_chunks` = 4, and those chunks cover only the first half of its samples |
| Session.ReceiveMessages | load_test_client.py:24-41 | the receiver returns exactly the number of messages it iterated, however the iteration ends |
| Session.RunClient | load_test_client.py:43-139 | success holds exactly when the stream completed; the audio duration is that of the file read; processing time is the elapsed stream time once streaming started and 0 before; messages are reported only on a completion or a clean close |
| Session.ReadFailureResult | load_test_client.py:64-66 | an unreadable audio file gives (False, 0, 0, 0) |
| Session.CompletedResult | load_test_client.py:116-118 | a completed stream gives (True, receiver's count, audio duration, elapsed stream time) |
| Session.HardFaultDropsMessages | load_test_client.py:126-139 | any exception other than ConnectionClosedOK is a failure reporting 0 messages, whatever the receiver had counted |
| Session.ConnectFailureResult | load_test_client.py:69 | a failed connect gives (False, 0, audio duration, 0), whatever the exception |
| Session.CleanCloseResult | load_test_client.py:120-125 | a clean close is a failure that reports the receiver's count if the receiver task was still running, and 0 if it had already finished |
| Session.FinishedReceiverExample | load_test_client.py:120-125 | on a clean close, a receiver that had finished after two messages yields 0 messages, and a running one yields 2 |
| Session.MessagesBoundedByReceiver | load_test_client.py:43-139 | a session never reports more messages than its receiver task iterated |
| Orchestrator.Gather | load_test_client.py:162-167 | every client fills exactly one slot, in start order: an exception fills its own slot, and a returned tuple is the client's `run_client` result |
| Orchestrator.ProcessResults | load_test_client.py:171-192 | the results loop leaves the five counters equal to the fold of the loop step over the results |
| Orchestrator.TallyMatchesRules | load_test_client.py:177-192 | successes count the successful tuples; failures count everything else, exceptions included; messages sum over every returned tuple; audio and processing time sum over successful tuples only |
| Orchestrator.TallyPartition | load_test_client.py:179-190 | successful + failed equals the number of results |
| Orchestrator.ExceptionOnlyCountsAsFailure | load_test_client.py:179-181 | an exception slot anywhere in the results adds one failure and changes no other counter |
| Orchestrator.AveragesOf | load_test_client.py:201-203 | averages exist exactly when some client succeeded, and each average times the success count gives back its total |
| Orchestrator.SuccessfulAreCompleted | load_test_client.py:161-192 | the successful clients are exactly the sessions that completed their stream, and successful + failed is the number of clients started |
| Orchestrator.Summarize | load_test_client.py:167-203 | over all clients' runs, the counters are the fold over the gathered slots; successes and failures add up to the number of clients; averages are formed only when some client succeeded |
| Orchestrator.NoClientsReport | load_test_client.py:171-175 | with no clients every counter is zero and no average is formed |
| Orchestrator.UnreachableHostReport | load_test_client.py:161-203 | one client that cannot connect yields one failure, no success, no messages and no averages |
| Orchestrator.SoftFailureMessagesCounted | load_test_client.py:189-192 | a client ended by a clean close adds its messages to the total but no audio or processing time |

## Left out

- Websocket I/O is left out: `connect`, `send`, `close` and async iteration. The model gets the outcome as input, in the trace given to `RunClient` and the message list given to `ReceiveMessages`.
- Asyncio concurrency is left out: `create_task`, `gather`, cancellation and `asyncio.sleep`. The receiver task is a value saying what it iterated and whether it had finished. `gather` is one slot per client in start order.
- Wall-clock time is left out. `time.time() - stream_start_time` is given as a real `elapsed` in the trace. A clock reading of exactly 0.0 would make `stream_start_time` falsy in the source; the model does not cover this.
- Audio decoding with `soundfile` is left out, together with its sample-rate and channel warnings. The decoded buffer is given as flat samples plus a channel count.
- The handshake payload (line 83) is left out. It is Python's `str(dict)` with quotes swapped, not a JSON encoder, and it has no bearing on the results.
- The following are left out: directory listing and `.wav` filtering, `random.choice`, `uuid`, `argparse` and logging, including the summary print-out.
- An exception raised inside `run_client`'s own handlers (by `close`, or by the `closed` attribute) is not traced. Such a client is modelled as `Escaped`, which gather turns into an exception slot.
- The database models and migrations under `libs/shared-models` are not part of this model. They are table definitions with no algorithmic behaviour.
- Python floats are modelled as `real`: durations and times carry no rounding.

## Findings

| source | as written | input that shows it | evidently intended | confidence | as-written member | corrected member |
|---|---|---|---|---|---|---|
| load_test_client.py:92-94 | the slice bounds are byte offsets but index float32 samples, so a chunk holds up to 8192 samples (32768 bytes), and the loop stops after min(`num_chunks`, ceil(samples/8192)) chunks, fewer than `num_chunks` for mono clips over 2048 samples | a 2 s mono clip at 16 kHz (32000 samples): `num_chunks` is 16, 4 chunks are sent, and the first one is 32768 bytes | chunks of at most 8192 bytes, exactly `num_chunks` of them | high, not executed | Chunking.TwoSecondClipExample | Chunking.SendAudioBytes |
| load_test_client.py:104 | after each chunk the loop sleeps 0.128 s, the length of 8192 bytes of audio, but each full chunk holds 0.512 s of mono audio | any mono clip longer than 8192 samples | each chunk's audio length equals the sleep, so the stream runs at real time | high, not executed | Chunking.AsWrittenChunkOutrunsRealTime | Chunking.CorrectedChunkPacedAtRealTime |
| load_test_client.py:89 | `num_chunks` is computed from `len(audio_data)`, the frame count, so the chunks cover only the first 8192 × `num_chunks` samples; with more than 4 channels that can be fewer than all of them, although a short buffer still fits in full | 8 channels, 8192 frames (65536 samples): 4 chunks cover only the first 32768 samples | every sample is sent | medium, not executed | Chunking.EightChannelTruncationExample | Chunking.CorrectedSendsEverySample |
