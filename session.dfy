/** One simulated client (`receive_messages` and `run_client`,
    load_test_client.py lines 24-139). The websocket, the clock and the
    receiver task are replaced by an event trace: how far the session got,
    which exception ended it, and what the receiver task had seen. */
module Session {
  import opened Config

  /** A server message; the client counts messages and never reads them. */
  datatype Message = Text(text: string) | Binary(data: seq<bv8>)

  /** How the receiver's `async for` over the websocket ends: a normal close,
      a close with an error, or any other exception. Each is caught. */
  datatype StreamEnd = ClosedNormally | ClosedWithError | OtherFailure

  /** The receiver task (lines 24-41): counts every message iterated, then
      returns the count however the iteration ended. `end` is not read:
      every ending is caught (lines 33-38) and the count is returned. */
  method ReceiveMessages(inbound: seq<Message>, end: StreamEnd) returns (count: nat)
    ensures count == |inbound|
  {
    count := 0;
    var i := 0;
    while i < |inbound|
      invariant i <= |inbound|
      invariant count == i
    {
      count := count + 1;
      i := i + 1;
    }
  }

  /** The exception that ends a session: websockets' ConnectionClosedOK, or
      any other Exception (a failed connect, a closed-with-error, ...). */
  datatype Fault = ClosedOK | OtherError

  /** The receiver task as the handler finds it: the messages it has iterated
      (all of them, if it is awaited) and whether it had already finished. */
  datatype Receiver = Receiver(inbound: seq<Message>, done: bool)

  /** Where the fault was raised. Before line 73 no receiver task exists;
      before line 87 streaming has not started. `elapsed` is the clock
      difference `time.time() - stream_start_time` at the handler. */
  datatype Stage =
    | Connecting
    | Handshaking(receiver: Receiver)
    | Streaming(receiver: Receiver, elapsed: real)

  /** How a session whose audio file was read went on. */
  datatype Outcome =
    | Completed(inbound: seq<Message>, elapsed: real)
    | Faulted(stage: Stage, fault: Fault)

  /** A session: the audio read failed, or it succeeded with `frames` frames
      (`len(audio_data)`) and the session went on to `outcome`. */
  datatype Trace = ReadFailed | Ran(frames: nat, outcome: Outcome)

  /** The 4-tuple `(success, messages, audio_duration, processing_time)`. */
  datatype ClientResult = ClientResult(success: bool, messages: nat, audioDuration: real, processingTime: real)

  predicate StreamStarted(t: Trace) {
    t.Ran? && (t.outcome.Completed? || t.outcome.stage.Streaming?)
  }

  function StreamElapsed(t: Trace): real
    requires StreamStarted(t)
  {
    if t.outcome.Completed? then t.outcome.elapsed else t.outcome.stage.elapsed
  }

  /** The result `run_client` returns for a trace, branch by branch. */
  function RunClient(t: Trace): (r: ClientResult)
    ensures r.success <==> t.Ran? && t.outcome.Completed?
    ensures t.Ran? ==> r.audioDuration == AudioDuration(t.frames)
    ensures StreamStarted(t) ==> r.processingTime == StreamElapsed(t)
    ensures !StreamStarted(t) ==> r.processingTime == 0.0
    ensures r.messages > 0 ==> t.Ran? && !(t.outcome.Faulted? && t.outcome.fault.OtherError?)
  {
    match t
    case ReadFailed => ClientResult(false, 0, 0.0, 0.0)
    case Ran(frames, outcome) =>
      var audioDuration := AudioDuration(frames);
      match outcome
      case Completed(inbound, elapsed) =>
        ClientResult(true, |inbound|, audioDuration, elapsed)
      case Faulted(stage, fault) =>
        var processingTime := if stage.Streaming? then stage.elapsed else 0.0;
        match fault
        case ClosedOK =>
          var messageCount :=
            if !stage.Connecting? && !stage.receiver.done then |stage.receiver.inbound| else 0;
          ClientResult(false, messageCount, audioDuration, processingTime)
        case OtherError =>
          ClientResult(false, 0, audioDuration, processingTime)
  }

  /** An unreadable audio file gives (False, 0, 0, 0). */
  lemma ReadFailureResult()
    ensures RunClient(ReadFailed) == ClientResult(false, 0, 0.0, 0.0)
  {
  }

  /** A completed stream gives (True, the receiver's count, the audio
      duration, the time since streaming began). */
  lemma CompletedResult(frames: nat, inbound: seq<Message>, elapsed: real)
    ensures RunClient(Ran(frames, Completed(inbound, elapsed)))
            == ClientResult(true, |inbound|, AudioDuration(frames), elapsed)
  {
  }

  /** Any exception other than ConnectionClosedOK reports no messages, even
      when the receiver had counted some: the cancelled receiver's count is
      dropped. */
  lemma HardFaultDropsMessages(frames: nat, stage: Stage)
    ensures RunClient(Ran(frames, Faulted(stage, OtherError))).messages == 0
    ensures !RunClient(Ran(frames, Faulted(stage, OtherError))).success
  {
  }

  /** A failed connect reports failure, no messages and no processing time,
      but the audio duration of the file it read. */
  lemma ConnectFailureResult(frames: nat, fault: Fault)
    ensures RunClient(Ran(frames, Faulted(Connecting, fault)))
            == ClientResult(false, 0, AudioDuration(frames), 0.0)
  {
  }

  /** A clean close is a failure that reports the receiver's count only if
      the receiver task was still running; a receiver that had already
      finished leaves the count at its initial 0. */
  lemma CleanCloseResult(frames: nat, stage: Stage)
    requires !stage.Connecting?
    ensures var r := RunClient(Ran(frames, Faulted(stage, ClosedOK)));
            !r.success &&
            (!stage.receiver.done ==> r.messages == |stage.receiver.inbound|) &&
            (stage.receiver.done ==> r.messages == 0)
  {
  }

  /** A finished receiver's messages are lost on a clean close: a session
      whose receiver saw two messages and had returned reports 0, while the
      same session with a running receiver reports 2. */
  lemma FinishedReceiverExample(m: Message)
    ensures RunClient(Ran(16000, Faulted(Streaming(Receiver([m, m], true), 1.0), ClosedOK))).messages == 0
    ensures RunClient(Ran(16000, Faulted(Streaming(Receiver([m, m], false), 1.0), ClosedOK))).messages == 2
  {
  }

  /** Messages reported by a session never exceed what its receiver saw. */
  lemma MessagesBoundedByReceiver(t: Trace)
    ensures RunClient(t).messages <= ReceiverSeen(t)
  {
  }

  /** Messages the receiver task had iterated when the session ended. */
  function ReceiverSeen(t: Trace): nat {
    match t
    case ReadFailed => 0
    case Ran(_, Completed(inbound, _)) => |inbound|
    case Ran(_, Faulted(Connecting, _)) => 0
    case Ran(_, Faulted(stage, _)) => |stage.receiver.inbound|
  }
}
