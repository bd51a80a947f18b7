/** The multi-client run of `main` (load_test_client.py lines 161-203):
    one slot per client from `asyncio.gather(..., return_exceptions=True)`,
    the reduction of the slots into five counters, and the averages over
    the successful clients. */
module Orchestrator {
  import opened Session

  /** How a client's coroutine ended: an exception escaped `run_client`, or
      it returned the result of its trace. */
  datatype ClientRun = Escaped | Finished(trace: Trace)

  /** One slot of the gathered list: the exception, or the returned tuple. */
  datatype GatherResult = Raised | Returned(result: ClientResult)

  function Slot(run: ClientRun): GatherResult {
    match run
    case Escaped => Raised
    case Finished(t) => Returned(RunClient(t))
  }

  /** `gather` with `return_exceptions=True`: every client fills exactly one
      slot, in the order the clients were started, and an escaped exception
      fills its slot instead of aborting the others. */
  function Gather(runs: seq<ClientRun>): (rs: seq<GatherResult>)
    ensures |rs| == |runs|
    ensures forall i :: 0 <= i < |runs| ==> (rs[i].Raised? <==> runs[i].Escaped?)
    ensures forall i :: 0 <= i < |runs| && runs[i].Finished? ==> rs[i] == Returned(RunClient(runs[i].trace))
  {
    if runs == [] then [] else Gather(runs[..|runs| - 1]) + [Slot(runs[|runs| - 1])]
  }

  /** The five counters of lines 171-175. */
  datatype Tally = Tally(successful: nat, failed: nat, messages: nat, audio: real, processing: real)

  /** One iteration of the loop of lines 177-192. */
  function Step(t: Tally, r: GatherResult): Tally {
    match r
    case Raised => t.(failed := t.failed + 1)
    case Returned(c) =>
      if c.success then
        Tally(t.successful + 1, t.failed, t.messages + c.messages,
              t.audio + c.audioDuration, t.processing + c.processingTime)
      else
        t.(failed := t.failed + 1, messages := t.messages + c.messages)
  }

  /** The counters after the loop has visited every result, in order. */
  function TallyOf(rs: seq<GatherResult>): Tally {
    if rs == [] then Tally(0, 0, 0, 0.0, 0.0) else Step(TallyOf(rs[..|rs| - 1]), rs[|rs| - 1])
  }

  /** The results loop of lines 171-192. */
  method ProcessResults(results: seq<GatherResult>) returns (t: Tally)
    ensures t == TallyOf(results)
  {
    var successfulClients, totalMessages, failedClients := 0, 0, 0;
    var totalAudioDuration, totalProcessingTime := 0.0, 0.0;
    for i := 0 to |results|
      invariant TallyOf(results[..i])
                == Tally(successfulClients, failedClients, totalMessages, totalAudioDuration, totalProcessingTime)
    {
      assert results[..i + 1][..i] == results[..i];
      match results[i]
      case Raised =>
        failedClients := failedClients + 1;
      case Returned(ClientResult(success, msgCount, audioDur, procTime)) =>
        if success {
          successfulClients := successfulClients + 1;
          totalMessages := totalMessages + msgCount;
          totalAudioDuration := totalAudioDuration + audioDur;
          totalProcessingTime := totalProcessingTime + procTime;
        } else {
          failedClients := failedClients + 1;
          totalMessages := totalMessages + msgCount;
        }
    }
    assert results[..|results|] == results;
    t := Tally(successfulClients, failedClients, totalMessages, totalAudioDuration, totalProcessingTime);
  }

  // Reference definitions of the report's figures, one rule each, by
  // recursion from the front of the list.

  predicate IsSuccess(r: GatherResult) {
    r.Returned? && r.result.success
  }

  /** Messages a slot contributes: any returned tuple's count, successful or
      not; an exception contributes none. */
  function MessagesIn(r: GatherResult): nat {
    if r.Returned? then r.result.messages else 0
  }

  /** Audio seconds a slot contributes: successful slots only. */
  function AudioIn(r: GatherResult): real {
    if IsSuccess(r) then r.result.audioDuration else 0.0
  }

  /** Processing seconds a slot contributes: successful slots only. */
  function ProcessingIn(r: GatherResult): real {
    if IsSuccess(r) then r.result.processingTime else 0.0
  }

  function CountIf(rs: seq<GatherResult>, p: GatherResult -> bool): nat {
    if rs == [] then 0 else (if p(rs[0]) then 1 else 0) + CountIf(rs[1..], p)
  }

  function SumNat(rs: seq<GatherResult>, f: GatherResult -> nat): nat {
    if rs == [] then 0 else f(rs[0]) + SumNat(rs[1..], f)
  }

  function SumReal(rs: seq<GatherResult>, f: GatherResult -> real): real {
    if rs == [] then 0.0 else f(rs[0]) + SumReal(rs[1..], f)
  }

  lemma {:induction false} CountIfAppend(rs: seq<GatherResult>, r: GatherResult, p: GatherResult -> bool)
    ensures CountIf(rs + [r], p) == CountIf(rs, p) + (if p(r) then 1 else 0)
  {
    if rs != [] {
      assert (rs + [r])[1..] == rs[1..] + [r];
      CountIfAppend(rs[1..], r, p);
    }
  }

  lemma {:induction false} SumNatAppend(rs: seq<GatherResult>, r: GatherResult, f: GatherResult -> nat)
    ensures SumNat(rs + [r], f) == SumNat(rs, f) + f(r)
  {
    if rs != [] {
      assert (rs + [r])[1..] == rs[1..] + [r];
      SumNatAppend(rs[1..], r, f);
    }
  }

  lemma {:induction false} SumRealAppend(rs: seq<GatherResult>, r: GatherResult, f: GatherResult -> real)
    ensures SumReal(rs + [r], f) == SumReal(rs, f) + f(r)
  {
    if rs != [] {
      assert (rs + [r])[1..] == rs[1..] + [r];
      SumRealAppend(rs[1..], r, f);
    }
  }

  /** The counters agree with the reference rules: successes are the
      successful returned tuples, failures everything else (exceptions
      included), messages are summed over every returned tuple, and audio
      and processing time over the successful ones. */
  lemma {:induction false} TallyMatchesRules(rs: seq<GatherResult>)
    ensures TallyOf(rs) == Tally(CountIf(rs, IsSuccess), CountIf(rs, r => !IsSuccess(r)),
                                 SumNat(rs, MessagesIn), SumReal(rs, AudioIn), SumReal(rs, ProcessingIn))
  {
    if rs != [] {
      var init, last := rs[..|rs| - 1], rs[|rs| - 1];
      assert rs == init + [last];
      TallyMatchesRules(init);
      CountIfAppend(init, last, IsSuccess);
      CountIfAppend(init, last, r => !IsSuccess(r));
      SumNatAppend(init, last, MessagesIn);
      SumRealAppend(init, last, AudioIn);
      SumRealAppend(init, last, ProcessingIn);
    }
  }

  /** Every result is counted once, as a success or as a failure. */
  lemma {:induction false} TallyPartition(rs: seq<GatherResult>)
    ensures TallyOf(rs).successful + TallyOf(rs).failed == |rs|
  {
    if rs != [] {
      TallyPartition(rs[..|rs| - 1]);
    }
  }

  /** A slot holding an exception counts as one more failure and changes
      nothing else, wherever it appears. */
  lemma {:induction false} ExceptionOnlyCountsAsFailure(front: seq<GatherResult>, back: seq<GatherResult>)
    ensures TallyOf(front + [Raised] + back) == TallyOf(front + back).(failed := TallyOf(front + back).failed + 1)
  {
    if back == [] {
      assert front + [Raised] + back == front + [Raised];
      assert front + back == front;
    } else {
      var init, last := back[..|back| - 1], back[|back| - 1];
      assert (front + [Raised] + back)[..|front + [Raised] + back| - 1] == front + [Raised] + init;
      assert (front + back)[..|front + back| - 1] == front + init;
      ExceptionOnlyCountsAsFailure(front, init);
    }
  }

  /** The average audio duration and processing time per successful client,
      or none when no client succeeded. */
  datatype Averages = NoAverages | Averages(audio: real, processing: real)

  /** Lines 201-203: averages are formed only over at least one success. */
  function AveragesOf(t: Tally): (a: Averages)
    ensures a.Averages? <==> t.successful > 0
    ensures a.Averages? ==> a.audio * t.successful as real == t.audio
    ensures a.Averages? ==> a.processing * t.successful as real == t.processing
  {
    if t.successful > 0 then
      Averages(t.audio / t.successful as real, t.processing / t.successful as real)
    else
      NoAverages
  }

  /** Sessions whose trace completed its stream. */
  predicate Completes(run: ClientRun) {
    run.Finished? && run.trace.Ran? && run.trace.outcome.Completed?
  }

  /** Number of sessions that completed their stream. */
  function CompletedCount(runs: seq<ClientRun>): nat {
    if runs == [] then 0
    else CompletedCount(runs[..|runs| - 1]) + (if Completes(runs[|runs| - 1]) then 1 else 0)
  }

  /** The successful clients are exactly the sessions that completed their
      stream, and every client is counted, even one whose coroutine raised. */
  lemma {:induction false} SuccessfulAreCompleted(runs: seq<ClientRun>)
    ensures TallyOf(Gather(runs)).successful == CompletedCount(runs)
    ensures TallyOf(Gather(runs)).successful + TallyOf(Gather(runs)).failed == |runs|
  {
    TallyPartition(Gather(runs));
    if runs != [] {
      var n := |runs| - 1;
      SuccessfulAreCompleted(runs[..n]);
      assert Gather(runs)[..n] == Gather(runs[..n]);
    }
  }

  /** The whole reduction of `main` over the clients' runs: the counters
      and the averages. */
  method Summarize(runs: seq<ClientRun>) returns (t: Tally, avg: Averages)
    ensures t == TallyOf(Gather(runs))
    ensures t.successful + t.failed == |runs|
    ensures avg.Averages? <==> t.successful > 0
    ensures avg == AveragesOf(t)
  {
    var results := Gather(runs);
    t := ProcessResults(results);
    TallyPartition(results);
    avg := AveragesOf(t);
  }

  /** With no clients every counter is zero and no average is formed. */
  lemma NoClientsReport()
    ensures TallyOf(Gather([])) == Tally(0, 0, 0, 0.0, 0.0)
    ensures AveragesOf(TallyOf(Gather([]))) == NoAverages
  {
  }

  /** One client that cannot connect: one failure, no success, no messages,
      no averages, and no exception escapes. */
  lemma UnreachableHostReport(frames: nat)
    ensures var t := TallyOf(Gather([Finished(Ran(frames, Faulted(Connecting, OtherError)))]));
            t.successful == 0 && t.failed == 1 && t.messages == 0 && AveragesOf(t) == NoAverages
  {
  }

  /** A failed tuple's messages enter the total while its durations do not:
      a clean close mid-stream with a running receiver that saw `inbound`. */
  lemma SoftFailureMessagesCounted(frames: nat, inbound: seq<Message>, elapsed: real)
    ensures var t := TallyOf(Gather([Finished(Ran(frames, Faulted(Streaming(Receiver(inbound, false), elapsed), ClosedOK)))]));
            t.failed == 1 && t.messages == |inbound| && t.audio == 0.0 && t.processing == 0.0
  {
  }
}
