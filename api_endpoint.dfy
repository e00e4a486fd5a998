/** The queued variant of `IOETranscribe` (src/api-endpoint.tsx:16-104):
    calls are appended to `transcribeQueue` and served one at a time by
    `processQueue`, guarded by `isProcessing`.

    The `async` body of `processQueue` is split at its first `await`:
    `ProcessQueue` takes the head of the queue, and `Complete` runs the
    rest once the awaited browser calls and the transcriber polls (gathered
    in a `QueueRun`) are known. The promise of each call is identified by a
    ticket, the position of the call in the order of arrival. */
module ApiEndpoint {
  import opened Common
  import opened Media
  import Wav

  /** `Math.sqrt(2)`: the exact value of the double nearest to the square
      root of 2. */
  const ScalingFactor: real := 1.4142135623730951454746218587388284504413604736328125

  // ---------------------------------------------------------------------
  // Down-mix (lines 56-68)

  /** The samples handed to the transcriber: for exactly two channels the
      sum of the two scaled by `Math.sqrt(2)` and halved; for any other
      number of channels, channel 0 as it is. */
  function MixForModel(b: AudioBuffer): (audio: seq<real>)
    ensures |audio| == FrameCount(b)
    ensures |b.channels| != 2 ==> audio == b.channels[0]
  {
    if |b.channels| == 2 then
      var left, right := b.channels[0], b.channels[1];
      seq(|left|, i requires 0 <= i < |left| => (ScalingFactor * (left[i] + right[i])) / 2.0)
    else b.channels[0]
  }

  /** Lines 58-65: the `for` loop filling a new `Float32Array`. */
  method DownMix(buffer: AudioBuffer) returns (audio: array<real>)
    ensures audio[..] == MixForModel(buffer)
  {
    if |buffer.channels| == 2 {
      var left, right := buffer.channels[0], buffer.channels[1];
      audio := new real[|left|];
      for i := 0 to FrameCount(buffer)
        invariant forall k :: 0 <= k < i ==> audio[k] == (ScalingFactor * (left[k] + right[k])) / 2.0
      {
        audio[i] := (ScalingFactor * (left[i] + right[i])) / 2.0;
      }
    } else {
      var channel := buffer.channels[0];
      audio := new real[|channel|](i requires 0 <= i < |channel| => channel[i]);
    }
  }

  /** For two channels this mix is the WAV encoder's mono mix scaled by
      `Math.sqrt(2)`; the two mixes part ways for three or more channels,
      where the WAV encoder still averages the first two. */
  lemma MixIsScaledMono(b: AudioBuffer)
    ensures |b.channels| == 2 ==>
      && |MixForModel(b)| == |Wav.Mono(b)|
      && forall i :: 0 <= i < |MixForModel(b)| ==> MixForModel(b)[i] == ScalingFactor * Wav.Mono(b)[i]
    ensures |b.channels| == 1 ==> MixForModel(b) == Wav.Mono(b)
  {
  }

  // ---------------------------------------------------------------------
  // Waiting for the transcriber (lines 73-87)

  /** The first non-empty `output.text` the polls see before the 60 s
      timer, or "" when none does. Errors and `isBusy` are not looked at. */
  function FirstText(polls: seq<TranscriberState>): (text: string)
    ensures text == "" || exists i :: 0 <= i < |polls| && polls[i].text == text
  {
    if polls == [] then ""
    else if polls[0].text != "" then polls[0].text
    else FirstText(polls[1..])
  }

  /** The wait resolves with the text of the first poll that sees one:
      the interval is cleared as soon as a text is there. */
  lemma {:induction false} FirstTextIsFirst(polls: seq<TranscriberState>, i: nat)
    requires i < |polls| && polls[i].text != ""
    requires forall j :: 0 <= j < i ==> polls[j].text == ""
    ensures FirstText(polls) == polls[i].text
  {
    if i > 0 {
      assert polls[1..][i - 1] == polls[i];
      FirstTextIsFirst(polls[1..], i - 1);
    }
  }

  /** When no poll sees a text, the wait ends with "" and not an error. */
  lemma {:induction false} NoTextGivesEmpty(polls: seq<TranscriberState>)
    requires forall i :: 0 <= i < |polls| ==> polls[i].text == ""
    ensures FirstText(polls) == ""
  {
    if polls != [] {
      NoTextGivesEmpty(polls[1..]);
    }
  }

  /** The first text seen settles the wait; later polls change nothing. */
  lemma {:induction false} FirstTextFinal(polls: seq<TranscriberState>, later: seq<TranscriberState>)
    requires FirstText(polls) != ""
    ensures FirstText(polls + later) == FirstText(polls)
  {
    assert (polls + later)[0] == polls[0];
    if polls[0].text == "" {
      assert (polls + later)[1..] == polls[1..] + later;
      FirstTextFinal(polls[1..], later);
    }
  }

  /** The interval loop: read each observed state until one has a text. */
  method AwaitText(polls: seq<TranscriberState>) returns (text: string)
    ensures text == FirstText(polls)
  {
    var i := 0;
    while i < |polls|
      invariant 0 <= i <= |polls|
      invariant FirstText(polls[i..]) == FirstText(polls)
    {
      if polls[i].text != "" {
        return polls[i].text;
      }
      assert polls[i..][1..] == polls[i + 1..];
      i := i + 1;
    }
    return "";
  }

  // ---------------------------------------------------------------------
  // One turn of `processQueue` after the dequeue (lines 38-96)

  datatype QueueRun = QueueRun(fetch: FetchResult, decode: DecodeResult, polls: seq<TranscriberState>)

  /** How the request taken from the queue is settled: a failed fetch or
      decoding rejects with its error, a response that is not ok with
      "Failed to fetch audio: <status>"; after a successful decoding the
      request always resolves, with "" on the timeout. */
  function QueueOutcome(run: QueueRun): (r: Result<string>)
    ensures run.fetch.FetchFailed? ==> r == Err(run.fetch.error)
    ensures run.fetch.Response? && !IsOk(run.fetch.status)
            ==> r == Err("Failed to fetch audio: " + NatToString(run.fetch.status))
    ensures run.fetch.Response? && IsOk(run.fetch.status) && run.decode.DecodeFailed?
            ==> r == Err(run.decode.error)
    ensures r.Ok? <==> run.fetch.Response? && IsOk(run.fetch.status) && run.decode.Decoded?
    ensures r.Ok? ==> r.value == FirstText(run.polls)
  {
    match run.fetch
    case FetchFailed(e) => Err(e)
    case Response(status) =>
      if !IsOk(status) then Err("Failed to fetch audio: " + NatToString(status))
      else match run.decode
        case DecodeFailed(e) => Err(e)
        case Decoded(_) => Ok(FirstText(run.polls))
  }

  // ---------------------------------------------------------------------
  // The queue (lines 16-17, 24-36, 92-103)

  /** An element of `transcribeQueue`; `ticket` stands for its promise. */
  datatype Request = Request(ticket: nat, audioUrl: string)

  /** `request.resolve(result)` or `request.reject(error)` of one promise. */
  datatype Settlement = Settlement(ticket: nat, outcome: Result<string>)

  class TranscribeQueue {
    var queue: seq<Request>
    var isProcessing: bool
    /** The `request` local of the `processQueue` call in progress. */
    var current: Option<Request>
    var settled: seq<Settlement>
    /** The sample arrays handed to `transcriber.start`, in order. */
    var transcriberInputs: seq<seq<real>>
    var nextTicket: nat
    /** Every request ever pushed, and those taken from the queue, in order. */
    ghost var history: seq<Request>
    ghost var started: seq<Request>

    /** Requests are taken from the queue in the order they were pushed; at
        most one is in progress, and it is the last one taken; every other
        request taken has been settled once, in the same order. */
    ghost predicate Valid()
      reads this
    {
      && history == started + queue
      && nextTicket == |history|
      && (forall i :: 0 <= i < |history| ==> history[i].ticket == i)
      && (isProcessing <==> current.Some?)
      && (current.Some? ==> |started| > 0 && current.value == started[|started| - 1])
      && |settled| + (if current.Some? then 1 else 0) == |started|
      && (forall i :: 0 <= i < |settled| ==> settled[i].ticket == i)
    }

    constructor ()
      ensures Valid()
      ensures queue == [] && !isProcessing && current == None && settled == []
      ensures transcriberInputs == [] && history == []
    {
      queue, isProcessing, current, settled := [], false, None, [];
      transcriberInputs, nextTicket := [], 0;
      history, started := [], [];
    }

    /** `processQueue` up to its first `await` (lines 32-36): nothing when
        a request is in progress or the queue is empty; otherwise set the
        flag and take exactly the head. */
    method ProcessQueue()
      requires Valid()
      modifies this
      ensures Valid()
      ensures old(isProcessing) || old(queue) == [] ==> unchanged(this)
      ensures !old(isProcessing) && old(queue) != [] ==>
        && isProcessing && current == Some(old(queue)[0])
        && queue == old(queue)[1..] && started == old(started) + [old(queue)[0]]
        && history == old(history) && settled == old(settled)
        && transcriberInputs == old(transcriberInputs) && nextTicket == old(nextTicket)
    {
      if isProcessing || |queue| == 0 {
        return;
      }
      isProcessing := true;
      var request := queue[0];
      queue := queue[1..];
      current := Some(request);
      started := started + [request];
      assert history == started + queue;
    }

    /** `IOETranscribe(audioUrl)` (lines 24-29): push at the tail, leaving
        the earlier entries in place, then call `processQueue`. The result
        is the ticket of the new request's promise. */
    method Transcribe(audioUrl: string) returns (ticket: nat)
      requires Valid()
      modifies this
      ensures Valid()
      ensures ticket == old(nextTicket)
      ensures history == old(history) + [Request(ticket, audioUrl)]
      ensures settled == old(settled) && transcriberInputs == old(transcriberInputs)
      ensures var pushed := old(queue) + [Request(ticket, audioUrl)];
        if old(isProcessing)
        then queue == pushed && current == old(current)
        else queue == pushed[1..] && current == Some(pushed[0]) && isProcessing
    {
      ticket := nextTicket;
      var request := Request(ticket, audioUrl);
      queue := queue + [request];
      history := history + [request];
      nextTicket := nextTicket + 1;
      ProcessQueue();
    }

    /** The rest of `processQueue` (lines 38-103): fetch, decode, down-mix,
        start the transcriber and wait; then settle the request taken,
        exactly once, clear the flag in `finally`, and report whether
        another turn is scheduled, which is when the queue is not empty. */
    method Complete(run: QueueRun) returns (reschedule: bool)
      requires Valid() && current.Some?
      modifies this
      ensures Valid()
      ensures !isProcessing && current == None
      ensures queue == old(queue) && history == old(history) && started == old(started)
      ensures settled == old(settled) + [Settlement(old(current).value.ticket, QueueOutcome(run))]
      ensures transcriberInputs == old(transcriberInputs) +
        (if run.fetch.Response? && IsOk(run.fetch.status) && run.decode.Decoded?
         then [MixForModel(run.decode.buffer)] else [])
      ensures reschedule <==> queue != []
    {
      var request := current.value;
      assert history[|started| - 1] == request;
      assert request.ticket == |settled|;
      var outcome: Result<string>;
      match run.fetch {
        case FetchFailed(e) =>
          outcome := Err(e);
        case Response(status) =>
          if !IsOk(status) {
            outcome := Err("Failed to fetch audio: " + NatToString(status));
          } else {
            match run.decode {
              case DecodeFailed(e) =>
                outcome := Err(e);
              case Decoded(buffer) =>
                var audio := DownMix(buffer);
                transcriberInputs := transcriberInputs + [audio[..]];
                var text := AwaitText(run.polls);
                outcome := Ok(text);
            }
          }
      }
      settled := settled + [Settlement(request.ticket, outcome)];
      isProcessing := false;
      current := None;
      reschedule := |queue| > 0;
    }
  }
}
