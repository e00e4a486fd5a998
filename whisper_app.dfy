/** The transcription page (src/App.tsx:9-119): `IOETranscribe` serves one
    call at a time behind the `processingRef` flag, waits for the
    transcriber by polling it, and the `message` handler answers every
    `TRANSCRIBE_REQUEST` with one `TRANSCRIBE_RESPONSE`.

    The `async` code is split at its `await` points. The outcomes of the
    awaited browser calls and the transcriber states the polls read are
    gathered in a `CallRun`; the polls are those that happen before the
    300 s timer fires. */
module WhisperApp {
  import opened Common
  import opened Media
  import opened Protocol

  const BusyMessage := "Already processing another request. Please wait."
  const TimeoutMessage := "Transcription timeout (300s)"

  // ---------------------------------------------------------------------
  // Waiting for the transcriber (lines 49-70)

  datatype Decision = Reject(message: string) | Resolve(text: string) | KeepWaiting

  /** One tick of the 100 ms interval: a set error rejects with it, whatever
      the output; otherwise a non-empty text resolves once the transcriber
      is no longer busy; every other state keeps waiting. */
  function Poll(t: TranscriberState): (d: Decision)
    ensures d.Reject? <==> t.error != ""
    ensures d.Reject? ==> d.message == t.error
    ensures d.Resolve? <==> t.error == "" && t.text != "" && !t.isBusy
    ensures d.Resolve? ==> d.text == t.text
  {
    if t.error != "" then Reject(t.error)
    else if t.text != "" && !t.isBusy then Resolve(t.text)
    else KeepWaiting
  }

  /** The settled value of the first poll that decides, if any does. */
  function FirstDecision(polls: seq<TranscriberState>): (d: Option<Result<string>>)
    ensures d.None? <==> forall j :: 0 <= j < |polls| ==> Poll(polls[j]).KeepWaiting?
  {
    if polls == [] then None
    else if Poll(polls[0]).KeepWaiting? then
      assert forall j :: 1 <= j < |polls| ==> polls[1..][j - 1] == polls[j];
      FirstDecision(polls[1..])
    else match Poll(polls[0])
      case Reject(m) => Some(Err(m))
      case Resolve(text) => Some(Ok(text))
  }

  /** The value of the awaited promise: the first decision, or the timeout's
      rejection when no poll before it decides. */
  function Await(polls: seq<TranscriberState>): (r: Result<string>)
    ensures FirstDecision(polls).None? ==> r == Err(TimeoutMessage)
    ensures FirstDecision(polls).Some? ==> r == FirstDecision(polls).value
  {
    match FirstDecision(polls)
    case Some(r) => r
    case None => Err(TimeoutMessage)
  }

  /** Once a poll has decided, the polls that follow change nothing: the
      interval and the timer are both cleared. */
  lemma {:induction false} DecisionFinal(polls: seq<TranscriberState>, later: seq<TranscriberState>)
    requires FirstDecision(polls).Some?
    ensures FirstDecision(polls + later) == FirstDecision(polls)
    ensures Await(polls + later) == Await(polls)
  {
    assert (polls + later)[0] == polls[0];
    if Poll(polls[0]).KeepWaiting? {
      assert (polls + later)[1..] == polls[1..] + later;
      DecisionFinal(polls[1..], later);
    }
  }

  /** The decision is made by the first poll that does not keep waiting,
      and all the polls before it kept waiting. */
  lemma {:induction false} DecidedAt(polls: seq<TranscriberState>) returns (i: nat)
    requires FirstDecision(polls).Some?
    ensures i < |polls| && !Poll(polls[i]).KeepWaiting?
    ensures forall j :: 0 <= j < i ==> Poll(polls[j]).KeepWaiting?
    ensures FirstDecision(polls) == Some(if Poll(polls[i]).Reject? then Err(polls[i].error) else Ok(polls[i].text))
  {
    if Poll(polls[0]).KeepWaiting? {
      var k := DecidedAt(polls[1..]);
      i := k + 1;
    } else {
      i := 0;
    }
  }

  /** When every poll before the timer keeps waiting, the call times out. */
  lemma {:induction false} AllWaitingTimesOut(polls: seq<TranscriberState>)
    requires forall j :: 0 <= j < |polls| ==> Poll(polls[j]).KeepWaiting?
    ensures Await(polls) == Err(TimeoutMessage)
  {
    if polls != [] {
      AllWaitingTimesOut(polls[1..]);
    }
  }

  /** The interval loop: poll each observed state in turn until one decides. */
  method WaitForTranscript(polls: seq<TranscriberState>) returns (r: Result<string>)
    ensures r == Await(polls)
  {
    var i := 0;
    while i < |polls|
      invariant 0 <= i <= |polls|
      invariant FirstDecision(polls[i..]) == FirstDecision(polls)
    {
      var d := Poll(polls[i]);
      if d.Reject? {
        return Err(d.message);
      } else if d.Resolve? {
        return Ok(d.text);
      }
      assert polls[i..][1..] == polls[i + 1..];
      i := i + 1;
    }
    return Err(TimeoutMessage);
  }

  // ---------------------------------------------------------------------
  // One call of `IOETranscribe` after the busy check (lines 30-80)

  /** The outcomes of the awaits of one call: the fetch, the decoding, and
      the transcriber states read by the polls before the timeout. */
  datatype CallRun = CallRun(fetch: FetchResult, decode: DecodeResult, polls: seq<TranscriberState>)

  /** What the call returns or throws. A failed fetch rejects with its
      error; a response that is not ok rejects with "HTTP <status>" before
      anything is decoded; a failed decoding rejects with its error; else
      the transcriber's outcome is the call's. */
  function CallOutcome(run: CallRun): (r: Result<string>)
    ensures run.fetch.FetchFailed? ==> r == Err(run.fetch.error)
    ensures run.fetch.Response? && !IsOk(run.fetch.status) ==> r == Err("HTTP " + NatToString(run.fetch.status))
    ensures r.Ok? <==> run.fetch.Response? && IsOk(run.fetch.status) && run.decode.Decoded?
                       && FirstDecision(run.polls).Some? && FirstDecision(run.polls).value.Ok?
    ensures run.fetch.Response? && IsOk(run.fetch.status) ==>
              r == if run.decode.DecodeFailed? then Err(run.decode.error) else Await(run.polls)
  {
    match run.fetch
    case FetchFailed(e) => Err(e)
    case Response(status) =>
      if !IsOk(status) then Err("HTTP " + NatToString(status))
      else match run.decode
        case DecodeFailed(e) => Err(e)
        case Decoded(_) => Await(run.polls)
  }

  /** The status can be read back from an HTTP error: two calls that fail
      with the same message got the same status. */
  lemma HttpStatusRecoverable(run1: CallRun, run2: CallRun)
    requires run1.fetch.Response? && !IsOk(run1.fetch.status)
    requires run2.fetch.Response? && !IsOk(run2.fetch.status)
    requires CallOutcome(run1) == CallOutcome(run2)
    ensures run1.fetch.status == run2.fetch.status
  {
    var s1, s2 := NatToString(run1.fetch.status), NatToString(run2.fetch.status);
    assert ("HTTP " + s1)[5..] == s1 && ("HTTP " + s2)[5..] == s2;
    NatToStringInjective(run1.fetch.status, run2.fetch.status);
  }

  /** A response is posted for the request whose handler is waiting. */
  function ResponseIds(ms: seq<Message>): multiset<int> {
    if ms == [] then multiset{}
    else (if ms[0].TranscribeResponse? then multiset{ms[0].requestId} else multiset{}) + ResponseIds(ms[1..])
  }

  lemma {:induction false} ResponseIdsAppend(ms: seq<Message>, m: Message)
    requires m.TranscribeResponse?
    ensures ResponseIds(ms + [m]) == ResponseIds(ms) + multiset{m.requestId}
    decreases |ms|
  {
    if ms == [] {
      assert ([m])[1..] == [];
    } else {
      assert (ms + [m])[1..] == ms[1..] + [m];
      ResponseIdsAppend(ms[1..], m);
    }
  }

  /** The ids awaiting an answer: that of the request whose handler is
      waiting, if any. */
  function Waiting(inFlight: Option<int>): multiset<int> {
    if inFlight.Some? then multiset{inFlight.value} else multiset{}
  }

  /** Everything posted is a response, and every request received is either
      answered once or still awaited. */
  ghost predicate Accounted(outbox: seq<Message>, inFlight: Option<int>, received: multiset<int>) {
    && (forall i :: 0 <= i < |outbox| ==> outbox[i].TranscribeResponse?)
    && ResponseIds(outbox) + Waiting(inFlight) == received
  }

  /** A request taken up by a free page becomes the awaited one. */
  lemma AccountAccept(outbox: seq<Message>, received: multiset<int>, id: int)
    requires Accounted(outbox, None, received)
    ensures Accounted(outbox, Some(id), received + multiset{id})
  {
  }

  /** A request refused as busy is answered at once. */
  lemma AccountRefuse(outbox: seq<Message>, inFlight: Option<int>, received: multiset<int>, id: int)
    requires Accounted(outbox, inFlight, received)
    ensures Accounted(outbox + [ResponseFor(id, Err(BusyMessage))], inFlight, received + multiset{id})
  {
    var m := ResponseFor(id, Err(BusyMessage));
    ResponseIdsAppend(outbox, m);
    ResponsesAppend(outbox, m);
    assert ResponseIds(outbox) + multiset{id} + Waiting(inFlight) == received + multiset{id};
  }

  /** The awaited request is answered when its call settles. */
  lemma AccountAnswer(outbox: seq<Message>, id: int, received: multiset<int>, r: Result<string>)
    requires Accounted(outbox, Some(id), received)
    ensures Accounted(outbox + [ResponseFor(id, r)], None, received)
    ensures ResponseIds(outbox + [ResponseFor(id, r)]) == received
  {
    var m := ResponseFor(id, r);
    ResponseIdsAppend(outbox, m);
    ResponsesAppend(outbox, m);
    assert Waiting(Some(id)) == multiset{id} && Waiting(None) == multiset{};
    assert ResponseIds(outbox + [m]) == received;
  }

  lemma ResponsesAppend(outbox: seq<Message>, m: Message)
    requires forall i :: 0 <= i < |outbox| ==> outbox[i].TranscribeResponse?
    requires m.TranscribeResponse?
    ensures forall i :: 0 <= i < |outbox + [m]| ==> (outbox + [m])[i].TranscribeResponse?
  {
    assert forall i :: 0 <= i < |outbox| ==> (outbox + [m])[i] == outbox[i];
  }

  class Responder {
    /** `processingRef.current`. */
    var processing: bool
    /** The `requestId` of the message handler awaiting the call in
        progress, when that call came by message. */
    var inFlight: Option<int>
    /** The responses posted to `event.source`, in order. */
    var outbox: seq<Message>
    /** The ids of the requests received so far, with repetitions. */
    ghost var received: multiset<int>

    /** A handler awaits only while its call holds the flag, and every
        request received is either answered once or still awaited. */
    ghost predicate Valid()
      reads this
    {
      && (inFlight.Some? ==> processing)
      && Accounted(outbox, inFlight, received)
    }

    /** Line 12: the flag starts cleared. */
    constructor ()
      ensures Valid()
      ensures !processing && inFlight == None && outbox == [] && received == multiset{}
    {
      processing, inFlight, outbox := false, None, [];
      received := multiset{};
    }

    /** Lines 23-27: a call that finds the flag set throws at once and
        leaves the flag as it is; otherwise it sets the flag before its
        first `await`. */
    method BeginCall() returns (started: bool)
      modifies this`processing
      ensures started == !old(processing)
      ensures processing
    {
      if processing {
        return false;
      }
      processing := true;
      started := true;
    }

    /** Lines 30-80, for a call made directly through `window`: run the
        awaits and clear the flag on the success path and on every error
        path alike. */
    method EndCall(run: CallRun) returns (r: Result<string>)
      requires processing
      modifies this`processing
      ensures !processing
      ensures r == CallOutcome(run)
    {
      match run.fetch {
        case FetchFailed(e) =>
          r := Err(e);
        case Response(status) =>
          if !IsOk(status) {
            r := Err("HTTP " + NatToString(status));
          } else {
            match run.decode {
              case DecodeFailed(e) =>
                r := Err(e);
              case Decoded(_) =>
                r := WaitForTranscript(run.polls);
            }
          }
      }
      processing := false;
    }

    /** `window.IOETranscribe(audioUrl)` called directly rather than by
        message (lines 22-80): refused with the busy error while the flag is
        set, which leaves it set; otherwise the call runs and clears the
        flag. Nothing is posted, and the bookkeeping of the requests that
        came by message is kept. */
    method DirectCall(run: CallRun) returns (r: Result<string>)
      requires Valid()
      modifies this`processing
      ensures Valid()
      ensures old(processing) ==> processing && r == Err(BusyMessage)
      ensures !old(processing) ==> !processing && r == CallOutcome(run)
    {
      var started := BeginCall();
      if !started {
        return Err(BusyMessage);
      }
      r := EndCall(run);
    }

    /** `handleMessage` up to its `await` (lines 96-99). A request starts a
        call; when the call is refused as busy the error response is posted
        at once. Any other message is ignored. */
    method Receive(m: Message)
      requires Valid()
      modifies this
      ensures Valid()
      ensures !m.TranscribeRequest? ==> unchanged(this)
      ensures m.TranscribeRequest? ==>
        && received == old(received) + multiset{m.requestId}
        && processing
        && (if old(processing)
            then inFlight == old(inFlight) && outbox == old(outbox) + [ResponseFor(m.requestId, Err(BusyMessage))]
            else inFlight == Some(m.requestId) && outbox == old(outbox))
    {
      if m.TranscribeRequest? {
        Request(m.requestId);
      }
    }

    /** The request branch of `handleMessage` up to its `await`. */
    method Request(id: int)
      requires Valid()
      modifies this
      ensures Valid()
      ensures received == old(received) + multiset{id} && processing
      ensures if old(processing)
              then inFlight == old(inFlight) && outbox == old(outbox) + [ResponseFor(id, Err(BusyMessage))]
              else inFlight == Some(id) && outbox == old(outbox)
    {
      var started := BeginCall();
      if started {
        AccountAccept(outbox, received, id);
        inFlight := Some(id);
      } else {
        AccountRefuse(outbox, inFlight, received, id);
        Post(ResponseFor(id, Err(BusyMessage)));
      }
      received := received + multiset{id};
    }

    /** `handleMessage` after its `await` (lines 99-113): the call has
        settled, and exactly one response echoing the request's id is
        posted, carrying the text or the error. */
    method Finish(run: CallRun)
      requires Valid() && inFlight.Some?
      modifies this
      ensures Valid()
      ensures !processing && inFlight == None && received == old(received)
      ensures outbox == old(outbox) + [ResponseFor(old(inFlight).value, CallOutcome(run))]
      ensures ResponseIds(outbox) == received
    {
      var id := inFlight.value;
      var r := EndCall(run);
      AccountAnswer(outbox, id, received, r);
      inFlight := None;
      Post(ResponseFor(id, r));
    }

    /** `event.source.postMessage(response)`. */
    method Post(response: Message)
      modifies this`outbox
      ensures outbox == old(outbox) + [response]
    {
      outbox := outbox + [response];
    }
  }
}
