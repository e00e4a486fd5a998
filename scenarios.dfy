/** Whole exchanges between the parts of the model, each run on fresh
    objects: the page script's correlator talking to the transcription page,
    the page's busy flag refusing a second request, and the queued variant
    serving its callers in order. */
module Scenarios {
  import opened Common
  import opened Protocol
  import IoeClient
  import WhisperApp
  import ApiEndpoint

  /** `transcribeAudio` posts request 1; the transcription page answers it
      with the outcome of its `IOETranscribe` call; the response reaches
      the listener; the 300 s timer fires afterwards. The promise is settled
      exactly once, with the call's own outcome, and the late timer does
      nothing. */
  method RequestAnswered(audioUrl: string, run: WhisperApp.CallRun)
    returns (issued: Result<int>, settled: seq<IoeClient.Settlement>, pending: set<int>)
    ensures issued == Ok(1)
    ensures settled == [IoeClient.Settlement(1, WhisperApp.CallOutcome(run))]
    ensures pending == {}
  {
    var client := new IoeClient.Correlator();
    client.InitWhisperAPI();
    client.OnMessage(IoeReady);
    issued := client.TranscribeAudio(audioUrl, false, false);
    var request := client.outbox[0];
    assert request == TranscribeRequest(1, audioUrl);
    var response := PageAnswers(request, run);
    ResponseRoundTrip(1, WhisperApp.CallOutcome(run));
    client.OnMessage(response);
    client.Timeout(1);
    settled, pending := client.settled, client.pending;
  }

  /** A free transcription page answers a request with exactly one
      response, which echoes the request's id and carries its call's
      outcome. */
  method PageAnswers(request: Message, run: WhisperApp.CallRun) returns (response: Message)
    requires request.TranscribeRequest?
    ensures response == ResponseFor(request.requestId, WhisperApp.CallOutcome(run))
  {
    var page := new WhisperApp.Responder();
    page.Receive(request);
    page.Finish(run);
    response := page.outbox[0];
  }

  /** The page's busy flag: a second request arriving while the first call
      is still awaited is answered at once with the busy error, and the first
      is answered when its call settles. */
  method SecondRequestRefused(first: int, second: int, url1: string, url2: string, run: WhisperApp.CallRun)
    returns (responses: seq<Message>)
    ensures responses == [ResponseFor(second, Err(WhisperApp.BusyMessage)), ResponseFor(first, WhisperApp.CallOutcome(run))]
  {
    var page := new WhisperApp.Responder();
    page.Receive(TranscribeRequest(first, url1));
    page.Receive(TranscribeRequest(second, url2));
    page.Finish(run);
    responses := page.outbox;
  }

  /** The queued variant: two calls made back to back are served one after
      the other, in the order they were made, and each promise is settled
      with the outcome of its own turn; the second call's audio is not
      fetched until the first has settled. */
  method QueueServesInOrder(url1: string, url2: string, run1: ApiEndpoint.QueueRun, run2: ApiEndpoint.QueueRun)
    returns (tickets: seq<nat>, settled: seq<ApiEndpoint.Settlement>, again: bool)
    ensures tickets == [0, 1]
    ensures settled == [ApiEndpoint.Settlement(0, ApiEndpoint.QueueOutcome(run1)),
                        ApiEndpoint.Settlement(1, ApiEndpoint.QueueOutcome(run2))]
    ensures !again
  {
    var q := new ApiEndpoint.TranscribeQueue();
    var t1 := q.Transcribe(url1);
    var t2 := q.Transcribe(url2);
    assert q.current == Some(ApiEndpoint.Request(0, url1));
    assert q.queue == [ApiEndpoint.Request(1, url2)];
    var more := q.Complete(run1);
    assert more;
    q.ProcessQueue();
    assert q.current == Some(ApiEndpoint.Request(1, url2));
    again := q.Complete(run2);
    tickets, settled := [t1, t2], q.settled;
  }
}
