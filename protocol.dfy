/** The messages exchanged by `postMessage` between the page script (ioe.js)
    and the transcription page (src/App.tsx), dispatched on `event.data.type`. */
module Protocol {
  import opened Common

  datatype Message =
    | IoeReady                                   // { type: 'IOE_READY' }
    | TranscribeRequest(requestId: int, audioUrl: string)
    | TranscribeResponse(requestId: int, success: bool, text: string, error: string)
    | Other(kind: string)                        // any other `type`: ignored by both sides

  /** The `TRANSCRIBE_RESPONSE` the transcription page posts once the call it
      made for request `id` has settled: `success: true` with the text, or
      `success: false` with the error's message. Absent fields are "". */
  function ResponseFor(id: int, r: Result<string>): (m: Message)
    ensures m.TranscribeResponse? && m.requestId == id
    ensures m.success <==> r.Ok?
  {
    match r
    case Ok(text) => TranscribeResponse(id, true, text, "")
    case Err(e) => TranscribeResponse(id, false, "", e)
  }

  /** How the page script settles the promise a response is meant for:
      `resolve(text)` when `success` is set, else `reject(new Error(error))`. */
  function OutcomeOf(m: Message): (r: Result<string>)
    requires m.TranscribeResponse?
    ensures r.Ok? <==> m.success
  {
    if m.success then Ok(m.text) else Err(m.error)
  }

  /** The two sides agree: whatever the transcription call produced is what
      the waiting caller's promise settles with. */
  lemma ResponseRoundTrip(id: int, r: Result<string>)
    ensures OutcomeOf(ResponseFor(id, r)) == r
  {
    match r
    case Ok(_) =>
    case Err(_) =>
  }
}
