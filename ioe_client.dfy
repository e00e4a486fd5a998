/** The page script's side of the transcription protocol (ioe.js:9-77): a
    hidden frame hosts the transcription page, requests are numbered by a
    counter, and each waiting promise is kept in `pendingRequests` until a
    response or its 300 s timer settles it.

    The asynchronous code is split at its `await` points into events that a
    caller delivers one at a time: a message reaching the listener
    (`OnMessage`), the 300 s timer of a request firing (`Timeout`), and a
    call of `transcribeAudio` (`TranscribeAudio`), whose two waits are
    summarised by whether `IOE_READY` arrived during each of them. */
module IoeClient {
  import opened Common
  import opened Protocol

  const NotReadyMessage := "Whisper API not ready yet. Please check connection."
  const TimeoutMessage := "Transcription timeout (300s)"

  /** One promise of `transcribeAudio` settling: `resolve(text)` or
      `reject(new Error(message))` for request `id`. */
  datatype Settlement = Settlement(id: int, outcome: Result<string>)

  ghost function Ids(log: seq<Settlement>): set<int> {
    set i | 0 <= i < |log| :: log[i].id
  }

  lemma IdsAppend(log: seq<Settlement>, x: Settlement)
    ensures Ids(log + [x]) == Ids(log) + {x.id}
  {
    var log' := log + [x];
    assert log'[|log|] == x;
    forall y | y in Ids(log) ensures y in Ids(log') {
      var i :| 0 <= i < |log| && log[i].id == y;
      assert log'[i] == log[i];
    }
  }

  /** The bookkeeping of `pendingRequests` once ids 1 to `requestId` have
      been handed out: every such id is pending or settled, never both, and
      no id is settled twice. */
  ghost predicate Ledger(requestId: nat, pending: set<int>, settled: seq<Settlement>) {
    && (forall id :: id in pending ==> 1 <= id <= requestId)
    && (forall i :: 0 <= i < |settled| ==> 1 <= settled[i].id <= requestId && settled[i].id !in pending)
    && (forall i, j :: 0 <= i < j < |settled| ==> settled[i].id != settled[j].id)
    && (forall id :: 1 <= id <= requestId ==> id in pending || id in Ids(settled))
  }

  /** Settling a pending id and deleting its entry keeps the ledger. */
  lemma LedgerSettle(requestId: nat, pending: set<int>, settled: seq<Settlement>, id: int, outcome: Result<string>)
    requires Ledger(requestId, pending, settled) && id in pending
    ensures Ledger(requestId, pending - {id}, settled + [Settlement(id, outcome)])
    ensures Ids(settled + [Settlement(id, outcome)]) == Ids(settled) + {id}
  {
    var settled' := settled + [Settlement(id, outcome)];
    IdsAppend(settled, Settlement(id, outcome));
    assert forall i :: 0 <= i < |settled| ==> settled'[i] == settled[i] && settled[i].id != id;
    assert settled'[|settled|].id == id;
  }

  /** Handing out the next id and registering it keeps the ledger; the new
      id was neither pending nor settled before. */
  lemma LedgerRegister(requestId: nat, pending: set<int>, settled: seq<Settlement>)
    requires Ledger(requestId, pending, settled)
    ensures requestId + 1 !in pending && requestId + 1 !in Ids(settled)
    ensures Ledger(requestId + 1, pending + {requestId + 1}, settled)
  {
  }

  class Correlator {
    /** `whisperFrame !== null`. */
    var frameCreated: bool
    var apiReady: bool
    var requestId: nat
    /** The keys of `pendingRequests`; each key's `{resolve, reject}` pair is
        the promise of that request, so its settling is logged by id. */
    var pending: set<int>
    /** Every `resolve`/`reject` call made so far, in order. */
    var settled: seq<Settlement>
    /** Every message posted to the frame, in order. */
    var outbox: seq<Message>

    ghost function SettledIds(): set<int>
      reads this
    {
      Ids(settled)
    }

    /** Ids are handed out 1, 2, 3, ... with one request message each; every
        id handed out is either still pending or settled, never both, and no
        id is settled twice. */
    ghost predicate Valid()
      reads this
    {
      && (!frameCreated ==> !apiReady && requestId == 0)
      && |outbox| == requestId
      && (forall i :: 0 <= i < |outbox| ==> outbox[i].TranscribeRequest? && outbox[i].requestId == i + 1)
      && Ledger(requestId, pending, settled)
    }

    /** Lines 9-12: the state when the script starts. */
    constructor ()
      ensures Valid()
      ensures !frameCreated && !apiReady && requestId == 0
      ensures pending == {} && settled == [] && outbox == []
    {
      frameCreated, apiReady, requestId := false, false, 0;
      pending, settled, outbox := {}, [], [];
    }

    /** `initWhisperAPI` (lines 14-41): create the frame and register the
        listener once; any later call changes nothing. */
    method InitWhisperAPI()
      requires Valid()
      modifies this
      ensures Valid() && frameCreated
      ensures old(frameCreated) ==> unchanged(this)
      ensures apiReady == old(apiReady) && requestId == old(requestId)
      ensures pending == old(pending) && settled == old(settled) && outbox == old(outbox)
    {
      if frameCreated {
        return;
      }
      frameCreated := true;
    }

    /** The `message` listener (lines 23-38), which exists only once the
        frame has been created. `IOE_READY` sets `apiReady`; a response
        whose id is pending settles that promise as the response says and
        removes that id alone; anything else is ignored. */
    method OnMessage(m: Message)
      requires Valid()
      modifies this
      ensures Valid()
      ensures frameCreated == old(frameCreated) && requestId == old(requestId) && outbox == old(outbox)
      ensures apiReady == (old(apiReady) || (old(frameCreated) && m.IoeReady?))
      ensures if old(frameCreated) && m.TranscribeResponse? && m.requestId in old(pending)
              then pending == old(pending) - {m.requestId}
                && settled == old(settled) + [Settlement(m.requestId, OutcomeOf(m))]
              else pending == old(pending) && settled == old(settled)
    {
      if !frameCreated {
        return;
      }
      match m {
        case IoeReady =>
          apiReady := true;
        case TranscribeResponse(id, _, _, _) =>
          if id in pending {
            Settle(id, OutcomeOf(m));
          }
        case _ =>
      }
    }

    /** The 300 s timer of request `id` (lines 70-75): it rejects and
        removes the entry only if it is still pending, so after a response
        it does nothing. */
    method Timeout(id: int)
      requires Valid()
      modifies this
      ensures Valid()
      ensures frameCreated == old(frameCreated) && apiReady == old(apiReady)
      ensures requestId == old(requestId) && outbox == old(outbox)
      ensures if id in old(pending)
              then pending == old(pending) - {id}
                && settled == old(settled) + [Settlement(id, Err(TimeoutMessage))]
              else pending == old(pending) && settled == old(settled)
    {
      if id in pending {
        Settle(id, Err(TimeoutMessage));
      }
    }

    /** `pendingRequests.get(id)` settled with `outcome`, then
        `pendingRequests.delete(id)`: the entry is gone, so it cannot be
        settled again. */
    method Settle(id: int, outcome: Result<string>)
      requires Valid() && id in pending
      modifies this`pending, this`settled
      ensures Valid()
      ensures pending == old(pending) - {id}
      ensures settled == old(settled) + [Settlement(id, outcome)]
    {
      LedgerSettle(requestId, pending, settled, id, outcome);
      settled := settled + [Settlement(id, outcome)];
      pending := pending - {id};
    }

    /** `transcribeAudio(audioUrl)` (lines 43-77) up to the point where it
        returns. Without a frame it creates one and waits 3 s; if the API is
        still not ready it waits 2 s more and then throws. Otherwise it takes
        the next id, registers it and posts the request; the promise it
        returns is settled later by `OnMessage` or `Timeout`. `readyInFirstWait`
        and `readyInSecondWait` say whether `IOE_READY` arrived during each
        wait. The result is the thrown error or the id of the new request. */
    method TranscribeAudio(audioUrl: string, readyInFirstWait: bool, readyInSecondWait: bool)
      returns (r: Result<int>)
      requires Valid()
      modifies this
      ensures Valid() && frameCreated
      ensures apiReady == (old(apiReady) || (!old(frameCreated) && readyInFirstWait) || readyInSecondWait)
      ensures r.Ok? <==> apiReady
      ensures settled == old(settled)
      ensures r.Err? ==>
        && r.error == NotReadyMessage
        && requestId == old(requestId) && outbox == old(outbox) && pending == old(pending)
      ensures r.Ok? ==>
        && r.value == old(requestId) + 1 == requestId
        && r.value !in old(pending) && r.value !in old(SettledIds())
        && pending == old(pending) + {r.value}
        && outbox == old(outbox) + [TranscribeRequest(r.value, audioUrl)]
    {
      if !frameCreated {
        InitWhisperAPI();
        if readyInFirstWait {
          OnMessage(IoeReady);
        }
      }
      if !apiReady {
        if readyInSecondWait {
          OnMessage(IoeReady);
        }
        if !apiReady {
          return Err(NotReadyMessage);
        }
      }
      var id := Register(audioUrl);
      r := Ok(id);
    }

    /** The executor of the promise `transcribeAudio` returns (lines 59-67):
        take `++requestId`, register it and post the request. The new id is
        neither pending nor settled, so no earlier entry is disturbed. */
    method Register(audioUrl: string) returns (id: int)
      requires Valid() && frameCreated
      modifies this`requestId, this`pending, this`outbox
      ensures Valid()
      ensures id == old(requestId) + 1 == requestId
      ensures id !in old(pending) && id !in SettledIds()
      ensures pending == old(pending) + {id}
      ensures outbox == old(outbox) + [TranscribeRequest(id, audioUrl)]
    {
      LedgerRegister(requestId, pending, settled);
      requestId := requestId + 1;
      id := requestId;
      pending := pending + {id};
      outbox := outbox + [TranscribeRequest(id, audioUrl)];
    }
  }
}
