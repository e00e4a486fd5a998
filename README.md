# ioehelper transcription dispatch, modelled in Dafny

This project models the core of ioehelper. ioehelper is a browser helper that reads a quiz page's `getinfo` response, prints the answers, and transcribes listening questions with a Whisper model hosted in a hidden frame. The model has four parts:

- **The page script's request correlator** (`ioe.js`), class `IoeClient.Correlator`.
  - It holds the `requestId` counter, the keys of `pendingRequests`, `apiReady` and the frame flag.
  - `transcribeAudio` hands out `++requestId`, registers the id and posts a `TRANSCRIBE_REQUEST`.
  - The `message` listener and the 300 s timer each settle a pending id once and delete it.
  - The same file's answer derivation is modelled as pure functions in module `Answers`:
    - the sort by `orderTrue ?? 999`;
    - the `' / '` join;
    - the fallback chain;
    - the type names;
    - the list of listening questions that `transcribe(n)` searches;
    - `showAll`, which sorts each question's own list in place.
- **The transcription page** (`src/App.tsx`), class `WhisperApp.Responder`.
  - `IOETranscribe` is guarded by the `processingRef` busy flag.
  - It waits for the transcriber by a 100 ms poll with a 300 s timeout.
  - `handleMessage` answers every `TRANSCRIBE_REQUEST` with one `TRANSCRIBE_RESPONSE`.
- **The queued variant** (`src/api-endpoint.tsx`), class `ApiEndpoint.TranscribeQueue`.
  - `transcribeQueue` and `isProcessing` serve calls one at a time in arrival order.
  - It waits for text for 60 s, and resolves with `''` when none arrives.
  - It down-mixes stereo by `Math.sqrt(2) * (l + r) / 2`.
- **The WAV encoder** (`src/utils/audio.ts`), module `Wav`.
  - `audioBufferToWav` writes a 44-byte RIFF/WAVE header through `setUint16`/`setUint32`. The header follows the WAVE form of the Microsoft/IBM Multimedia Programming Interface and Data Specifications 1.0: a `fmt ` chunk with WAVE_FORMAT_PCM = 1.
  - It then writes clamped, asymmetrically scaled, truncated 16-bit samples.

Asynchronous code is split at its `await` points. A delivered message, a timer firing or a call is an explicit method call on the object that owns the state. The outcomes of browser calls (`fetch`, decoding) and the transcriber states read by the polls are inputs, gathered in `CallRun` and `QueueRun`. A promise's `resolve`/`reject` is recorded in a `settled` log, and `postMessage` in an `outbox`. Module `Protocol` holds the messages both sides exchange. Module `Scenarios` runs whole exchanges on fresh objects.

Three behaviours of the code worth noting, each modelled as the code has it:

- Samples are quantised by truncation (`| 0`), not by rounding.
- The sample loop of `audioBufferToWav` starts at sample 44 (see Findings).
- The queued variant's 60 s wait resolves with `''` instead of rejecting.

## Model

| member | source | states |
|---|---|---|
| Common.NatToString | src/App.tsx:34 | The decimal text of a status or question number is non-empty, all digits, and one character exactly for numbers below 10 |
| Common.ParseNatToString | ioe.js:167 | Reading the decimal text back gives the number: the rendering loses nothing |
| Common.NatToStringInjective | src/App.tsx:34 | Different numbers render differently |
| Protocol.ResponseFor | src/App.tsx:100-112 | The response to request `id` echoes `id`, and has `success` exactly when the call resolved |
| Protocol.OutcomeOf | ioe.js:30-34 | The listener resolves exactly when the response has `success` |
| Protocol.ResponseRoundTrip | ioe.js:27-36 | The caller's promise settles with exactly what the page's call produced: text for text, error message for error message |
| IoeClient.LedgerSettle | ioe.js:28-35 | Settling a pending id and deleting it keeps every id handed out either pending or settled once |
| IoeClient.LedgerRegister | ioe.js:60-61 | The next id is neither pending nor settled, and registering it keeps the bookkeeping |
| IoeClient.Correlator.constructor | ioe.js:9-12 | No frame, not ready, counter 0, nothing pending, nothing posted |
| IoeClient.Correlator.InitWhisperAPI | ioe.js:14-22 | Creates the frame once; a second call changes nothing |
| IoeClient.Correlator.OnMessage | ioe.js:23-38 | `IOE_READY` sets `apiReady` and nothing clears it; a response for a pending id settles it as `success` says and deletes that id alone; an unknown id or another type changes nothing |
| IoeClient.Correlator.Timeout | ioe.js:69-75 | Rejects with the timeout message and deletes the id only while it is pending; afterwards it does nothing, so an id is settled at most once |
| IoeClient.Correlator.Settle | ioe.js:28-35 | The entry is deleted as it is settled, and every other entry stays |
| IoeClient.Correlator.TranscribeAudio | ioe.js:43-77 | Throws the not-ready error without taking an id when `apiReady` is still false after the waits; otherwise takes `requestId + 1`, which was neither pending nor settled, registers it and posts the request with that id |
| IoeClient.Correlator.Register | ioe.js:59-68 | `++requestId` gives a fresh id, added to the pending ids alongside the earlier ones, with one request posted |
| WhisperApp.Poll | src/App.tsx:54-69 | A set error rejects with that error; otherwise the poll resolves exactly when the text is non-empty and the transcriber is not busy; every other state keeps waiting |
| WhisperApp.FirstDecision | src/App.tsx:54-69 | No decision is reached exactly when every poll keeps waiting |
| WhisperApp.Await | src/App.tsx:49-70 | The awaited value is the first poll's decision, or the timeout rejection when no poll before the timer decides |
| WhisperApp.DecisionFinal | src/App.tsx:58-66 | Once a poll has decided, later polls change neither the decision nor the awaited value |
| WhisperApp.DecidedAt | src/App.tsx:54-69 | The decision is taken by the first poll that does not keep waiting, and it is that poll's error or text |
| WhisperApp.AllWaitingTimesOut | src/App.tsx:50-52 | When every poll keeps waiting, the call rejects with 'Transcription timeout (300s)' |
| WhisperApp.WaitForTranscript | src/App.tsx:54-69 | The interval loop returns the awaited value |
| WhisperApp.CallOutcome | src/App.tsx:30-80 | A failed fetch rejects with its error; a non-ok status rejects with "HTTP <status>" before decoding; after an ok fetch a failed decoding rejects with the decoder's error, and otherwise the outcome is the awaited value (the first decision, or the 300 s timeout); the call resolves only after an ok fetch, a successful decoding and a resolving poll |
| WhisperApp.HttpStatusRecoverable | src/App.tsx:34 | Two non-ok calls that fail with the same message got the same status |
| Media.IsOk | src/App.tsx:34 | `response.ok` holds exactly for a 2xx status |
| WhisperApp.ResponseIdsAppend | src/App.tsx:100-112 | Posting a response adds its id to the ids answered |
| WhisperApp.AccountAccept | src/App.tsx:27 | A request taken up by a free page becomes the awaited one, so every received request stays answered or awaited |
| WhisperApp.AccountRefuse | src/App.tsx:23-25 | A request refused as busy is answered at once, so every received request stays answered or awaited |
| WhisperApp.AccountAnswer | src/App.tsx:99-113 | Answering the awaited request leaves every received request answered exactly once |
| WhisperApp.Responder.constructor | src/App.tsx:12 | The busy flag starts cleared; nothing received or posted |
| WhisperApp.Responder.BeginCall | src/App.tsx:23-27 | A call starts exactly when the flag was clear; the flag is set either way, and a refused call leaves it set |
| WhisperApp.Responder.EndCall | src/App.tsx:30-80 | The flag is cleared on the success path and on every error path inside the `try`, and the result is the call's outcome |
| WhisperApp.Responder.DirectCall | src/App.tsx:22-80 | A call made directly through `window` is refused with the busy error while the flag is set, leaving it set; otherwise it runs, clears the flag and returns the call's outcome; the bookkeeping of the requests that came by message holds before and after |
| WhisperApp.Responder.Receive | src/App.tsx:96-99 | A request is recorded as received; when the flag was set it is answered at once with the busy error, otherwise it becomes the awaited call; any other message changes nothing |
| WhisperApp.Responder.Request | src/App.tsx:97-99 | The request branch of the handler, up to its `await`, with every received id answered or awaited |
| WhisperApp.Responder.Finish | src/App.tsx:99-113 | Exactly one response is posted, echoing the awaited id and carrying the call's text or error; afterwards every received id has been answered |
| WhisperApp.Responder.Post | src/App.tsx:100-112 | The response is appended to what was posted, after the earlier ones |
| ApiEndpoint.MixForModel | src/api-endpoint.tsx:57-68 | One sample per frame; any channel count other than two passes channel 0 through unchanged |
| ApiEndpoint.DownMix | src/api-endpoint.tsx:58-65 | The loop fills the new array with the mix |
| ApiEndpoint.MixIsScaledMono | src/api-endpoint.tsx:57-68 | For two channels sample i is `Math.sqrt(2)` times the WAV encoder's average; for one channel both mixes are channel 0 |
| ApiEndpoint.FirstText | src/api-endpoint.tsx:74-87 | The awaited text is "" or the text some poll saw; which one is stated by FirstTextIsFirst and NoTextGivesEmpty |
| ApiEndpoint.FirstTextIsFirst | src/api-endpoint.tsx:75-80 | When poll i is the first to see a text, the wait resolves with exactly that text |
| ApiEndpoint.NoTextGivesEmpty | src/api-endpoint.tsx:82-86 | When no poll sees a text, the wait resolves with "" and does not reject |
| ApiEndpoint.FirstTextFinal | src/api-endpoint.tsx:75-80 | The first text seen settles the wait; later polls change nothing |
| ApiEndpoint.AwaitText | src/api-endpoint.tsx:74-87 | The interval loop returns the first text seen, or "" |
| ApiEndpoint.QueueOutcome | src/api-endpoint.tsx:38-96 | A failed fetch rejects with its error; a non-ok status rejects with "Failed to fetch audio: <status>"; after an ok fetch a failed decoding rejects with the decoder's error; the request resolves exactly after an ok fetch and a successful decoding, with the first text seen or "" |
| ApiEndpoint.TranscribeQueue.constructor | src/api-endpoint.tsx:16-17 | The queue is empty and the flag clear |
| ApiEndpoint.TranscribeQueue.ProcessQueue | src/api-endpoint.tsx:32-36 | Nothing changes when busy or empty; otherwise the flag is set and exactly the head is taken, so requests start in arrival order with at most one in progress |
| ApiEndpoint.TranscribeQueue.Transcribe | src/api-endpoint.tsx:24-29 | The request is pushed at the tail with the earlier entries left in place and gets the next ticket; when nothing was in progress the head of the queue is taken at once, which is the new request only if the queue was empty |
| ApiEndpoint.TranscribeQueue.Complete | src/api-endpoint.tsx:38-103 | The request taken is settled exactly once with its outcome; the transcriber gets the down-mix only after an ok fetch and a successful decoding; `finally` clears the flag; another turn is scheduled exactly when the queue is not empty |
| Answers.TypeName | ioe.js:109-114 | Type 1 is "TRUE/FALSE", 2 "FILL IN BLANK", 3 "SENTENCE REWRITE" and 4 "LISTENING"; the name is "Unknown" exactly for every other type |
| Answers.GameType | ioe.js:109 | The type of the first question; an empty list shows "Unknown" |
| Answers.Key | ioe.js:125 | The sort key is `orderTrue` when present, and 999 when it is missing |
| Answers.AnswerList | ioe.js:123 | The first of `ans`, `tans`, `tansDB` that is present (an empty list counts), else the empty list |
| Answers.Insert | ioe.js:123-125 | Inserting into the sorted list adds one element |
| Answers.SortByOrder | ioe.js:123-125 | The sort keeps the number of answers |
| Answers.InsertPermutes | ioe.js:123-125 | Inserting keeps every element and adds the new one |
| Answers.InsertSorted | ioe.js:123-125 | Inserting into a sorted list gives a sorted list |
| Answers.SortByOrderCorrect | ioe.js:123-125 | The result is ascending in `orderTrue ?? 999` and a permutation of the answers |
| Answers.WithKeyInsert | ioe.js:125 | Inserting puts the new answer ahead of the answers with its own key |
| Answers.SortStable | ioe.js:123-125 | Answers with equal keys keep their relative order |
| Answers.SortedFixed | ioe.js:211 | Sorting an already sorted list changes nothing |
| Answers.SortIdempotent | ioe.js:211 | Sorting twice is sorting once |
| Answers.Join | ioe.js:135 | The join of no part is "", and of one part is that part |
| Answers.JoinLength | ioe.js:135 | The join holds every part and one separator between each two |
| Answers.JoinAppend | ioe.js:135 | Joining one more part adds the separator and the part at the end |
| Answers.JoinFirst | ioe.js:134-135 | A join starts with its first part |
| Answers.Contents | ioe.js:135 | The contents of the answers, one per answer, in order |
| Answers.GameAnsAt | ioe.js:136-137 | A non-empty fallback is the entry of `gameAns` at that index |
| Answers.ListedAnswer | ioe.js:134-137 | The answer the chain lists is "" only when `gameAns` has no entry for the question and the first sorted answer has no content |
| Answers.ListedAnswerCases | ioe.js:134-137 | The joined list wins whenever the first sorted answer has content; `gameAns` is consulted only otherwise; the result is "" only when both are missing |
| Answers.TranscribeHint | ioe.js:167 | The prompt is `transcribe(` and `)` around the decimal question number, and reading that number back gives `idx + 1` |
| Answers.Derive | ioe.js:121-169 | Types 1-4 take the passage from the description; any other type shows an empty entry, not even its answers |
| Answers.DeriveCases | ioe.js:121-169 | A listed answer is shown as it is for types 1-4; without one, type 1 shows 'TRUE hoặc FALSE', types 2-3 show "" and type 4 shows 'Gõ: transcribe(n)', so types 1 and 4 always show an answer; types 1-3 always show a question |
| Answers.DeriveAll | ioe.js:121 | One entry per question |
| Answers.HasAudio | ioe.js:149-155 | A question listed in `audioFiles` is one whose type is shown as "LISTENING" |
| Answers.AudioFilesFrom | ioe.js:149-161 | Listed question numbers are in range and strictly increasing |
| Answers.AudioFiles | ioe.js:152-161 | `audioFiles` holds each question at most once, in question order |
| Answers.FindAudio | ioe.js:232 | A file found has the number asked for; when none is found, no file has that number |
| Answers.FindAudioFrom | ioe.js:149-161 | Searching the files of questions `from` onwards finds exactly the listed question asked for |
| Answers.FindAudioCons | ioe.js:232 | `find` returns the first file when it has the number asked for, and otherwise searches the rest |
| Answers.FindAudioCorrect | ioe.js:231-233 | `transcribe(n)` finds audio exactly for a listening question with a non-empty passage and a link, and then the file of that very question |
| Answers.ProcessQuestions | ioe.js:121-186 | The question loop prints the derived entry of each question and pushes exactly the listening questions with a link, in order |
| Answers.SortedInPlace | ioe.js:211 | The list `showAll` reads becomes sorted; the lists it does not read stay as they were, and a question with no list is kept whole |
| Answers.ShowAllLine | ioe.js:218-220 | The line starts with "Câu <n>: ", has the headphone mark exactly for type 4, and ends with the listed answer, or with `transcribe(n)` when there is none |
| Answers.ShowAllAgreesWithDerive | ioe.js:213-220 | `showAll` ends with the answer the question loop shows whenever a question of types 1-4 has one; for a listening question without one the loop shows "Gõ: " before the prompt `showAll` shows |
| Answers.SortedInPlaceInvisible | ioe.js:211 | The in-place sort changes no derived text: neither the question loop's entry nor the `showAll` line |
| Answers.ShowAll | ioe.js:208-222 | One line per question, with each question's own list sorted in place |
| Answers.ShowOne | ioe.js:210-220 | One turn sorts question `idx` alone and gives its line |
| Answers.ShowAllRepeatable | ioe.js:208-222 | Calling `showAll` twice prints the same lines |
| Wav.Le16 | src/utils/audio.ts:62-65 | A 16-bit field is two bytes |
| Wav.Le32 | src/utils/audio.ts:67-70 | A 32-bit field is four bytes |
| Wav.Le16Unsigned | src/utils/audio.ts:62-65 | A 16-bit header value is read back from its two little-endian bytes |
| Wav.Le16RoundTrip | src/utils/audio.ts:55 | A 16-bit sample is read back from its two little-endian bytes |
| Wav.Le32RoundTrip | src/utils/audio.ts:67-70 | A 32-bit field is read back modulo 2^32 |
| Wav.TruncToInt | src/utils/audio.ts:54 | A bitwise OR with 0 truncates toward zero: the result is at most the sample's distance from zero and less than one away from it |
| Wav.Clamp | src/utils/audio.ts:53 | The clamped sample lies in [-1, 1], and a sample already there is kept |
| Wav.Quantise | src/utils/audio.ts:53-54 | The quantised sample lies in [-32768, 32767] |
| Wav.QuantiseExtremes | src/utils/audio.ts:53-54 | 1.0 gives 32767, -1.0 gives -32768 and 0 gives 0; samples beyond the range saturate |
| Wav.QuantiseTruncates | src/utils/audio.ts:54 | The scaled sample is truncated toward zero, not rounded, so 0.5 gives 16383 |
| Wav.MonoShape | src/utils/audio.ts:23-32 | One mono sample per frame; channels beyond the second are ignored |
| Wav.Mono | src/utils/audio.ts:23-32 | One sample per frame; channel 0 for one channel; otherwise each sample lies between the two channels' samples |
| Wav.MixDownToMono | src/utils/audio.ts:23-32 | `monoData` is channel 0 for one channel, and otherwise the mean of channels 0 and 1 |
| Wav.Encode | src/utils/audio.ts:35-49 | The header writes leave as many bytes as their sizes add up to |
| Wav.EncodeAt | src/utils/audio.ts:35-49 | Each header field's bytes lie at its offset |
| Wav.HeaderOffsets | src/utils/audio.ts:35-49 | The fields start at 0, 4, 8, ..., 40, and `pos` is 44 after the header |
| Wav.HeaderFields | src/utils/audio.ts:35-49 | Thirteen fields; the data size is two bytes per sample and the RIFF size 36 more; the byte rate is the sample rate times the block align, and the block align the channels times the bits over 8 |
| Wav.Header | src/utils/audio.ts:35-49 | The header is 44 bytes |
| Wav.DataAsWritten | src/utils/audio.ts:52-58 | The data is two bytes per sample |
| Wav.DataIntended | src/utils/audio.ts:52-58 | The data is two bytes per sample |
| Wav.ReadField32 | src/utils/audio.ts:67-70 | A 32-bit header field reads back modulo 2^32 at its offset |
| Wav.ReadField16 | src/utils/audio.ts:62-65 | A 16-bit header field reads back at its offset |
| Wav.TagField | src/utils/audio.ts:35-48 | A tag field's four bytes lie at its offset |
| Wav.TagBytes | src/utils/audio.ts:35-48 | The four tag constants are the ASCII of "RIFF", "WAVE", "fmt " and "data" |
| Wav.TagNames | src/utils/audio.ts:35-48 | The bytes of the four tags spell "RIFF", "WAVE", "fmt " and "data" in ASCII |
| Wav.HeaderTags | src/utils/audio.ts:35-48 | Bytes 0-3, 8-11, 12-15 and 36-39 spell "RIFF", "WAVE", "fmt " and "data" |
| Wav.HeaderFormat | src/utils/audio.ts:39-46 | fmt size 16, format 1, channels 1, rate 16000, byte rate 32000, block align 2, bits 16 |
| Wav.HeaderSizes | src/utils/audio.ts:36-49 | The RIFF size is 2n + 36 and the data size 2n, modulo 2^32, because `pos` is 40 when the data size is written |
| Wav.SizeFields | src/utils/audio.ts:11-49 | The file is 2n + 44 bytes; the RIFF size is the length less 8 and the data size the length less 44 |
| Wav.AsWrittenSampleAt | src/utils/audio.ts:52-57 | As written, sample i (44 <= i < n) is read back at byte 44 + 2(i - 44) |
| Wav.AsWrittenTailZero | src/utils/audio.ts:52-57 | As written, the last 88 data bytes stay zero, and all of them when n <= 44 |
| Wav.IntendedSampleAt | src/utils/audio.ts:52-57 | As intended, sample i is read back at byte 44 + 2i |
| Wav.SilenceRoundTrip | src/utils/audio.ts:52-57 | Silence encodes to all-zero data of the same length, both as written and as intended |
| Wav.FirstSampleLost | src/utils/audio.ts:52-57 | The one-sample buffer [1.0] is written as silence, where 32767 was intended |
| Wav.SetUint16 | src/utils/audio.ts:62-65 | Stores the field's two bytes right after the earlier fields and advances `pos` by 2; the rest stays zero |
| Wav.SetUint32 | src/utils/audio.ts:67-70 | Stores the field's four bytes right after the earlier fields and advances `pos` by 4; the rest stays zero |
| Wav.Store2 | src/utils/audio.ts:63 | Exactly the two bytes at `pos` change |
| Wav.Store4 | src/utils/audio.ts:68 | Exactly the four bytes at `pos` change |
| Wav.SetInt16 | src/utils/audio.ts:55 | Exactly the two bytes at the write position change, to the little-endian sample |
| Wav.WriteRiffDescriptor | src/utils/audio.ts:35-37 | The RIFF descriptor's three fields, leaving `pos` at 12 |
| Wav.WriteFmtHead | src/utils/audio.ts:39-42 | The `fmt ` tag, size, format and channel count, advancing `pos` by 12 |
| Wav.WriteFmtRates | src/utils/audio.ts:43-46 | Rate, byte rate, block align and bits, advancing `pos` by 12 |
| Wav.WriteHeader | src/utils/audio.ts:35-49 | The thirteen writes leave the header in place, `pos` at 44 and the data still zero |
| Wav.WriteSample | src/utils/audio.ts:53-56 | One turn of the loop writes the quantised sample's two bytes at the next data position |
| Wav.AudioBufferToWav | src/utils/audio.ts:9-60 | The output is the header followed by the data as written; every write lies inside the buffer |
| Wav.AudioBufferToWavFixed | src/utils/audio.ts:9-60 | The output is the header followed by every sample in order |
| Scenarios.RequestAnswered | ioe.js:59-75 | A request the page answers is settled exactly once with the page call's outcome, and the later timeout does nothing |
| Scenarios.PageAnswers | src/App.tsx:96-115 | A free page answers a request with one response that echoes its id and carries the call's outcome |
| Scenarios.SecondRequestRefused | src/App.tsx:23-25 | A second request while the first is awaited is answered at once with the busy error, and the first with its outcome |
| Scenarios.QueueServesInOrder | src/api-endpoint.tsx:24-103 | Two calls are settled one after the other, in arrival order, each with its own turn's outcome |

## Left out

- DOM and transport are not modelled:
  - iframe creation and styling (ioe.js:17-21);
  - `postMessage` delivery and `addEventListener` wiring;
  - the `IOE_READY` announcement (src/App.tsx:84-86).

  Delivered messages and timer firings are method calls instead.
- These are I/O and UI, and are not modelled: XHR interception and `JSON.parse` (ioe.js:80-100), all console output, `playAudio` (ioe.js:224-229), the status text (`setStatus`) and the JSX (src/App.tsx:121-196).
- The URL regular expression (ioe.js:153) is not modelled. Its first match for each question is an input.
- The foreign browser calls are not modelled; their outcomes are inputs (`FetchResult`, `DecodeResult`):
  - `fetch`, `blob`, `arrayBuffer`, `AudioContext.decodeAudioData`;
  - `decodeAudio` (src/utils/audio.ts:1-7).
- The `useTranscriber` hook is not part of this model. It is an abstract state (error, `output.text`, `isBusy`) read by each poll. Which render's `transcriber` a poll sees is part of that input.
- A `transcriber.start` call that throws (src/App.tsx:46, src/api-endpoint.tsx:71) is not modelled: `CallRun` and `QueueRun` have no input for it. Inside the `try`, such a throw would reject with its error and still clear the flag, like a failed decoding.
- WhisperApp.Responder.EndCall: one error path of the source falls outside its contract. The model's `audioUrl` is always a string. In the source, a `TRANSCRIBE_REQUEST` whose `audioUrl` is missing or not a string throws at `audioUrl.substring` (src/App.tsx:28). That line runs after the flag is set (line 27) and before the `try` (line 30), so nothing clears the flag, and every later call is refused as busy. "Cleared on every error path" covers the paths inside the `try` only.
- Wall-clock time and `setTimeout`/`setInterval` scheduling are not modelled. A wait is the sequence of states its polls read before the timer fires. The 100 ms delay before the queue's next turn is a returned flag.
- IoeClient.Correlator.TranscribeAudio: two booleans summarise the two waits, so the only message modelled as arriving during them is `IOE_READY`. Responses for earlier ids that arrive during a wait are delivered by `OnMessage` before or after the call instead. They touch other ids than the one the call takes.
- Floating point is not modelled:
  - Samples are `real`, so `Float32Array` rounding and the double arithmetic of the mixes are left out.
  - `Math.sqrt(2)` is the exact value of the double nearest to the square root of 2.
  - NaN samples are left out.
- The `getChannelData` arrays are values, so the aliasing of `monoData` with channel 0 is not modelled. The encoder only reads them.
- The 32-bit `| 0` wrap is not modelled, because the scaled sample always lies within [-32768, 32767].
- The scenario in which several `IOETranscribe` definitions (App.tsx and api-endpoint.tsx) are mounted together is not modelled.
- Answers.Insert and Answers.SortByOrder: their ensures give only the length. Sortedness, the permutation and stability are stated by `SortByOrderCorrect` and `SortStable`.
- Answers.DeriveAll: its ensures gives only the length. The content of each entry is stated by `DeriveCases` and by `ProcessQuestions`.
- Batch URL extraction, a worker pool, a result cache, cancellation and a remote inference client are not modelled. None of them appear in these source files.

## Findings

| source | as written | input that shows it | evidently intended | confidence | as-written member | corrected member |
|---|---|---|---|---|---|---|
| src/utils/audio.ts:52-57 | The data loop reuses `pos`, which is 44 after the header, as the sample index. Sample i (44 <= i < n) is written at byte 44 + 2(i - 44), samples 0-43 are never written, and the last 88 data bytes stay zero. | The one-sample buffer [1.0]: its data bytes read back as 0 where 32767 is expected; every buffer of at most 44 samples is written as silence | Sample i written at byte 44 + 2i for every i < n | not executed | Wav.AudioBufferToWav, Wav.FirstSampleLost | Wav.AudioBufferToWavFixed, Wav.IntendedSampleAt |
