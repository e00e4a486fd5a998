/** What the browser's audio and network APIs, and the `useTranscriber` hook,
    hand back to the code of this model. `fetch`, `blob()`, `arrayBuffer()`,
    `decodeAudioData` and the hook's speech recognition are not modelled;
    their outcomes are inputs. */
module Media {

  /** A decoded Web Audio `AudioBuffer`: one sample sequence per channel.
      Samples are `real`; the 32-bit float storage is not modelled. */
  datatype AudioData = AudioData(channels: seq<seq<real>>)

  /** What the Web Audio API guarantees of every `AudioBuffer`: at least one
      channel, and every channel as long as `buffer.length`. */
  ghost predicate WellFormed(d: AudioData) {
    |d.channels| >= 1 && forall c :: 0 <= c < |d.channels| ==> |d.channels[c]| == |d.channels[0]|
  }

  type AudioBuffer = d: AudioData | WellFormed(d) witness AudioData([[]])

  /** `buffer.length`: the number of sample frames per channel. */
  function FrameCount(b: AudioBuffer): nat {
    |b.channels[0]|
  }

  /** The outcome of `await fetch(url)`: the promise rejected (a network
      failure, with its message) or a response arrived with an HTTP status. */
  datatype FetchResult = FetchFailed(error: string) | Response(status: nat)

  /** `response.ok`: the status lies in 200..299, the 2xx class. */
  predicate IsOk(status: nat)
    ensures IsOk(status) <==> status / 100 == 2
  {
    200 <= status <= 299
  }

  /** The outcome of reading the body and `decodeAudioData`: a decoded
      buffer, or the message of the error that was thrown. */
  datatype DecodeResult = Decoded(buffer: AudioBuffer) | DecodeFailed(error: string)

  /** What a poll reads from the `useTranscriber` hook: `error` ("" when
      unset), `output.text` ("" when there is no output yet) and `isBusy`. */
  datatype TranscriberState = TranscriberState(error: string, text: string, isBusy: bool)
}
