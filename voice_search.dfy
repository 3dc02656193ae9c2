/** The voice search hook (`useVoiceSearch`): the recognition callbacks fold results
    into a transcript and map error codes to messages; start, stop and toggle drive the
    recogniser. The browser's speech recogniser is left out: its events are the
    methods' inputs, and the calls made on it are returned. */
module VoiceSearch {
  import opened Wrappers
  import opened Strings

  /** One entry of `event.results`: its best alternative and whether it is final. */
  datatype SpeechResult = SpeechResult(isFinal: bool, transcript: string)

  /** A result's transcript if its finality is `wantFinal`, else nothing. */
  function Part(r: SpeechResult, wantFinal: bool): string {
    if r.isFinal == wantFinal then r.transcript else ""
  }

  /** The transcripts of the results in `[lo, hi)` whose finality is `wantFinal`, in
      order. */
  function Collected(results: seq<SpeechResult>, lo: nat, hi: nat, wantFinal: bool): string
    requires hi <= |results|
    decreases hi
  {
    if hi <= lo then ""
    else Collected(results, lo, hi - 1, wantFinal) + Part(results[hi - 1], wantFinal)
  }

  /** When every result from `lo` on is final, nothing is interim. */
  lemma {:induction false} AllFinalNoInterim(results: seq<SpeechResult>, lo: nat, hi: nat)
    requires hi <= |results|
    requires forall k :: lo <= k < hi ==> results[k].isFinal
    ensures Collected(results, lo, hi, false) == ""
  {
    if hi > lo {
      AllFinalNoInterim(results, lo, hi - 1);
    }
  }

  /** Final and interim text together hold every result's transcript exactly once:
      their lengths add up to the total. */
  lemma {:induction false} CollectedLengths(results: seq<SpeechResult>, lo: nat, hi: nat)
    requires hi <= |results|
    ensures |Collected(results, lo, hi, true)| + |Collected(results, lo, hi, false)| == TotalLength(results, lo, hi)
  {
    if hi > lo {
      CollectedLengths(results, lo, hi - 1);
    }
  }

  function TotalLength(results: seq<SpeechResult>, lo: nat, hi: nat): nat
    requires hi <= |results|
    decreases hi
  {
    if hi <= lo then 0 else TotalLength(results, lo, hi - 1) + |results[hi - 1].transcript|
  }

  const NotSupported := "Voice search is not supported in this browser"

  /** The `onerror` message of an error code; `None` for "aborted", which is not an
      error. */
  function ErrorMessage(code: string): (m: Option<string>)
    ensures m.None? <==> code == "aborted"
    ensures code !in {"no-speech", "audio-capture", "not-allowed", "network", "aborted"} ==> m == Some("Voice recognition error: " + code)
  {
    if code == "no-speech" then Some("No speech detected. Please try again.")
    else if code == "audio-capture" then Some("No microphone found. Please check your device.")
    else if code == "not-allowed" then Some("Microphone access denied. Please enable it in your browser settings.")
    else if code == "network" then Some("Network error. Please check your connection.")
    else if code == "aborted" then None
    else Some("Voice recognition error: " + code)
  }

  /** The four known error codes each have their own message, distinct from the generic
      one. */
  lemma KnownErrorMessages()
    ensures ErrorMessage("no-speech") == Some("No speech detected. Please try again.")
    ensures ErrorMessage("audio-capture") == Some("No microphone found. Please check your device.")
    ensures ErrorMessage("not-allowed") == Some("Microphone access denied. Please enable it in your browser settings.")
    ensures ErrorMessage("network") == Some("Network error. Please check your connection.")
  {
  }

  /** What a call asks of the recogniser. */
  datatype RecogniserCall = NoCall | Start | Stop

  class VoiceSearchState {
    var isListening: bool
    var transcript: string
    var error: Option<string>
    /** `recognitionRef.current` is set: the browser supports recognition. */
    const hasRecognition: bool

    constructor (isSupported: bool)
      ensures !isListening && transcript == "" && error.None? && hasRecognition == isSupported
    {
      isListening, transcript, error := false, "", None;
      hasRecognition := isSupported;
    }

    method OnStart()
      modifies this`isListening, this`error
      ensures isListening && error.None?
    {
      isListening, error := true, None;
    }

    method OnEnd()
      modifies this`isListening
      ensures !isListening
    {
      isListening := false;
    }

    /** `onresult`: the final transcript is shown when non-empty, else the interim one;
        `onResult` (when given) receives the trimmed final transcript, and only a
        non-empty one. */
    method OnResult(results: seq<SpeechResult>, resultIndex: nat, hasOnResult: bool) returns (resultCallback: Option<string>)
      modifies this`transcript
      ensures var start := if resultIndex <= |results| then resultIndex else |results|;
        var final, interim := Collected(results, start, |results|, true), Collected(results, start, |results|, false);
        && transcript == (if final != "" then final else interim)
        && (resultCallback.Some? <==> final != "" && hasOnResult)
        && (resultCallback.Some? ==> resultCallback.value == Trim(final))
    {
      var finalText, interimText := "", "";
      var start := if resultIndex <= |results| then resultIndex else |results|;
      var i := start;
      while i < |results|
        invariant start <= i <= |results|
        invariant finalText == Collected(results, start, i, true)
        invariant interimText == Collected(results, start, i, false)
      {
        assert Collected(results, start, i + 1, true) == finalText + Part(results[i], true);
        assert Collected(results, start, i + 1, false) == interimText + Part(results[i], false);
        if results[i].isFinal {
          finalText := finalText + results[i].transcript;
        } else {
          interimText := interimText + results[i].transcript;
        }
        i := i + 1;
      }
      transcript := if finalText != "" then finalText else interimText;
      resultCallback := if finalText != "" && hasOnResult then Some(Trim(finalText)) else None;
    }

    /** `onerror`: "aborted" only stops listening; any other code sets the error, stops
        listening and reports the same message to `onError`. */
    method OnError(code: string) returns (errorCallback: Option<string>)
      modifies this`isListening, this`error
      ensures !isListening
      ensures code == "aborted" ==> errorCallback.None? && error == old(error)
      ensures code != "aborted" ==> error == ErrorMessage(code) && errorCallback == error && error.Some?
    {
      var m := ErrorMessage(code);
      if m.None? {
        isListening := false;
        return None;
      }
      error := m;
      isListening := false;
      errorCallback := m;
    }

    /** `startListening`: without a recogniser the "not supported" error is set and
        reported; otherwise the transcript and error are cleared and the recogniser is
        started. */
    method StartListening() returns (call: RecogniserCall, errorCallback: Option<string>)
      modifies this`transcript, this`error
      ensures !hasRecognition ==> call == NoCall && error == Some(NotSupported) && errorCallback == error && transcript == old(transcript)
      ensures hasRecognition ==> call == Start && transcript == "" && error.None? && errorCallback.None?
    {
      if !hasRecognition {
        error := Some(NotSupported);
        return NoCall, Some(NotSupported);
      }
      transcript, error := "", None;
      call, errorCallback := Start, None;
    }

    method StopListening() returns (call: RecogniserCall)
      ensures call == (if hasRecognition then Stop else NoCall)
    {
      call := if hasRecognition then Stop else NoCall;
    }

    /** `toggleListening`: stops when listening, starts otherwise. */
    method ToggleListening() returns (call: RecogniserCall, errorCallback: Option<string>)
      modifies this`transcript, this`error
      ensures old(isListening) ==> call == (if hasRecognition then Stop else NoCall) && errorCallback.None?
      ensures old(isListening) ==> transcript == old(transcript) && error == old(error)
      ensures !old(isListening) && hasRecognition ==> call == Start && transcript == "" && error.None?
      ensures !old(isListening) && !hasRecognition ==> call == NoCall && error == Some(NotSupported) && errorCallback == error
    {
      if isListening {
        call := StopListening();
        errorCallback := None;
      } else {
        call, errorCallback := StartListening();
      }
    }
  }
}
