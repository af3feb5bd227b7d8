/**
 * The speech-to-text hook of hooks/useVoiceRecording.ts: how recognition
 * results accumulate into the transcript, what each recognition error
 * shows, and the flag and text state the handlers keep. The browser's
 * recognition object is outside the model; its events are the methods.
 */
module VoiceRecording {
  import opened Wrappers
  import opened Text

  /** One entry of `event.results`: its first alternative's text and whether it is final. */
  datatype SpeechResult = SpeechResult(transcript: string, isFinal: bool)

  /** What one result adds to the accumulated final transcript: its text and a space when final. */
  function FinalPiece(r: SpeechResult): string
  {
    if r.isFinal then r.transcript + " " else ""
  }

  function InterimPiece(r: SpeechResult): string
  {
    if r.isFinal then "" else r.transcript
  }

  /** The final pieces of `rs`, in order, each followed by one space. */
  function FinalText(rs: seq<SpeechResult>): string
  {
    if rs == [] then "" else FinalText(rs[..|rs| - 1]) + FinalPiece(rs[|rs| - 1])
  }

  /** The non-final pieces of `rs`, in order. */
  function InterimText(rs: seq<SpeechResult>): string
  {
    if rs == [] then "" else InterimText(rs[..|rs| - 1]) + InterimPiece(rs[|rs| - 1])
  }

  /** `event.results` from `resultIndex` on: empty when the index is past the end. */
  function FromIndex(results: seq<SpeechResult>, resultIndex: nat): seq<SpeechResult>
  {
    if resultIndex <= |results| then results[resultIndex..] else []
  }

  /** Two batches of results contribute their final text one after the other. */
  lemma {:induction false} FinalTextConcat(a: seq<SpeechResult>, b: seq<SpeechResult>)
    ensures FinalText(a + b) == FinalText(a) + FinalText(b)
    decreases |b|
  {
    if b == [] {
      assert a + b == a;
    } else {
      var b', last := b[..|b| - 1], b[|b| - 1];
      assert (a + b)[..|a + b| - 1] == a + b';
      assert (a + b)[|a + b| - 1] == last;
      FinalTextConcat(a, b');
      calc {
        FinalText(a + b);
        FinalText(a + b') + FinalPiece(last);
        (FinalText(a) + FinalText(b')) + FinalPiece(last);
        FinalText(a) + (FinalText(b') + FinalPiece(last));
        FinalText(a) + FinalText(b);
      }
    }
  }

  /** Only final results reach the final text: a batch of interim results adds nothing. */
  lemma {:induction false} InterimOnlyAddsNothing(rs: seq<SpeechResult>)
    requires forall i :: 0 <= i < |rs| ==> !rs[i].isFinal
    ensures FinalText(rs) == ""
  {
    if rs != [] {
      InterimOnlyAddsNothing(rs[..|rs| - 1]);
    }
  }

  /** Every final result adds its text and one space: the final text is exactly that long. */
  lemma {:induction false} FinalTextLength(rs: seq<SpeechResult>)
    requires forall i :: 0 <= i < |rs| ==> rs[i].isFinal
    ensures |FinalText(rs)| == |rs| + SumOfLengths(rs)
  {
    if rs != [] {
      FinalTextLength(rs[..|rs| - 1]);
    }
  }

  function SumOfLengths(rs: seq<SpeechResult>): nat
  {
    if rs == [] then 0 else SumOfLengths(rs[..|rs| - 1]) + |rs[|rs| - 1].transcript|
  }

  /**
   * The `for` loop of `onresult`: starting at `resultIndex`, final pieces
   * are appended to `accumulated` with a trailing space and non-final
   * pieces to a fresh interim string.
   */
  method Accumulate(results: seq<SpeechResult>, resultIndex: nat, accumulated: string)
    returns (final: string, interim: string)
    ensures final == accumulated + FinalText(FromIndex(results, resultIndex))
    ensures interim == InterimText(FromIndex(results, resultIndex))
  {
    final, interim := accumulated, "";
    if resultIndex > |results| {
      return;
    }
    ghost var rs := results[resultIndex..];
    var i := resultIndex;
    while i < |results|
      invariant resultIndex <= i <= |results|
      invariant final == accumulated + FinalText(rs[..i - resultIndex])
      invariant interim == InterimText(rs[..i - resultIndex])
    {
      var r := results[i];
      ghost var k := i - resultIndex;
      assert rs[..k + 1] == rs[..k] + [r];
      AccumulateStep(accumulated, rs[..k], r, final, interim);
      if r.isFinal {
        final := final + (r.transcript + " ");
      } else {
        interim := interim + r.transcript;
      }
      i := i + 1;
    }
    assert rs[..i - resultIndex] == rs;
  }

  /** One more step of the loop keeps the accumulated text equal to the text of the results seen so far. */
  lemma AccumulateStep(accumulated: string, done: seq<SpeechResult>, r: SpeechResult, final: string, interim: string)
    requires final == accumulated + FinalText(done) && interim == InterimText(done)
    ensures final + FinalPiece(r) == accumulated + FinalText(done + [r])
    ensures interim + InterimPiece(r) == InterimText(done + [r])
  {
    TextSnoc(done, r);
    AppendAssociative(accumulated, FinalText(done), FinalPiece(r));
  }

  /** Grouping of concatenations; stated apart because the step above is costly without it. */
  lemma AppendAssociative(a: string, b: string, c: string)
    ensures (a + b) + c == a + (b + c)
  {
  }

  /** One more result adds its final piece to the final text and its interim piece to the interim text. */
  lemma TextSnoc(rs: seq<SpeechResult>, r: SpeechResult)
    ensures FinalText(rs + [r]) == FinalText(rs) + FinalPiece(r)
    ensures InterimText(rs + [r]) == InterimText(rs) + InterimPiece(r)
  {
    assert (rs + [r])[..|rs|] == rs;
  }

  // Longer literals are written as concatenations of short phrases: a proof that
  // unfolds one long literal costs the solver far more than one over its pieces.
  const UnsupportedMessage := "Speech recognition " + "is not supported " + "in this browser"
  const StartFailedMessage := "Failed to start " + "recording. Please " + "try again."
  const DeniedMessage := "Microphone access " + "denied. Please allow " + "microphone access."
  const NoSpeechMessage := "No speech detected. " + "Please try again."
  const NetworkMessage := "Network error. " + "Please check your " + "connection."
  const UnknownErrorPrefix := "Speech recognition " + "error: "

  /** The codes `onerror` has its own message for. */
  predicate KnownCode(code: string)
  {
    code == "not-allowed" || code == "service-not-allowed" || code == "no-speech" || code == "network"
  }

  /** The message `onerror` shows for `event.error`. */
  function SpeechErrorMessage(code: string): string
  {
    if code == "not-allowed" || code == "service-not-allowed" then DeniedMessage
    else if code == "no-speech" then NoSpeechMessage
    else if code == "network" then NetworkMessage
    else UnknownErrorPrefix + code
  }

  /** Both refusals of the microphone read the same; each other known code has its own message, and no message is empty. */
  lemma SpeechErrorMessages(code: string)
    ensures SpeechErrorMessage("not-allowed") == SpeechErrorMessage("service-not-allowed") == DeniedMessage
    ensures SpeechErrorMessage("no-speech") == NoSpeechMessage && SpeechErrorMessage("network") == NetworkMessage
    ensures !KnownCode(code) ==> SpeechErrorMessage(code) == UnknownErrorPrefix + code
    ensures |SpeechErrorMessage(code)| > 0
  {
  }

  /** Unrecognised codes are passed through, so different ones show different messages. */
  lemma UnknownCodesStayDistinct(a: string, b: string)
    requires !KnownCode(a) && !KnownCode(b)
    requires a != b
    ensures SpeechErrorMessage(a) != SpeechErrorMessage(b)
  {
    var p := UnknownErrorPrefix;
    assert (p + a)[|p|..] == a && (p + b)[|p|..] == b;
  }

  /** The zero- or 150-ms timer `startRecording` schedules before starting recognition. */
  datatype PendingStart = PendingStart(delay: nat)

  class Recorder {
    const isSupported: bool
    var isRecording: bool
    var transcript: string
    var interimTranscript: string
    var error: Option<string>
    /** `finalTranscriptRef.current`. */
    var finalTranscript: string

    /** What is shown is always the accumulated final text without its surrounding white space. */
    ghost predicate Valid()
      reads this
    {
      transcript == Trim(finalTranscript)
    }

    /** Mounting: without browser support the error says so. */
    constructor (isSupported: bool)
      ensures Valid() && this.isSupported == isSupported
      ensures !isRecording && transcript == "" && interimTranscript == "" && finalTranscript == ""
      ensures error == if isSupported then None else Some(UnsupportedMessage)
    {
      this.isSupported := isSupported;
      isRecording := false;
      transcript := "";
      interimTranscript := "";
      finalTranscript := "";
      error := if isSupported then None else Some(UnsupportedMessage);
    }

    /** `onresult`. */
    method OnResult(results: seq<SpeechResult>, resultIndex: nat)
      requires Valid()
      modifies this`finalTranscript, this`transcript, this`interimTranscript
      ensures Valid()
      ensures finalTranscript == old(finalTranscript) + FinalText(FromIndex(results, resultIndex))
      ensures interimTranscript == InterimText(FromIndex(results, resultIndex))
    {
      var final, interim := Accumulate(results, resultIndex, finalTranscript);
      finalTranscript := final;
      transcript := Trim(final);
      interimTranscript := interim;
    }

    /** `onerror`: the mapped message and recording off. */
    method OnError(code: string)
      requires Valid()
      modifies this`error, this`isRecording
      ensures Valid()
      ensures error == Some(SpeechErrorMessage(code)) && !isRecording
    {
      error := Some(SpeechErrorMessage(code));
      isRecording := false;
    }

    /** `onend`. */
    method OnEnd()
      requires Valid()
      modifies this`isRecording, this`interimTranscript
      ensures Valid()
      ensures !isRecording && interimTranscript == ""
    {
      isRecording := false;
      interimTranscript := "";
    }

    /** `stopRecording`: the recognition object's `stop()` is outside the model. */
    method StopRecording()
      requires Valid()
      modifies this`isRecording, this`interimTranscript
      ensures Valid()
      ensures !isRecording && interimTranscript == ""
    {
      isRecording := false;
      interimTranscript := "";
    }

    /** `resetTranscript`. */
    method ResetTranscript()
      requires Valid()
      modifies this`transcript, this`interimTranscript, this`finalTranscript, this`error
      ensures Valid()
      ensures transcript == "" && interimTranscript == "" && finalTranscript == "" && error == None
    {
      transcript := "";
      interimTranscript := "";
      finalTranscript := "";
      error := None;
    }

    /**
     * `startRecording`: without support only the error is set; otherwise the
     * error and all text are cleared and the start is scheduled, 150 ms later
     * when a recording was running.
     */
    method StartRecording() returns (p: Option<PendingStart>)
      requires Valid()
      modifies this`transcript, this`interimTranscript, this`finalTranscript, this`error
      ensures Valid()
      ensures !isSupported ==>
        p == None && error == Some(UnsupportedMessage)
        && transcript == old(transcript) && interimTranscript == old(interimTranscript)
        && finalTranscript == old(finalTranscript)
      ensures isSupported ==>
        p == Some(PendingStart(if old(isRecording) then 150 else 0)) && error == None
        && transcript == "" && interimTranscript == "" && finalTranscript == ""
    {
      if !isSupported {
        error := Some(UnsupportedMessage);
        return None;
      }
      error := None;
      transcript := "";
      interimTranscript := "";
      finalTranscript := "";
      p := Some(PendingStart(if isRecording then 150 else 0));
    }

    /** The scheduled start runs; `started` says whether the recognition object accepted `start()`. */
    method RunPendingStart(p: PendingStart, started: bool)
      requires Valid()
      modifies this`isRecording, this`error
      ensures Valid()
      ensures started ==> isRecording && error == old(error)
      ensures !started ==> !isRecording && error == Some(StartFailedMessage)
    {
      isRecording := true;
      if !started {
        error := Some(StartFailedMessage);
        isRecording := false;
      }
    }
  }
}
