/** The `useSpeech` hook: one single-shot speech recogniser and the speech
    synthesiser behind the chat widget's microphone and voice replies.
    The recogniser's and the utterance's event handlers are methods; the
    browser's `start()` and `stop()` throwing are inputs; the callbacks the
    hook is given (`onResult`, `onError`) are recorded as logs of calls. */
module Speech {
  import opened Wrappers
  import opened JsText

  /** A voice of `speechSynthesis.getVoices()`. */
  datatype Voice = Voice(name: string, lang: string)

  /** An utterance handed to `speechSynthesis.speak`; `None` keeps the default voice. */
  datatype Utterance = Utterance(text: string, voice: Option<Voice>)

  const StartFailed: string := "Failed to start voice input"

  /** The voice test of `speak`: a natural-sounding engine or any English voice. */
  predicate Preferred(v: Voice) {
    || Includes(v.name, "Google")
    || Includes(v.name, "Samantha")
    || Includes(v.name, "Daniel")
    || StartsWith(v.lang, "en")
  }

  /** `voices.find(...)`: the position of the first preferred voice, if any. */
  function FindPreferred(voices: seq<Voice>): (r: Option<nat>)
    ensures r.Some? ==> r.value < |voices| && Preferred(voices[r.value])
    ensures r.Some? ==> forall j :: 0 <= j < r.value ==> !Preferred(voices[j])
    ensures r.None? ==> forall j :: 0 <= j < |voices| ==> !Preferred(voices[j])
  {
    if voices == [] then None
    else if Preferred(voices[0]) then Some(0)
    else
      match FindPreferred(voices[1..])
      case None => None
      case Some(i) => Some(i + 1)
  }

  /** The voice `speak` assigns: the first preferred one, or none (the default). */
  function ChosenVoice(voices: seq<Voice>): (r: Option<Voice>)
    ensures r.Some? <==> exists j :: 0 <= j < |voices| && Preferred(voices[j])
    ensures r.Some? ==> r.value in voices && Preferred(r.value)
  {
    match FindPreferred(voices)
    case None => None
    case Some(i) => Some(voices[i])
  }

  /** Whatever the other voices are, a preferred first voice is chosen. */
  lemma FirstPreferredWins(v: Voice, rest: seq<Voice>)
    requires Preferred(v)
    ensures ChosenVoice([v] + rest) == Some(v)
  {
  }

  class SpeechHook {
    /** A recogniser was created on mount (`isSupported`). */
    const recognitionSupported: bool
    /** `speechSynthesis` exists (`isTTSSupported`). */
    const synthesisSupported: bool

    var isListening: bool
    var isSpeaking: bool
    /** The utterances the synthesiser holds. */
    var queue: seq<Utterance>
    /** `utteranceRef.current`. */
    var current: Option<Utterance>
    /** The transcripts passed to `onResult`, in order. */
    var resultsReported: seq<string>
    /** The messages passed to `onError`, in order. */
    var errorsReported: seq<string>

    ghost predicate Valid()
      reads this
    {
      && (!recognitionSupported ==> !isListening)
      && (!synthesisSupported ==> !isSpeaking && queue == [])
      && |queue| <= 1
    }

    /** The hook after its mount effect has probed the browser. */
    constructor (recognitionSupported: bool, synthesisSupported: bool)
      ensures Valid()
      ensures this.recognitionSupported == recognitionSupported
      ensures this.synthesisSupported == synthesisSupported
      ensures !isListening && !isSpeaking && queue == [] && current == None
      ensures resultsReported == [] && errorsReported == []
    {
      this.recognitionSupported := recognitionSupported;
      this.synthesisSupported := synthesisSupported;
      isListening, isSpeaking := false, false;
      queue, current := [], None;
      resultsReported, errorsReported := [], [];
    }

    /** `recognition.onresult`: forwards `results[0][0].transcript` and stops
        listening. An event without a first alternative throws at the index
        and the handler changes nothing. */
    method OnRecognitionResult(results: seq<seq<string>>)
      requires Valid()
      modifies this
      ensures Valid()
      ensures if results != [] && results[0] != [] then
          resultsReported == old(resultsReported) + [results[0][0]] && !isListening
        else
          resultsReported == old(resultsReported) && isListening == old(isListening)
      ensures errorsReported == old(errorsReported) && isSpeaking == old(isSpeaking)
      ensures queue == old(queue) && current == old(current)
    {
      if results != [] && results[0] != [] {
        resultsReported := resultsReported + [results[0][0]];
        isListening := false;
      }
    }

    /** `recognition.onerror`: every error but "aborted" goes to `onError`;
        listening stops in every case. */
    method OnRecognitionError(error: string)
      requires Valid()
      modifies this
      ensures Valid() && !isListening
      ensures errorsReported == old(errorsReported) + (if error != "aborted" then [error] else [])
      ensures resultsReported == old(resultsReported) && isSpeaking == old(isSpeaking)
      ensures queue == old(queue) && current == old(current)
    {
      if error != "aborted" {
        errorsReported := errorsReported + [error];
      }
      isListening := false;
    }

    /** `recognition.onend`. */
    method OnRecognitionEnd()
      requires Valid()
      modifies this
      ensures Valid() && !isListening
      ensures resultsReported == old(resultsReported) && errorsReported == old(errorsReported)
      ensures isSpeaking == old(isSpeaking) && queue == old(queue) && current == old(current)
    {
      isListening := false;
    }

    /** `startListening`: nothing without a recogniser or while listening;
        otherwise speech is cancelled and, if `start()` does not throw,
        listening begins; if it throws, `onError` hears about it. */
    method StartListening(startThrows: bool)
      requires Valid()
      modifies this
      ensures Valid()
      ensures !recognitionSupported || old(isListening) ==>
        && isListening == old(isListening) && isSpeaking == old(isSpeaking) && queue == old(queue)
        && errorsReported == old(errorsReported)
      ensures recognitionSupported && !old(isListening) ==>
        && !isSpeaking && queue == []
        && isListening == !startThrows
        && errorsReported == old(errorsReported) + (if startThrows then [StartFailed] else [])
      ensures resultsReported == old(resultsReported) && current == old(current)
    {
      if !recognitionSupported || isListening {
        return;
      }
      if synthesisSupported {
        queue := [];
      }
      isSpeaking := false;
      if startThrows {
        errorsReported := errorsReported + [StartFailed];
      } else {
        isListening := true;
      }
    }

    /** `stopListening`: with a recogniser, a `stop()` that returns clears
        `isListening`; one that throws is swallowed and leaves it as it was. */
    method StopListening(stopThrows: bool)
      requires Valid()
      modifies this
      ensures Valid()
      ensures isListening == (old(isListening) && (!recognitionSupported || stopThrows))
      ensures resultsReported == old(resultsReported) && errorsReported == old(errorsReported)
      ensures isSpeaking == old(isSpeaking) && queue == old(queue) && current == old(current)
    {
      if !recognitionSupported {
        return;
      }
      if !stopThrows {
        isListening := false;
      }
    }

    /** `speak(text)`: nothing for an empty text or without a synthesiser;
        otherwise the synthesiser is cancelled and exactly one utterance, with
        the chosen voice, is queued. */
    method Speak(text: string, voices: seq<Voice>)
      requires Valid()
      modifies this
      ensures Valid()
      ensures text == "" || !synthesisSupported ==> queue == old(queue) && current == old(current)
      ensures text != "" && synthesisSupported ==>
        var u := Utterance(text, ChosenVoice(voices));
        queue == [u] && current == Some(u)
      ensures isListening == old(isListening) && isSpeaking == old(isSpeaking)
      ensures resultsReported == old(resultsReported) && errorsReported == old(errorsReported)
    {
      if !synthesisSupported || text == "" {
        return;
      }
      queue := [];
      var u := Utterance(text, ChosenVoice(voices));
      current := Some(u);
      queue := queue + [u];
    }

    /** `utterance.onstart`, fired for a queued utterance. */
    method OnUtteranceStart()
      requires Valid() && queue != []
      modifies this
      ensures Valid() && isSpeaking
      ensures isListening == old(isListening) && queue == old(queue) && current == old(current)
      ensures resultsReported == old(resultsReported) && errorsReported == old(errorsReported)
    {
      isSpeaking := true;
    }

    /** `utterance.onend` or `utterance.onerror`: the utterance has left the queue. */
    method OnUtteranceEnd()
      requires Valid()
      modifies this
      ensures Valid() && !isSpeaking && queue == []
      ensures isListening == old(isListening) && current == old(current)
      ensures resultsReported == old(resultsReported) && errorsReported == old(errorsReported)
    {
      isSpeaking := false;
      queue := [];
    }

    /** `stopSpeaking`: cancels and leaves the hook silent; calling it again
        changes nothing more. */
    method StopSpeaking()
      requires Valid()
      modifies this
      ensures Valid() && !isSpeaking && queue == []
      ensures isListening == old(isListening) && current == old(current)
      ensures resultsReported == old(resultsReported) && errorsReported == old(errorsReported)
    {
      if synthesisSupported {
        queue := [];
        isSpeaking := false;
      }
    }

    /** The mount effect's cleanup: aborts the recogniser and cancels speech. */
    method Teardown()
      requires Valid()
      modifies this
      ensures Valid() && queue == []
      ensures isListening == old(isListening) && isSpeaking == old(isSpeaking) && current == old(current)
      ensures resultsReported == old(resultsReported) && errorsReported == old(errorsReported)
    {
      if synthesisSupported {
        queue := [];
      }
    }
  }

  /** Stopping speech twice leaves the same state as stopping it once: silent,
      nothing queued, and every other field as it was before the first stop. */
  method StopSpeakingTwice(h: SpeechHook)
    requires h.Valid()
    modifies h
    ensures h.Valid() && !h.isSpeaking && h.queue == []
    ensures h.isListening == old(h.isListening) && h.current == old(h.current)
    ensures h.resultsReported == old(h.resultsReported) && h.errorsReported == old(h.errorsReported)
  {
    h.StopSpeaking();
    h.StopSpeaking();
  }
}
