/** The voice orb modal (`VoiceOrbModal`): while open it runs one continuous
    recogniser, shows the running transcript and hands the first final
    transcript to its parent. The parent's callbacks `onResult`, `onError`
    and `onClose` are recorded as logs of calls. */
module VoiceOrb {
  import opened JsText

  /** One entry of `event.results`: its finality and its first alternative's text. */
  datatype Segment = Segment(isFinal: bool, transcript: string)

  const NotSupported: string := "Voice input not supported in this browser"

  /** The final segments' texts, concatenated in order. */
  function FinalText(rs: seq<Segment>): string {
    if rs == [] then "" else (if rs[0].isFinal then rs[0].transcript else "") + FinalText(rs[1..])
  }

  /** The other segments' texts, concatenated in order. */
  function InterimText(rs: seq<Segment>): string {
    if rs == [] then "" else (if rs[0].isFinal then "" else rs[0].transcript) + InterimText(rs[1..])
  }

  /** Both texts are built segment by segment: they distribute over concatenation. */
  lemma {:induction false} FinalTextAppend(a: seq<Segment>, b: seq<Segment>)
    ensures FinalText(a + b) == FinalText(a) + FinalText(b)
  {
    if a == [] {
      assert a + b == b;
    } else {
      var ab := a + b;
      assert ab[0] == a[0];
      assert ab[1..] == a[1..] + b;
      FinalTextAppend(a[1..], b);
      var f := if a[0].isFinal then a[0].transcript else "";
      assert FinalText(ab) == f + FinalText(ab[1..]);
      assert FinalText(a) == f + FinalText(a[1..]);
    }
  }

  lemma {:induction false} InterimTextAppend(a: seq<Segment>, b: seq<Segment>)
    ensures InterimText(a + b) == InterimText(a) + InterimText(b)
  {
    if a == [] {
      assert a + b == b;
    } else {
      var ab := a + b;
      assert ab[0] == a[0];
      assert ab[1..] == a[1..] + b;
      InterimTextAppend(a[1..], b);
      var n := if a[0].isFinal then "" else a[0].transcript;
      assert InterimText(ab) == n + InterimText(ab[1..]);
      assert InterimText(a) == n + InterimText(a[1..]);
    }
  }

  /** The final text is empty exactly when every final segment's text is. */
  lemma {:induction false} FinalTextEmptyIff(rs: seq<Segment>)
    ensures FinalText(rs) == "" <==> forall i :: 0 <= i < |rs| && rs[i].isFinal ==> rs[i].transcript == ""
  {
    if rs != [] {
      FinalTextEmptyIff(rs[1..]);
      assert forall i :: 1 <= i < |rs| ==> rs[i] == rs[1..][i - 1];
    }
  }

  /** The segments `onresult` scans: from `resultIndex` to the end. */
  function Window(rs: seq<Segment>, resultIndex: nat): seq<Segment> {
    if resultIndex <= |rs| then rs[resultIndex..] else []
  }

  /** Extending a scanned range by one segment adds that segment's text to
      the one text its finality selects. */
  lemma TextsStep(rs: seq<Segment>, lo: nat, i: nat)
    requires lo <= i < |rs|
    ensures FinalText(rs[lo..i + 1]) == FinalText(rs[lo..i]) + (if rs[i].isFinal then rs[i].transcript else "")
    ensures InterimText(rs[lo..i + 1]) == InterimText(rs[lo..i]) + (if rs[i].isFinal then "" else rs[i].transcript)
  {
    assert rs[lo..i + 1] == rs[lo..i] + [rs[i]];
    FinalTextAppend(rs[lo..i], [rs[i]]);
    InterimTextAppend(rs[lo..i], [rs[i]]);
    assert [rs[i]][1..] == [];
  }

  /** `onresult`'s loop over `results[resultIndex..]`. */
  method AssembleTranscript(results: seq<Segment>, resultIndex: nat) returns (final: string, interim: string)
    ensures final == FinalText(Window(results, resultIndex))
    ensures interim == InterimText(Window(results, resultIndex))
  {
    final, interim := "", "";
    if resultIndex > |results| {
      return;
    }
    var i := resultIndex;
    while i < |results|
      invariant resultIndex <= i <= |results|
      invariant final == FinalText(results[resultIndex..i])
      invariant interim == InterimText(results[resultIndex..i])
    {
      TextsStep(results, resultIndex, i);
      if results[i].isFinal {
        final := final + results[i].transcript;
      } else {
        interim := interim + results[i].transcript;
      }
      i := i + 1;
    }
    assert results[resultIndex..i] == results[resultIndex..];
  }

  /** `finalTranscript || interimTranscript`. */
  function DisplayedTranscript(final: string, interim: string): (r: string)
    ensures final != "" ==> r == final
    ensures final == "" ==> r == interim
    ensures r == "" <==> final == "" && interim == ""
  {
    if final != "" then final else interim
  }

  /** The errors `onerror` passes on: all but "aborted" and "no-speech". */
  predicate Reported(error: string) {
    error != "aborted" && error != "no-speech"
  }

  class OrbModal {
    var isOpen: bool
    var isListening: bool
    var transcript: string
    /** `recognitionRef.current` is set. */
    var hasRecognizer: bool
    /** A recogniser was created at some point; only then can events arrive. */
    var everCreated: bool
    /** The arguments of the calls to `onResult`, in order. */
    var submitted: seq<string>
    /** The arguments of the calls to `onError`, in order. */
    var errorsReported: seq<string>
    /** The number of calls to `onClose`. */
    var closeRequests: nat

    ghost predicate Valid()
      reads this
    {
      && (hasRecognizer ==> isOpen && everCreated)
      && (isListening ==> everCreated)
    }

    /** The modal as first rendered with `isOpen` false. */
    constructor ()
      ensures Valid() && !isOpen && !isListening && transcript == ""
      ensures !hasRecognizer && !everCreated && submitted == [] && errorsReported == [] && closeRequests == 0
    {
      isOpen, isListening, transcript := false, false, "";
      hasRecognizer, everCreated := false, false;
      submitted, errorsReported, closeRequests := [], [], 0;
    }

    /** The parent changes `isOpen`: the previous effect's cleanup stops its
        recogniser (a throwing `stop()` is ignored) and clears the ref; then,
        when opening, a browser without the API reports it and creates
        nothing, and otherwise a recogniser is created and started (a
        throwing `start()` is ignored). Closing starts nothing. */
    method SetOpen(open: bool, apiSupported: bool)
      requires Valid()
      modifies this
      ensures Valid()
      ensures open == old(isOpen) ==>
        hasRecognizer == old(hasRecognizer) && errorsReported == old(errorsReported) && everCreated == old(everCreated)
      ensures open != old(isOpen) ==>
        && hasRecognizer == (open && apiSupported)
        && everCreated == (old(everCreated) || hasRecognizer)
        && errorsReported == old(errorsReported) + (if open && !apiSupported then [NotSupported] else [])
      ensures isOpen == open && isListening == old(isListening) && transcript == old(transcript)
      ensures submitted == old(submitted) && closeRequests == old(closeRequests)
    {
      if open == isOpen {
        return;
      }
      hasRecognizer := false;
      isOpen := open;
      if !open {
        return;
      }
      if !apiSupported {
        errorsReported := errorsReported + [NotSupported];
        return;
      }
      hasRecognizer, everCreated := true, true;
    }

    /** `recognition.onstart`. */
    method OnStart()
      requires Valid() && everCreated
      modifies this
      ensures Valid() && isListening && transcript == ""
      ensures isOpen == old(isOpen) && hasRecognizer == old(hasRecognizer) && everCreated == old(everCreated)
      ensures submitted == old(submitted) && errorsReported == old(errorsReported) && closeRequests == old(closeRequests)
    {
      isListening := true;
      transcript := "";
    }

    /** `recognition.onresult`: shows the final text if any, else the interim
        one; a non-empty final text is trimmed and submitted, then the modal
        asks to close. */
    method OnResult(results: seq<Segment>, resultIndex: nat)
      requires Valid() && everCreated
      modifies this
      ensures Valid()
      ensures var f := FinalText(Window(results, resultIndex));
        && transcript == DisplayedTranscript(f, InterimText(Window(results, resultIndex)))
        && submitted == old(submitted) + (if f != "" then [Trim(f)] else [])
        && closeRequests == old(closeRequests) + (if f != "" then 1 else 0)
      ensures isOpen == old(isOpen) && isListening == old(isListening)
      ensures hasRecognizer == old(hasRecognizer) && everCreated == old(everCreated)
      ensures errorsReported == old(errorsReported)
    {
      var final, interim := AssembleTranscript(results, resultIndex);
      transcript := DisplayedTranscript(final, interim);
      if final != "" {
        submitted := submitted + [Trim(final)];
        closeRequests := closeRequests + 1;
      }
    }

    /** `recognition.onerror`: the error is passed on unless it is
        "aborted" or "no-speech"; listening stops in every case. */
    method OnError(error: string)
      requires Valid() && everCreated
      modifies this
      ensures Valid() && !isListening
      ensures errorsReported == old(errorsReported) + (if Reported(error) then [error] else [])
      ensures isOpen == old(isOpen) && transcript == old(transcript)
      ensures hasRecognizer == old(hasRecognizer) && everCreated == old(everCreated)
      ensures submitted == old(submitted) && closeRequests == old(closeRequests)
    {
      if Reported(error) {
        errorsReported := errorsReported + [error];
      }
      isListening := false;
    }

    /** `recognition.onend`. */
    method OnEnd()
      requires Valid() && everCreated
      modifies this
      ensures Valid() && !isListening
      ensures isOpen == old(isOpen) && transcript == old(transcript)
      ensures hasRecognizer == old(hasRecognizer) && everCreated == old(everCreated)
      ensures submitted == old(submitted) && errorsReported == old(errorsReported) && closeRequests == old(closeRequests)
    {
      isListening := false;
    }

    /** `handleClose`: stops the recogniser if there is one, ignoring a
        throwing `stop()`, and always asks the parent to close. */
    method HandleClose()
      requires Valid()
      modifies this
      ensures Valid() && closeRequests == old(closeRequests) + 1
      ensures isOpen == old(isOpen) && isListening == old(isListening) && transcript == old(transcript)
      ensures hasRecognizer == old(hasRecognizer) && everCreated == old(everCreated)
      ensures submitted == old(submitted) && errorsReported == old(errorsReported)
    {
      closeRequests := closeRequests + 1;
    }
  }

  /** A result event submits exactly when one of its scanned final segments
      has text; it then submits that text trimmed. */
  lemma SubmitsIffFinalSpeech(results: seq<Segment>, resultIndex: nat)
    requires resultIndex <= |results|
    ensures FinalText(results[resultIndex..]) != "" <==>
      exists i :: resultIndex <= i < |results| && results[i].isFinal && results[i].transcript != ""
  {
    var w := results[resultIndex..];
    FinalTextEmptyIff(w);
    assert forall i :: resultIndex <= i < |results| ==> results[i] == w[i - resultIndex];
    if exists i :: 0 <= i < |w| && w[i].isFinal && w[i].transcript != "" {
      var i :| 0 <= i < |w| && w[i].isFinal && w[i].transcript != "";
      assert results[resultIndex + i] == w[i];
    }
  }
}
