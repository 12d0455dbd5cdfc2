/** The chat widget's conversation state (`VoiceAssistantWidget`): the
    transcript, the loading flag, the error banner, the input box and the
    voice-reply switch, with the `sendMessage` round trip split at its `await`
    into the part before the network call and the part after it. */
module ChatWidget {
  import opened Wrappers
  import opened JsText
  import Speech

  datatype Role = User | Assistant

  /** Message ids: the welcome message's "welcome", or a `Date.now()` stamp
      with the prefix of its kind ("user-", "assistant-", "assistant-error-").
      No stamped id equals "welcome"; stamped ids are not assumed unique. */
  datatype IdKind = UserId | AssistantId | ErrorId
  datatype MessageId = Welcome | Stamped(kind: IdKind, time: int)

  datatype Message = Message(id: MessageId, role: Role, content: string)

  /** An element of the request body: a message reduced to role and content. */
  datatype Turn = Turn(role: Role, content: string)

  const WelcomeText: string := "Hi! I'm the HYRX Assistant. I can help you understand our AI services, find the right solution for your needs, or get started with a quote. What can I help you with today?"
  const InitialMessage: Message := Message(Welcome, Assistant, WelcomeText)
  const FallbackText: string := "I'm having trouble connecting right now. You can reach us directly at hyrx.aistudio@gmail.com or visit our Contact page."
  const FailedToGetResponse: string := "Failed to get response"
  const GenericError: string := "Something went wrong. Please try again."
  const VoiceUnavailable: string := "Voice input not available. Please type your message."

  /** How the request to the chat function ended: a 2xx reply with
      `data.message`; a non-2xx reply whose `data.error` may be missing or
      empty; or a thrown exception, which is an `Error` with a message
      (`fetch` failing, `response.json()` failing) or some other value. */
  datatype ChatReply =
    | Answered(message: string)
    | Refused(serverError: Option<string>)
    | Threw(errorMessage: Option<string>)

  /** The error banner text after a failed request. */
  function ErrorText(reply: ChatReply): (r: string)
    requires !reply.Answered?
    ensures reply.Refused? ==> r != ""
    ensures reply.Threw? && reply.errorMessage.None? ==> r == GenericError
  {
    match reply
    case Refused(e) => if e.Some? && e.value != "" then e.value else FailedToGetResponse
    case Threw(m) => if m.Some? then m.value else GenericError
  }

  /** The one assistant message a finished request appends. */
  function ReplyMessage(reply: ChatReply, now: int): (m: Message)
    ensures m.role == Assistant && m.id != Welcome
    ensures reply.Answered? ==> m.content == reply.message
    ensures !reply.Answered? ==> m.content == FallbackText
  {
    match reply
    case Answered(text) => Message(Stamped(AssistantId, now), Assistant, text)
    case _ => Message(Stamped(ErrorId, now), Assistant, FallbackText)
  }

  /** `messages.filter(m => m.id !== "welcome").map(m => ({role, content}))`. */
  function WithoutWelcome(ms: seq<Message>): (r: seq<Turn>)
    ensures |r| <= |ms|
    ensures |r| == |ms| <==> forall i :: 0 <= i < |ms| ==> ms[i].id != Welcome
  {
    if ms == [] then []
    else (if ms[0].id == Welcome then [] else [Turn(ms[0].role, ms[0].content)]) + WithoutWelcome(ms[1..])
  }

  /** The request body's messages for a send of `user` from the history `ms`. */
  function Transcript(ms: seq<Message>, user: Message): seq<Turn> {
    WithoutWelcome(ms) + [Turn(user.role, user.content)]
  }

  /** A history that holds no welcome message is sent whole and in order. */
  lemma {:induction false} WithoutWelcomeKeepsOthers(ms: seq<Message>)
    requires forall i :: 0 <= i < |ms| ==> ms[i].id != Welcome
    ensures |WithoutWelcome(ms)| == |ms|
    ensures forall i :: 0 <= i < |ms| ==> WithoutWelcome(ms)[i] == Turn(ms[i].role, ms[i].content)
  {
    if ms != [] {
      WithoutWelcomeKeepsOthers(ms[1..]);
    }
  }

  /** The welcome message at the front is dropped and nothing else. */
  lemma WithoutWelcomeDropsFront(ms: seq<Message>)
    requires ms != [] && ms[0].id == Welcome
    ensures WithoutWelcome(ms) == WithoutWelcome(ms[1..])
  {
  }

  /** The transcript's shape in a well-formed conversation: the welcome message
      at the front, then user and assistant turns alternating; while a request
      is in flight the last message is the user's. No stamped message is welcome. */
  ghost predicate WellFormed(ms: seq<Message>, loading: bool) {
    && |ms| >= 1 && ms[0] == InitialMessage
    && (forall i :: 1 <= i < |ms| ==> ms[i].id != Welcome)
    && (forall i :: 1 <= i < |ms| ==> ms[i].role == (if i % 2 == 1 then User else Assistant))
    && (|ms| % 2 == 0 <==> loading)
  }

  /** Appending a message of the role whose turn it is keeps the shape and
      flips the in-flight flag. */
  lemma WellFormedAppend(ms: seq<Message>, loading: bool, m: Message)
    requires WellFormed(ms, loading)
    requires m.id != Welcome && m.role == (if |ms| % 2 == 1 then User else Assistant)
    ensures WellFormed(ms + [m], !loading)
  {
    var ns := ms + [m];
    forall i | 1 <= i < |ns|
      ensures ns[i].id != Welcome && ns[i].role == (if i % 2 == 1 then User else Assistant)
    {
      if i < |ms| {
        assert ns[i] == ms[i];
      }
    }
  }

  /** With the welcome message at the front and nowhere else (as in a
      well-formed conversation), the transcript sent upstream is every message
      after the welcome one, then the new user message, reduced and in order. */
  lemma TranscriptOfWellFormed(ms: seq<Message>, user: Message)
    requires ms != [] && ms[0].id == Welcome
    requires forall i :: 1 <= i < |ms| ==> ms[i].id != Welcome
    ensures |Transcript(ms, user)| == |ms|
    ensures forall i :: 1 <= i < |ms| ==> Transcript(ms, user)[i - 1] == Turn(ms[i].role, ms[i].content)
    ensures Transcript(ms, user)[|ms| - 1] == Turn(user.role, user.content)
  {
    var rest := ms[1..];
    assert forall i :: 0 <= i < |rest| ==> rest[i].id != Welcome by {
      forall i | 0 <= i < |rest| ensures rest[i].id != Welcome {
        assert rest[i] == ms[i + 1];
      }
    }
    WithoutWelcomeDropsFront(ms);
    WithoutWelcomeKeepsOthers(rest);
    var w := WithoutWelcome(rest);
    var t := Transcript(ms, user);
    assert t == w + [Turn(user.role, user.content)];
    forall i | 1 <= i < |ms| ensures t[i - 1] == Turn(ms[i].role, ms[i].content) {
      assert t[i - 1] == w[i - 1];
      assert rest[i - 1] == ms[i];
    }
  }

  class Widget {
    var messages: seq<Message>
    var inputValue: string
    var isLoading: bool
    var error: Option<string>
    var voiceEnabled: bool
    /** `voiceEnabled && isTTSSupported` as the send in flight captured them. */
    var speakReply: bool
    const speech: Speech.SpeechHook

    ghost predicate Valid()
      reads this, speech
    {
      && speech.Valid() && WellFormed(messages, isLoading)
      && (speakReply ==> speech.synthesisSupported)
    }

    /** The widget on mount: the welcome message alone, nothing typed, nothing loading. */
    constructor (speech: Speech.SpeechHook)
      requires speech.Valid()
      ensures Valid() && this.speech == speech
      ensures messages == [InitialMessage] && inputValue == "" && !isLoading
      ensures error == None && voiceEnabled && !speakReply
    {
      this.speech := speech;
      messages := [InitialMessage];
      inputValue := "";
      isLoading := false;
      error := None;
      voiceEnabled := true;
      speakReply := false;
    }

    /** `sendMessage` up to its `await`: a text that trims to empty, or any send
        while loading, changes nothing; otherwise the user's trimmed text is
        appended, the input cleared, loading set and the error cleared, and the
        request body's transcript is returned. */
    method BeginSend(content: string, now: int) returns (accepted: bool, transcript: seq<Turn>)
      requires Valid()
      modifies this
      ensures Valid()
      ensures accepted <==> !old(isLoading) && Trim(content) != ""
      ensures !accepted ==>
        && messages == old(messages) && inputValue == old(inputValue) && isLoading == old(isLoading)
        && error == old(error) && speakReply == old(speakReply) && transcript == []
      ensures accepted ==>
        var user := Message(Stamped(UserId, now), User, Trim(content));
        && messages == old(messages) + [user]
        && inputValue == "" && isLoading && error == None
        && speakReply == (voiceEnabled && speech.synthesisSupported)
        && transcript == Transcript(old(messages), user)
      ensures voiceEnabled == old(voiceEnabled)
    {
      var text := Trim(content);
      if text == "" || isLoading {
        accepted, transcript := false, [];
      } else {
        var user := Message(Stamped(UserId, now), User, text);
        WellFormedAppend(messages, false, user);
        transcript := Transcript(messages, user);
        messages := messages + [user];
        inputValue, isLoading, error := "", true, None;
        speakReply := voiceEnabled && speech.synthesisSupported;
        accepted := true;
      }
    }

    /** `sendMessage` after its `await`: exactly one assistant message is
        appended (the reply or the fallback), a failure sets the error banner,
        a reply is spoken if the send captured voice as on, and loading ends. */
    method CompleteSend(reply: ChatReply, now: int, voices: seq<Speech.Voice>)
      requires Valid() && isLoading
      modifies this, speech
      ensures Valid() && !isLoading
      ensures messages == old(messages) + [ReplyMessage(reply, now)]
      ensures error == if reply.Answered? then old(error) else Some(ErrorText(reply))
      ensures inputValue == old(inputValue) && voiceEnabled == old(voiceEnabled)
      ensures reply.Answered? && old(speakReply) && reply.message != "" ==>
        speech.queue == [Speech.Utterance(reply.message, Speech.ChosenVoice(voices))]
      ensures !(reply.Answered? && old(speakReply)) || reply.message == "" ==> speech.queue == old(speech.queue)
      ensures speakReply == old(speakReply)
      ensures speech.isListening == old(speech.isListening) && speech.isSpeaking == old(speech.isSpeaking)
      ensures speech.errorsReported == old(speech.errorsReported) && speech.resultsReported == old(speech.resultsReported)
    {
      WellFormedAppend(messages, isLoading, ReplyMessage(reply, now));
      messages := messages + [ReplyMessage(reply, now)];
      if reply.Answered? {
        if speakReply {
          speech.Speak(reply.message, voices);
        }
      } else {
        error := Some(ErrorText(reply));
      }
      isLoading := false;
    }

    /** A whole accepted send grows the transcript by exactly two messages, the
        user's and then one assistant message, and ends not loading. */
    method SendMessage(content: string, reply: ChatReply, sentAt: int, repliedAt: int, voices: seq<Speech.Voice>)
      returns (accepted: bool)
      requires Valid()
      modifies this, speech
      ensures Valid()
      ensures accepted <==> !old(isLoading) && Trim(content) != ""
      ensures accepted ==>
        && messages == old(messages) + [Message(Stamped(UserId, sentAt), User, Trim(content)), ReplyMessage(reply, repliedAt)]
        && !isLoading && inputValue == ""
      ensures !accepted ==> messages == old(messages) && isLoading == old(isLoading)
    {
      var transcript;
      accepted, transcript := BeginSend(content, sentAt);
      if accepted {
        CompleteSend(reply, repliedAt, voices);
      }
    }

    /** `toggleVoice`: stops speech that is playing and flips the switch. */
    method ToggleVoice()
      requires Valid()
      modifies this, speech
      ensures Valid() && voiceEnabled == !old(voiceEnabled)
      ensures !speech.isSpeaking
      ensures old(speech.isSpeaking) ==> speech.queue == []
      ensures !old(speech.isSpeaking) ==> speech.queue == old(speech.queue)
      ensures speech.isListening == old(speech.isListening) && speech.current == old(speech.current)
      ensures speech.errorsReported == old(speech.errorsReported) && speech.resultsReported == old(speech.resultsReported)
      ensures messages == old(messages) && isLoading == old(isLoading) && error == old(error)
      ensures inputValue == old(inputValue) && speakReply == old(speakReply)
    {
      if speech.isSpeaking {
        speech.StopSpeaking();
      }
      voiceEnabled := !voiceEnabled;
    }

    /** `handleMicClick`: stops listening when listening, else starts; starting
        cancels any speech, and a `start()` that throws is reported. */
    method HandleMicClick(startThrows: bool, stopThrows: bool)
      requires Valid()
      modifies speech
      ensures Valid()
      ensures old(speech.isListening) ==>
        && speech.isListening == stopThrows
        && speech.isSpeaking == old(speech.isSpeaking) && speech.queue == old(speech.queue)
        && speech.errorsReported == old(speech.errorsReported)
      ensures !old(speech.isListening) && !speech.recognitionSupported ==>
        && !speech.isListening
        && speech.isSpeaking == old(speech.isSpeaking) && speech.queue == old(speech.queue)
        && speech.errorsReported == old(speech.errorsReported)
      ensures !old(speech.isListening) && speech.recognitionSupported ==>
        && speech.isListening == !startThrows
        && !speech.isSpeaking && speech.queue == []
        && speech.errorsReported == old(speech.errorsReported) + (if startThrows then [Speech.StartFailed] else [])
      ensures speech.resultsReported == old(speech.resultsReported) && speech.current == old(speech.current)
      ensures messages == old(messages) && inputValue == old(inputValue) && isLoading == old(isLoading)
      ensures error == old(error) && voiceEnabled == old(voiceEnabled) && speakReply == old(speakReply)
    {
      if speech.isListening {
        speech.StopListening(stopThrows);
      } else {
        speech.StartListening(startThrows);
      }
    }

    /** `handleSpeechError`: shows the fixed voice notice; its 3-second timer is
        `ErrorTimerElapsed`. */
    method HandleSpeechError(e: string)
      requires Valid()
      modifies this
      ensures Valid() && error == Some(VoiceUnavailable)
      ensures messages == old(messages) && isLoading == old(isLoading) && inputValue == old(inputValue)
      ensures voiceEnabled == old(voiceEnabled) && speakReply == old(speakReply)
    {
      error := Some(VoiceUnavailable);
    }

    /** The notice's timer: it clears whatever error is showing by then. */
    method ErrorTimerElapsed()
      requires Valid()
      modifies this
      ensures Valid() && error == None
      ensures messages == old(messages) && isLoading == old(isLoading) && inputValue == old(inputValue)
      ensures voiceEnabled == old(voiceEnabled) && speakReply == old(speakReply)
    {
      error := None;
    }

    /** `handleSpeechResult`: the transcript becomes the input, which the form
        then submits (`BeginSend(inputValue, ...)`). */
    method HandleSpeechResult(transcript: string)
      requires Valid()
      modifies this
      ensures Valid() && inputValue == transcript
      ensures messages == old(messages) && isLoading == old(isLoading) && error == old(error)
      ensures voiceEnabled == old(voiceEnabled) && speakReply == old(speakReply)
    {
      inputValue := transcript;
    }
  }

  /** An accepted send needs an idle widget and a text with a non-trimmable character. */
  lemma AcceptedSendsHaveText(content: string)
    ensures Trim(content) != "" <==> exists i :: 0 <= i < |content| && !IsTrimmable(content[i])
  {
    TrimEmptyIff(content);
  }
}
