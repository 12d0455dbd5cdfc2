# HYRX site core, modelled in Dafny

This project models the parts of the HYRX marketing site that contain rules
and not just rendering:

- **`hyrx-chat` edge function.** It validates a chat request against its
  zod schema. It forwards the system prompt and the last ten messages to
  the completion gateway. It maps the gateway's outcome to an HTTP status
  and body.
- **Chat widget conversation (`VoiceAssistantWidget`).** This covers the
  `sendMessage` round trip, the voice switch, the microphone button and
  the speech-error banner.
- **`send-contact-email` edge function.** It formats the services, budget
  and message of a contact submission and sends the notification and then
  the confirmation. It ends differently when each of the two sends fails.
- **`useSpeech` hook.** It drives the widget's single-shot recogniser and
  its voice replies, including the choice of voice.
- **Voice orb modal (`VoiceOrbModal`).** Its continuous recogniser builds a
  final and an interim transcript over a range of results. It hands the
  trimmed final transcript to its parent.
- **Simulated agent run on the hero card (`HeroAgentRunner`).** Six tasks
  progress one tick at a time. The log shows the last six lines of an
  eight-line cycle.
- **ROI calculator (`ROICalculatorSection`).** Two head counts, each kept
  within 0..10, and the yearly savings computed from them.
- **Footer-collision hook (`useFooterCollision`).** It computes how far the
  chat button is lifted above the footer. It coalesces scroll and resize
  events into one animation frame and runs the footer observer.
- **Site header (`SiteHeader`).** The active navigation link, the scrolled
  style, the mobile menu and the forwarding of mouse moves to the 3D canvas.

## How the model is built

- **Pure handlers become functions.** The two edge functions are request
  handlers with no state. Each is a total function from its inputs to a
  response. The inputs are:
  - the HTTP verb;
  - the parsed body, or the fact that parsing threw;
  - the environment key;
  - the result of each `fetch`.

  Lemmas state the status mapping, the order of the sends and what the
  request and the emails contain.
- **Components and hooks that update state become classes.** Their fields
  are the React state and refs. Every handler, effect and timer callback is
  a method whose `ensures` gives the complete new state. A `Valid()`
  predicate holds the invariants that each method keeps.
- **Browser and network side effects become inputs or recorded calls:**
  - Whether `start()` or `stop()` throws, the voices the browser offers, the
    page geometry and the chat reply are method parameters.
  - The calls a component makes to its parent's callbacks (`onResult`,
    `onError`, `onClose`) are kept as logs.
  - The requests and the emails a handler posts are part of its result.
- **Helpers shared by several files live in `JsText`.** It holds the
  JavaScript string operations the code relies on: `trim` over ECMAScript
  white space, `startsWith`, `includes`, `join` and `slice(-n)`.
  `FooterCollision` holds `parseInt`.
- **Loops stay loops.** The voice orb's `onresult` loop and the footer
  observer's `forEach` are `while` loops. Each is proved against a
  recursive specification function.

File by file:

| file | models |
|---|---|
| `wrappers.dfy` | `Option` and `Result` |
| `js_text.dfy` | JavaScript `trim`, `startsWith`, `includes`, `join`, `slice(-n)` |
| `chat_proxy.dfy` | `supabase/functions/hyrx-chat/index.ts` |
| `chat_widget.dfy` | `src/components/chat/VoiceAssistantWidget.tsx` |
| `contact_email.dfy` | `supabase/functions/send-contact-email/index.ts` |
| `speech.dfy` | `src/hooks/use-speech.ts` |
| `voice_orb.dfy` | `src/components/chat/VoiceOrbModal.tsx` |
| `hero_runner.dfy` | `src/components/hero/HeroAgentRunner.tsx` |
| `roi_calculator.dfy` | `src/pages/services/ServiceAgents.tsx` (`ROICalculatorSection`) |
| `footer_collision.dfy` | `src/hooks/use-footer-collision.ts` |
| `site_header.dfy` | `src/components/layout/SiteHeader.tsx` |

## Model

| member | source | states |
|---|---|---|
| ChatProxy.ParseRole | supabase/functions/hyrx-chat/index.ts:11 | A role is accepted exactly when it is the string "user", "assistant" or "system", and the parsed role has that name. |
| ChatProxy.ContentIssues | supabase/functions/hyrx-chat/index.ts:12 | A content has no issue exactly when it is a string of 1 to 4000 characters. |
| ChatProxy.ParseElement | supabase/functions/hyrx-chat/index.ts:10-13 | A rejected message always has at least one issue, and its first issue has a non-empty message. |
| ChatProxy.ParseItems | supabase/functions/hyrx-chat/index.ts:16 | An accepted array yields one message per element. A rejected array has a non-empty first issue. |
| ChatProxy.Validate | supabase/functions/hyrx-chat/index.ts:15-17 | A rejected body always has a first issue with a non-empty message. |
| ChatProxy.FirstIssueMessage | supabase/functions/hyrx-chat/index.ts:136-139 | The 400 message is never empty. It is the first issue's message when that is non-empty, and "Invalid input" otherwise. |
| ChatProxy.ParseElementOkIff | supabase/functions/hyrx-chat/index.ts:10-13 | An element is accepted if and only if it meets the schema's rule for a message. The accepted message carries the element's role and content. |
| ChatProxy.ParseItemsOkIff | supabase/functions/hyrx-chat/index.ts:16 | An array is accepted if and only if every element is acceptable. Every parsed message mirrors its element, position by position. |
| ChatProxy.ValidateAcceptsExactly | supabase/functions/hyrx-chat/index.ts:10-17 | A body is accepted if and only if it has 1 to 50 messages, each with an allowed role and a content of 1 to 4000 characters. The accepted messages are the body's messages, in order, reduced to role and content. |
| ChatProxy.LengthIssueComesFirst | supabase/functions/hyrx-chat/index.ts:16 | An empty history and one of more than 50 messages are refused. The first issue is the array-length message, whatever the elements hold. |
| ChatProxy.AfterGateway | supabase/functions/hyrx-chat/index.ts:160-224 | Every response produced once the gateway call is made records that call, including the 500 of the catch when a body read throws. |
| ChatProxy.ReplyContent | supabase/functions/hyrx-chat/index.ts:200 | The optional chain `data.choices?.[0]?.message?.content` over a non-null JSON value. `SuccessfulReplyMapping` states what its truthiness decides. |
| ChatProxy.GatewayRequest | supabase/functions/hyrx-chat/index.ts:156-172 | The gateway body holds the model, `max_tokens` 500 and the system prompt followed by the last ten messages. `ForwardsSystemPromptAndLastTen` states its contents. |
| ChatProxy.HandleChat | supabase/functions/hyrx-chat/index.ts:124-226 | The status is always 200, 400, 402, 429 or 500. The CORS-only headers are used exactly for OPTIONS. A message body implies status 200 and a gateway call. |
| ChatProxy.PreflightShortCircuits | supabase/functions/hyrx-chat/index.ts:126-128 | OPTIONS gets status 200, the CORS headers and no body, whatever the body, key and gateway. |
| ChatProxy.RejectedBodyIs400 | supabase/functions/hyrx-chat/index.ts:134-142 | A body that fails the schema gets 400 with the first issue's message, and no gateway call is made. |
| ChatProxy.MissingKeyIs500 | supabase/functions/hyrx-chat/index.ts:146-153 | An accepted body with no key, or an empty key, gets 500 "AI service not configured", and no gateway call is made. The key is checked only after validation. |
| ChatProxy.ForwardsSystemPromptAndLastTen | supabase/functions/hyrx-chat/index.ts:156-174 | The gateway is called exactly for a non-preflight, accepted body with a key. The call carries the model and `max_tokens`. It sends the system prompt first and then the body's last min(n, 10) messages, in order. |
| ChatProxy.GatewayStatusMapping | supabase/functions/hyrx-chat/index.ts:176-224 | When the error text of a non-2xx reply is read, 429 maps to 429 and 402 to 402. Every other status maps to 500. Each status has its fixed message. When reading that text throws, the response is 500 with the generic message. |
| ChatProxy.SuccessfulReplyMapping | supabase/functions/hyrx-chat/index.ts:199-215 | A 2xx reply with a truthy `choices[0].message.content` returns that content with status 200. Otherwise the response is 500 "No response from AI". |
| ChatProxy.ExceptionsAre500 | supabase/functions/hyrx-chat/index.ts:130-224 | Each of these gets 500 with the generic message: an unreadable request, a failed fetch, a gateway body that cannot be read (the error text of a non-2xx reply or the JSON of a 2xx one), a null gateway body. |
| ChatProxy.EmptyContentMessage | supabase/functions/hyrx-chat/index.ts:12-139 | A message with empty content is refused with 400 and the schema's own message "Message cannot be empty". |
| ChatWidget.ReplyMessage | src/components/chat/VoiceAssistantWidget.tsx:130-153 | A finished request yields one assistant message that does not have the welcome id. Its content is the reply on success and the fixed fallback text otherwise. |
| ChatWidget.ErrorText | src/components/chat/VoiceAssistantWidget.tsx:126-146 | A refused request always shows a non-empty banner: the server's error, or "Failed to get response". A thrown value that is not an `Error` shows the generic text. |
| ChatWidget.WithoutWelcome | src/components/chat/VoiceAssistantWidget.tsx:116 | Filtering out the welcome message never makes the history longer. The length is kept if and only if no message has the welcome id. |
| ChatWidget.WithoutWelcomeKeepsOthers | src/components/chat/VoiceAssistantWidget.tsx:116-119 | A history without the welcome message is sent whole, in order, reduced to role and content. |
| ChatWidget.WithoutWelcomeDropsFront | src/components/chat/VoiceAssistantWidget.tsx:116 | A welcome message at the front is dropped and nothing else changes. |
| ChatWidget.WellFormedAppend | src/components/chat/VoiceAssistantWidget.tsx:101-157 | Appending the message whose turn it is keeps the conversation well formed. Well formed means: welcome first, then user and assistant turns alternating. It also flips the in-flight flag. |
| ChatWidget.TranscriptOfWellFormed | src/components/chat/VoiceAssistantWidget.tsx:116-119 | The transcript sent upstream is every message after the welcome message, then the new user message, in order. |
| ChatWidget.Widget.constructor | src/components/chat/VoiceAssistantWidget.tsx:30-42 | On mount the transcript is exactly the welcome message. Nothing is typed, nothing is loading, there is no error and voice is on. |
| ChatWidget.Widget.BeginSend | src/components/chat/VoiceAssistantWidget.tsx:92-122 | A text that trims to empty, or any send while loading, changes nothing. Otherwise the trimmed text is appended as one user message, the input is cleared, loading is set and the error is cleared. The request's transcript is what `TranscriptOfWellFormed` describes. |
| ChatWidget.Widget.CompleteSend | src/components/chat/VoiceAssistantWidget.tsx:124-157 | Exactly one assistant message is appended. A failure sets the banner to the server's text, "Failed to get response" or the generic text. A success with a non-empty reply is spoken, as one queued utterance, only when voice was on and synthesis is supported. Otherwise the speech queue is kept. The voice flags, the input, the listening and speaking flags and the callback logs are kept. Loading ends in every case. |
| ChatWidget.Widget.SendMessage | src/components/chat/VoiceAssistantWidget.tsx:92-158 | An accepted send grows the transcript by exactly two messages, the user's and then one assistant message, and ends not loading. A refused send leaves the transcript as it was. |
| ChatWidget.Widget.ToggleVoice | src/components/chat/VoiceAssistantWidget.tsx:165-170 | The voice switch flips. Speech that is playing is stopped and its queue emptied. Afterwards nothing is speaking. When nothing was playing, the queue is kept. The listening flag, the current utterance, the callback logs and the rest of the widget are kept. |
| ChatWidget.Widget.HandleMicClick | src/components/chat/VoiceAssistantWidget.tsx:172-178 | When listening, the button stops listening unless `stop()` throws, and speech and the error log are kept. Otherwise, with recognition supported, it cancels speech and empties the queue. Listening then starts, or, when `start()` throws, the start failure is appended to the error log. Without recognition nothing changes. The result log, the current utterance and every widget field are kept. |
| ChatWidget.Widget.HandleSpeechError | src/components/chat/VoiceAssistantWidget.tsx:58-62 | A speech error shows the fixed voice notice and changes nothing else. |
| ChatWidget.Widget.ErrorTimerElapsed | src/components/chat/VoiceAssistantWidget.tsx:61 | The notice's timer clears the error banner. |
| ChatWidget.Widget.HandleSpeechResult | src/components/chat/VoiceAssistantWidget.tsx:49-56 | A recognised transcript becomes the input value. |
| ChatWidget.AcceptedSendsHaveText | src/components/chat/VoiceAssistantWidget.tsx:93 | A text passes the `trim()` guard if and only if it holds a character that is not white space. |
| Speech.FindPreferred | src/hooks/use-speech.ts:113-118 | The index found is the first voice that is preferred. When there is none, no voice is preferred. |
| Speech.ChosenVoice | src/hooks/use-speech.ts:112-121 | A voice is chosen if and only if some voice in the list is preferred. A preferred voice is one whose name contains Google, Samantha or Daniel, or whose language starts with "en". The chosen voice comes from the list. |
| Speech.FirstPreferredWins | src/hooks/use-speech.ts:113-118 | A preferred voice at the front is chosen, whatever follows it. |
| Speech.SpeechHook.constructor | src/hooks/use-speech.ts:16-38 | After the mount probe the hook is neither listening nor speaking, and both supports are recorded. |
| Speech.SpeechHook.OnRecognitionResult | src/hooks/use-speech.ts:40-44 | `results[0][0].transcript` goes to `onResult` and listening stops. An event without a first alternative changes nothing. |
| Speech.SpeechHook.OnRecognitionError | src/hooks/use-speech.ts:46-52 | Every error except "aborted" goes to `onError`. Listening stops in every case. |
| Speech.SpeechHook.OnRecognitionEnd | src/hooks/use-speech.ts:54-56 | The end of recognition stops listening. |
| Speech.SpeechHook.StartListening | src/hooks/use-speech.ts:71-87 | Without a recogniser, or while listening, nothing happens. Otherwise speech is cancelled and speaking cleared. Then listening begins, or "Failed to start voice input" goes to `onError` when `start()` throws. |
| Speech.SpeechHook.StopListening | src/hooks/use-speech.ts:89-98 | When `stop()` returns, listening is cleared. When it throws, the error is swallowed and listening stays as it was. |
| Speech.SpeechHook.Speak | src/hooks/use-speech.ts:100-137 | An empty text, or a browser without synthesis, changes nothing. Otherwise earlier speech is cancelled and exactly one utterance, with the chosen voice, is queued. |
| Speech.SpeechHook.OnUtteranceStart | src/hooks/use-speech.ts:123-125 | The utterance starting sets speaking. |
| Speech.SpeechHook.OnUtteranceEnd | src/hooks/use-speech.ts:127-133 | The utterance's end or error clears speaking. |
| Speech.SpeechHook.StopSpeaking | src/hooks/use-speech.ts:139-144 | Afterwards the hook is silent and nothing is queued. |
| Speech.SpeechHook.Teardown | src/hooks/use-speech.ts:61-68 | The cleanup cancels speech and changes no other state. |
| Speech.StopSpeakingTwice | src/hooks/use-speech.ts:139-144 | After two stops the hook is silent with an empty queue, and every other field is as it was before the first stop, exactly as after one stop. |
| ContactEmail.ServiceLabel | supabase/functions/send-contact-email/index.ts:34-39 | The three known tags get their labels. Every other tag is kept as it is. |
| ContactEmail.Labelled | supabase/functions/send-contact-email/index.ts:33-40 | Each tag is replaced by its label, in order and one for one. |
| ContactEmail.ServicesList | supabase/functions/send-contact-email/index.ts:32-41 | An empty list gives "Not specified". A single tag gives its label. |
| ContactEmail.ServicesListAppend | supabase/functions/send-contact-email/index.ts:32-41 | Two lists in a row give their two texts joined by one ", ". The selection's order is kept and nothing is added. |
| ContactEmail.LabelledAppend | supabase/functions/send-contact-email/index.ts:33 | Labelling works tag by tag over a concatenation. |
| ContactEmail.UnknownTagsPassThrough | supabase/functions/send-contact-email/index.ts:39 | Tags outside the table reach the email unchanged. |
| ContactEmail.BudgetLabel | supabase/functions/send-contact-email/index.ts:44-51 | A known key gives its range. Any other non-empty value is shown as it is. A missing or empty value gives "Not specified". |
| ContactEmail.ReplaceNewlines | supabase/functions/send-contact-email/index.ts:73 | The result has no line break and is never shorter than the input. |
| ContactEmail.ReplaceNewlinesAppend | supabase/functions/send-contact-email/index.ts:73 | The replacement works piece by piece over a concatenation. |
| ContactEmail.ReplaceNewlinesIdentity | supabase/functions/send-contact-email/index.ts:73 | A text without line breaks is left exactly as it is. |
| ContactEmail.ReplaceNewlinesLength | supabase/functions/send-contact-email/index.ts:73 | Each line break adds three characters. Every other character is kept. |
| ContactEmail.CompanyText | supabase/functions/send-contact-email/index.ts:69 | A non-empty company is shown as given. Otherwise the text is "Not provided". |
| ContactEmail.Notification | supabase/functions/send-contact-email/index.ts:60-75 | The notification goes from the studio's sender to the business inbox and replies to the submitter. Its subject is the fixed prefix followed by the name. |
| ContactEmail.Confirmation | supabase/functions/send-contact-email/index.ts:93-108 | The confirmation goes to the submitter, with no reply-to and the fixed subject. |
| ContactEmail.HandleContact | supabase/functions/send-contact-email/index.ts:20-133 | The status is 200 or 500. The CORS-only headers are used exactly for OPTIONS. At most two emails are posted, and a success means both were. |
| ContactEmail.PreflightOnlyCors | supabase/functions/send-contact-email/index.ts:22-24 | OPTIONS gets the CORS headers, no body and no email. |
| ContactEmail.SendOrder | supabase/functions/send-contact-email/index.ts:54-109 | No email is posted if and only if the body cannot be formatted. The first email is always the notification to the inbox. A second, the confirmation to the submitter, is posted exactly when the notification was delivered. |
| ContactEmail.NotificationFailureAborts | supabase/functions/send-contact-email/index.ts:78-131 | A failed notification ends in a 500 carrying the failure, and no confirmation is posted. |
| ContactEmail.ConfirmationFailureTolerated | supabase/functions/send-contact-email/index.ts:111-122 | Once the notification is delivered, the request succeeds if and only if posting the confirmation does not throw. A rejected confirmation is tolerated. |
| ContactEmail.NotificationCarries | supabase/functions/send-contact-email/index.ts:64-73 | The notification's subject contains the name and its html contains the message body. |
| ContactEmail.ConfirmationCarries | supabase/functions/send-contact-email/index.ts:97-104 | The confirmation's html contains the message body. |
| ContactEmail.EmailsCarryTheSubmission | supabase/functions/send-contact-email/index.ts:64-104 | Both emails carry the message with its line breaks turned into `<br>`. The notification's subject contains the name. |
| ContactEmail.IncompleteSubmissionFails | supabase/functions/send-contact-email/index.ts:27-131 | A body without `services` or `message` fails with the runtime's TypeError before any email is posted. |
| ContactEmail.ServiceLabelAsWritten | supabase/functions/send-contact-email/index.ts:34-39 | The lookup as the runtime evaluates it agrees with `ServiceLabel` on the table's keys and on every tag that is not an inherited property. |
| ContactEmail.BudgetLabelAsWritten | supabase/functions/send-contact-email/index.ts:44-51 | The lookup as the runtime evaluates it agrees with `BudgetLabel` on every value that is not an inherited property. |
| ContactEmail.InheritedTagLeaksIntoEmail | supabase/functions/send-contact-email/index.ts:34-39 | "toString" is not in the table, yet as written the email shows a function's source text for it. The corrected lookup keeps the tag. |
| ContactEmail.InheritedBudgetLeaksIntoEmail | supabase/functions/send-contact-email/index.ts:44-51 | The same holds for the budget "valueOf". |
| VoiceOrb.FinalTextAppend | src/components/chat/VoiceOrbModal.tsx:105-112 | The final text distributes over concatenation of the results. |
| VoiceOrb.FinalText | src/components/chat/VoiceOrbModal.tsx:105-112 | The texts of the final segments, concatenated in order. Its partners are `FinalTextAppend`, `FinalTextEmptyIff` and the loop of `AssembleTranscript`. |
| VoiceOrb.InterimText | src/components/chat/VoiceOrbModal.tsx:105-112 | The texts of the other segments, concatenated in order. Its partners are `InterimTextAppend` and the loop of `AssembleTranscript`. |
| VoiceOrb.InterimTextAppend | src/components/chat/VoiceOrbModal.tsx:105-112 | The interim text distributes over concatenation of the results. |
| VoiceOrb.FinalTextEmptyIff | src/components/chat/VoiceOrbModal.tsx:107-117 | The final text is empty if and only if every final segment's text is empty. |
| VoiceOrb.TextsStep | src/components/chat/VoiceOrbModal.tsx:105-112 | One more segment adds its text to the final or the interim text, as its finality selects. |
| VoiceOrb.AssembleTranscript | src/components/chat/VoiceOrbModal.tsx:102-112 | The loop from `resultIndex` to the end yields the final segments' texts and the other segments' texts, each concatenated in order. |
| VoiceOrb.DisplayedTranscript | src/components/chat/VoiceOrbModal.tsx:114 | The displayed text is the final text if it is non-empty, else the interim text. It is empty only when both are. |
| VoiceOrb.OrbModal.constructor | src/components/chat/VoiceOrbModal.tsx:67-70 | The closed modal is not listening, shows no transcript and has no recogniser. |
| VoiceOrb.OrbModal.SetOpen | src/components/chat/VoiceOrbModal.tsx:76-152 | When `isOpen` changes, the old recogniser is stopped and released. Opening in a browser without the API reports "Voice input not supported in this browser" and creates nothing. Opening otherwise creates and starts a recogniser. Closing starts nothing. |
| VoiceOrb.OrbModal.OnStart | src/components/chat/VoiceOrbModal.tsx:96-99 | `onstart` sets listening and clears the transcript. |
| VoiceOrb.OrbModal.OnResult | src/components/chat/VoiceOrbModal.tsx:101-121 | The transcript shown is the final text, else the interim text. The trimmed final text goes to `onResult`, followed by one close request, exactly when the final text is non-empty. |
| VoiceOrb.OrbModal.OnError | src/components/chat/VoiceOrbModal.tsx:123-129 | Errors other than "aborted" and "no-speech" go to `onError`. Listening stops in every case. |
| VoiceOrb.OrbModal.OnEnd | src/components/chat/VoiceOrbModal.tsx:131-133 | `onend` stops listening. |
| VoiceOrb.OrbModal.HandleClose | src/components/chat/VoiceOrbModal.tsx:154-163 | Closing always asks the parent to close, exactly once. |
| VoiceOrb.SubmitsIffFinalSpeech | src/components/chat/VoiceOrbModal.tsx:105-120 | A result event submits if and only if one of its scanned final segments has text. |
| HeroRunner.WithStatuses | src/components/hero/HeroAgentRunner.tsx:276-282 | Tasks before the index are done, the task at the index is running and later ones are queued. Ids and names are kept. |
| HeroRunner.StatusesOverwrite | src/components/hero/HeroAgentRunner.tsx:276-282 | The statuses after a tick depend on the index alone, not on the statuses before it. |
| HeroRunner.InitialIsBeforeFirst | src/components/hero/HeroAgentRunner.tsx:13-20 | The all-queued initial list is the list of statuses before the first task starts. |
| HeroRunner.AtMostOneRunning | src/components/hero/HeroAgentRunner.tsx:276-282 | After any tick at most one task is running. |
| HeroRunner.Prev | src/components/hero/HeroAgentRunner.tsx:294 | Every log index has a predecessor in the mod-8 cycle. |
| HeroRunner.Next | src/components/hero/HeroAgentRunner.tsx:294 | The next log index always stays within the eight lines of the cycle. |
| HeroRunner.Window | src/components/hero/HeroAgentRunner.tsx:298-302 | A window of the log cycle has the requested length and ends with its newest line. |
| HeroRunner.DropOldest | src/components/hero/HeroAgentRunner.tsx:301 | Dropping the oldest line of a window leaves the window one line shorter. |
| HeroRunner.LogAdvance | src/components/hero/HeroAgentRunner.tsx:293-302 | Appending the next line and keeping the last six turns a window into the window that ends at the next index. |
| HeroRunner.Runner.constructor | src/components/hero/HeroAgentRunner.tsx:247-250 | On mount: six queued tasks, index 0, the first log line alone and log index 0. |
| HeroRunner.Runner.ResetAnimation | src/components/hero/HeroAgentRunner.tsx:253-258 | A reset restores the six queued tasks, task index 0, the first log line alone and log index 0. |
| HeroRunner.Runner.ResetTimerFires | src/components/hero/HeroAgentRunner.tsx:270 | A scheduled reset firing resets the run, and one fewer reset is pending. |
| HeroRunner.Runner.TaskTick | src/components/hero/HeroAgentRunner.tsx:261-286 | The statuses come from the index the tick started at. The index grows by one up to 6. A tick at 6 keeps the index and schedules a reset. Under reduced motion nothing changes. |
| HeroRunner.Runner.LogTick | src/components/hero/HeroAgentRunner.tsx:289-306 | The log index advances mod 8. The next line is appended and only the last six are kept. The newest line is always the line at the index. Under reduced motion nothing changes. |
| HeroRunner.Runner.DisplayTasks | src/components/hero/HeroAgentRunner.tsx:309-311 | Under reduced motion every initial task is shown done. Otherwise the live tasks are shown. |
| HeroRunner.Runner.DisplayLogs | src/components/hero/HeroAgentRunner.tsx:313-315 | Under reduced motion the log shows one fixed line. Otherwise it shows the live log. |
| HeroRunner.ValidRunnerShape | src/components/hero/HeroAgentRunner.tsx:249-302 | In every reachable state the log holds at most six lines, its newest line is the line at the log index, the index is below 8 and at most one task is running. |
| RoiCalculator.Savings | src/pages/services/ServiceAgents.tsx:44-46 | The savings are never negative and never below the cost difference. They equal the difference when that is positive and are 0 otherwise. |
| RoiCalculator.ManualCost | src/pages/services/ServiceAgents.tsx:44 | $40,000 per support rep plus $55,000 per sales researcher. `SavingsZeroIff`, `SavingsMonotone` and `SavingsStep` state what follows from it. |
| RoiCalculator.SavingsZeroIff | src/pages/services/ServiceAgents.tsx:44-46 | With counts that are never negative, there is no saving if and only if both counts are 0. |
| RoiCalculator.SavingsMonotone | src/pages/services/ServiceAgents.tsx:44-46 | More people never mean less saving. |
| RoiCalculator.SavingsStep | src/pages/services/ServiceAgents.tsx:44-46 | Once there is a saving, each further person adds that role's whole cost. |
| RoiCalculator.Calculator.constructor | src/pages/services/ServiceAgents.tsx:41-42 | Both counts start at 1. |
| RoiCalculator.Calculator.DecrementSupportReps | src/pages/services/ServiceAgents.tsx:100 | The count drops by one, except at 0. The other count is unchanged. |
| RoiCalculator.Calculator.IncrementSupportReps | src/pages/services/ServiceAgents.tsx:108 | The count grows by one, except at 10. The other count is unchanged. |
| RoiCalculator.Calculator.DecrementSalesResearchers | src/pages/services/ServiceAgents.tsx:121 | The count drops by one, except at 0. The other count is unchanged. |
| RoiCalculator.Calculator.IncrementSalesResearchers | src/pages/services/ServiceAgents.tsx:129 | The count grows by one, except at 10. The other count is unchanged. |
| RoiCalculator.Calculator.ShownSavings | src/pages/services/ServiceAgents.tsx:44-46 | The saving shown lies between 0 and the saving for ten of each role. |
| FooterCollision.DigitsEnd | src/hooks/use-footer-collision.ts:23 | The scan stops at the first non-digit. |
| FooterCollision.DigitsStart | src/hooks/use-footer-collision.ts:23 | The digits start right after the leading white space. If a `-` or `+` stands there, they start one character later. |
| FooterCollision.ParseInt | src/hooks/use-footer-collision.ts:23 | `parseInt` yields NaN if and only if no digit follows the white space and the sign. |
| FooterCollision.NatToString | src/hooks/use-footer-collision.ts:23 | The decimal form of a number is non-empty and all digits. |
| FooterCollision.DigitsValueOfNatToString | src/hooks/use-footer-collision.ts:23 | Reading a number's digits back, wherever they stand in a string, gives the number. |
| FooterCollision.DigitsEndAt | src/hooks/use-footer-collision.ts:23 | A run of digits is read up to the first non-digit. |
| FooterCollision.ParseIntRoundTrip | src/hooks/use-footer-collision.ts:23 | `parseInt` reads back any integer written in decimal, whatever non-digit unit follows it. |
| FooterCollision.Signed | src/hooks/use-footer-collision.ts:23 | The decimal form of an integer is never empty. |
| FooterCollision.ZeroParsesAsZero | src/hooks/use-footer-collision.ts:23 | The fallback "0" reads as 0. |
| FooterCollision.SafeAreaInset | src/hooks/use-footer-collision.ts:20-24 | The trimmed custom property, with an empty value read as "0" and an unreadable one as 0. `InsetReadsLeadingInteger` and `UnreadableInsetIsZero` state its values. |
| FooterCollision.InsetReadsLeadingInteger | src/hooks/use-footer-collision.ts:20-24 | An inset such as "12px" is read as 12. |
| FooterCollision.UnreadableInsetIsZero | src/hooks/use-footer-collision.ts:20-24 | An inset that `parseInt` cannot read counts as 0. |
| FooterCollision.Overlap | src/hooks/use-footer-collision.ts:29-33 | The overlap is the viewport height minus 24, minus the inset, minus the footer's top. The button height cancels out. |
| FooterCollision.Lift | src/hooks/use-footer-collision.ts:35-39 | The lift is the overlap plus 16 when the overlap is positive, and 0 otherwise. So it is either 0 or greater than 16. |
| FooterCollision.Measure | src/hooks/use-footer-collision.ts:13-26 | The geometry read from the page: the parsed inset, and the button's height or the fallback of 56. |
| FooterCollision.Recalculated | src/hooks/use-footer-collision.ts:12-40 | Without a footer the lift is unchanged. With a footer it is the lift for the footer's reach into the button's area. |
| FooterCollision.LiftIgnoresButtonHeight | src/hooks/use-footer-collision.ts:26-33 | The button's height never changes the lift. |
| FooterCollision.LastEntryDecides | src/hooks/use-footer-collision.ts:61-69 | With the footer in the document, only the last entry of an observer batch counts. |
| FooterCollision.LeavingFooterResets | src/hooks/use-footer-collision.ts:63-67 | A batch that ends with a non-intersecting entry leaves no lift. |
| FooterCollision.ObserverFoldSnoc | src/hooks/use-footer-collision.ts:62-68 | The observer's fold over a longer batch is its last entry applied after the rest. |
| FooterCollision.ObserverFold | src/hooks/use-footer-collision.ts:62-68 | The batch applied entry by entry: an intersecting entry recalculates the lift, any other sets it to 0. `LastEntryDecides`, `LeavingFooterResets` and `Tracker.ObserverCallback` state what it yields. |
| FooterCollision.Tracker.constructor | src/hooks/use-footer-collision.ts:49-72 | On mount: one calculation from lift 0, the listeners attached, and an observer only when the footer exists. |
| FooterCollision.Tracker.HandleScroll | src/hooks/use-footer-collision.ts:42-47 | The pending frame is cancelled and one new frame is requested. The new frame is then the only live one. |
| FooterCollision.Tracker.FrameFires | src/hooks/use-footer-collision.ts:12-47 | The live frame runs the calculation on the current page, and no frame remains pending. |
| FooterCollision.Tracker.ObserverCallback | src/hooks/use-footer-collision.ts:61-69 | The loop applies the batch's entries in order. An intersecting entry recalculates and any other resets the lift to 0. |
| FooterCollision.Tracker.Teardown | src/hooks/use-footer-collision.ts:74-90 | The cleanup disconnects the observer, removes the listeners and cancels the pending frame. |
| FooterCollision.AtMostOnePendingFrame | src/hooks/use-footer-collision.ts:42-47 | In every reachable state at most one frame is pending. |
| SiteHeader.ActiveIsPrefix | src/components/layout/SiteHeader.tsx:81 | An active link's path is a prefix of the current path. |
| SiteHeader.IsActive | src/components/layout/SiteHeader.tsx:81 | A link is active if and only if the path is its href, or the path continues past the href with a `/`. |
| SiteHeader.LinksDifferEarly | src/components/layout/SiteHeader.tsx:9-14 | The four links differ in their second character. |
| SiteHeader.ActiveSecondChar | src/components/layout/SiteHeader.tsx:81 | An active link agrees with the path in its second character. |
| SiteHeader.AtMostOneActive | src/components/layout/SiteHeader.tsx:9-128 | For every path at most one of the four links is active. |
| SiteHeader.ActiveExamples | src/components/layout/SiteHeader.tsx:81 | "/services/ai-agents" activates "/services" and "/servicesX" does not. |
| SiteHeader.Header.constructor | src/components/layout/SiteHeader.tsx:17-19 | On mount the header is neither scrolled nor showing the menu. |
| SiteHeader.IsScrolled | src/components/layout/SiteHeader.tsx:22 | The header counts as scrolled past a `scrollY` of 20. `Header.OnScroll` states the flag it sets. |
| SiteHeader.Header.OnScroll | src/components/layout/SiteHeader.tsx:21-25 | `isScrolled` holds if and only if `scrollY` exceeds 20. Nothing else changes. |
| SiteHeader.Header.ToggleMenu | src/components/layout/SiteHeader.tsx:103 | The menu button flips the mobile menu and changes nothing else. |
| SiteHeader.Header.Navigate | src/components/layout/SiteHeader.tsx:27-29 | A change of path closes the menu. A render at the same path keeps it. |
| SiteHeader.Header.MouseMove | src/components/layout/SiteHeader.tsx:32-45 | A move is forwarded if and only if the path is "/" and a canvas is registered. |
| SiteHeader.Header.ActiveLinks | src/components/layout/SiteHeader.tsx:78-130 | The desktop bar and the mobile menu style link i as active exactly when the active rule holds for it. |
| JsText.TrimStart | src/hooks/use-footer-collision.ts:22-23 | Only leading white space is removed, and the rest is a suffix of the input. |
| JsText.Trim | src/components/chat/VoiceAssistantWidget.tsx:93-98 | The result is no longer than the input and neither starts nor ends with white space. |
| JsText.TrimIsSlice | src/components/chat/VoiceAssistantWidget.tsx:98 | The trimmed text is the slice of the input between a leading and a trailing run of white space. |
| JsText.TrimEmptyIff | src/components/chat/VoiceAssistantWidget.tsx:93 | A text trims to empty if and only if every character of it is white space. |
| JsText.TrimIdempotent | src/components/chat/VoiceOrbModal.tsx:118 | Trimming twice is trimming once. |
| JsText.IncludesIff | src/hooks/use-speech.ts:114-116 | `includes` finds exactly the strings that occur at some offset. |
| JsText.JoinAppend | supabase/functions/send-contact-email/index.ts:40 | Joining a concatenation puts one separator between the two joins. |
| JsText.JoinLength | supabase/functions/send-contact-email/index.ts:40 | A join's length is its elements' lengths plus one separator between each pair. |
| JsText.TakeLast | supabase/functions/hyrx-chat/index.ts:156 | `slice(-n)` keeps the last min(length, n) elements, in order. |

## Left out

- **Network, environment and JSON parsing.** `fetch`, `req.json()`, `response.json()`, `response.text()` and `Deno.env` are inputs. Each is a value or a variant of an outcome datatype, not a computation. In `hyrx-chat`, `Unreadable` is the read that throws: `json()` on a 2xx reply, `text()` on any other. The error text itself is only logged, so it is not kept.
- **Logging.** All `console.log` and `console.error` calls are left out.
- **JSON numbers** are integers. Object keys are unique, as `JSON.parse` leaves them.
- **The knowledge base in the chat proxy's system prompt.** `ChatProxy.SystemPrompt` holds only the prompt's first sentence. The rest of the prompt is a fixed text that no rule depends on.
- **zod issues.** Only the issue messages the handler can return are reproduced. The zod paths and codes are not.
- **String lengths.** The 1–4000 limit is counted in `char`s, which are Unicode scalar values. JavaScript counts UTF-16 code units, so a text with characters outside the Basic Multilingual Plane counts longer there.
- **Timers and frames are explicit event methods.** `setTimeout`, `setInterval` and `requestAnimationFrame` become `ErrorTimerElapsed`, `TaskTick`, `LogTick`, `ResetTimerFires` and `FrameFires`. Real time, `TASK_DURATION` and `LOG_INTERVAL` are not modelled.
- **Message ids.** The ids built from `Date.now()` are `Stamped(kind, time)`. Nothing assumes they are unique.
- **The widget's auto-submit.** The 100 ms timer after a voice result is left out. So is the input focus timer. `HandleSpeechResult` only sets the input; a submit is then `BeginSend(inputValue, ...)`.
- **ChatWidget.Widget.SendMessage.** It is modelled as one call at a time. Two sends that both read `isLoading` as false before React re-renders, through the stale closure, are not modelled, and neither are interleaved replies.
- **Currency formatting.** `Intl.NumberFormat` on the ROI page is not modelled. The whole-dollar values it formats are.
- **Rendering and animation.** JSX, framer-motion, the scroll-to-bottom effect and `src/components/ui/voice-powered-orb.tsx` are left out. The orb is WebGL shaders and Web Audio in floating point. `voiceDetected` on the orb modal only feeds that visualisation.
- **Browser detection and globals.** The user-agent regex of the orb modal is left out. The `window.__heroSplineCanvas` global is the `canvasRegistered` input. The re-dispatched `MouseEvent` is the `forwarded` result.
- **Utterance settings.** The rate, pitch, volume and language settings of utterances and recognisers are constants with no rule behind them.
- **Speech.SpeechHook.Speak.** Whether `cancel()` fires `onerror` or `onend` on the utterance it cancels is browser-specific. The cancelled utterance's end event is left out, and `isSpeaking` is changed only by the utterance events.
- **Speech.SpeechHook.OnRecognitionResult.** An event with no first result or no first alternative throws inside the handler. The model treats the throw as changing nothing.
- **VoiceOrb.OrbModal.OnResult.** The result segments carry only their first alternative, the one the handler reads.
- **Effect identity.** The speech and orb effects re-run when their callbacks' identities change. `SetOpen` models a change of `isOpen` only. The user-agent and reduced-motion values are fixed for a component's lifetime.
- **ContactEmail.HandleContact.** If reading a rejected email's `text()` throws, the catch answers 500 with that error's message. The model can only express this through the `NetworkFailure` variant of that send. This holds for the notification and also for the confirmation, where a `text()` that throws turns the tolerated rejection into a 500.
- **ContactEmail.HandleContact.** It formats the services and the budget with the corrected own-key lookups, `ServiceLabel` and `BudgetLabel`. For a tag or budget that names one of the members every object inherits (`toString`, `valueOf`, `constructor` and the others `Object.prototype` carries), the emails it builds show the tag itself. The deployed code shows the member's function text instead, which is the as-written behaviour recorded under "## Findings".
- **Contact submission fields.** `name`, `email` and `company` are only interpolated, so the model takes them as strings. A missing one would print "undefined". A `services` value that is not an array is not modelled. The `RESEND_API_KEY` header is left out.
- **FooterCollision.ParseInt.** A string of more than about 309 digits makes `parseInt` return `Infinity`, which `Number.isFinite` then turns into 0. The model returns the exact integer. It also reads only ASCII digits, as `parseInt` with radix 10 does.
- **Sizes.** The viewport, footer and button sizes are integers. `getBoundingClientRect` can return fractions.

## Findings

| source | as written | input that shows it | evidently intended | confidence | as-written member | corrected member |
|---|---|---|---|---|---|---|
| supabase/functions/send-contact-email/index.ts:34-51 | `labels[s] \|\| s` and `budgetLabels[budget] \|\| budget` index plain object literals. The properties every object inherits from `Object.prototype` are found too. They are truthy functions, so the fallback never applies. | A submission with the service tag "toString", or the budget "valueOf". The email shows "function toString() { [native code] }" where the tag should be. | Only the table's own keys are translated. Every other tag or budget is shown as it was sent. | not executed | ContactEmail.ServiceLabelAsWritten, ContactEmail.BudgetLabelAsWritten, ContactEmail.InheritedTagLeaksIntoEmail, ContactEmail.InheritedBudgetLeaksIntoEmail | ContactEmail.ServiceLabel, ContactEmail.BudgetLabel, ContactEmail.UnknownTagsPassThrough |
