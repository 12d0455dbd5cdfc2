/** The `hyrx-chat` edge function: it validates a chat request, forwards the
    system prompt and the last ten messages to the completion gateway and maps
    the gateway's outcome to an HTTP response. The handler is one decision
    from (verb, parsed body, API key, gateway reply) to a response. */
module ChatProxy {
  import opened Wrappers
  import opened JsText

  /** A JSON value as `req.json()` and `response.json()` produce it.
      Numbers are kept as integers; object keys are unique. */
  datatype Json =
    | JNull
    | JBool(b: bool)
    | JNum(n: int)
    | JStr(s: string)
    | JArr(items: seq<Json>)
    | JObj(fields: map<string, Json>)

  datatype Role = User | Assistant | System

  function RoleName(r: Role): string {
    match r
    case User => "user"
    case Assistant => "assistant"
    case System => "system"
  }

  /** A message that passed validation; the schema strips every key but these two. */
  datatype ChatMessage = ChatMessage(role: Role, content: string)

  const MaxContentLength: nat := 4000
  const MinMessages: nat := 1
  const MaxMessages: nat := 50
  const HistoryLimit: nat := 10

  // ---------------------------------------------------------------------------
  // Request validation (ChatMessageSchema / ChatRequestSchema, zod 3)
  // ---------------------------------------------------------------------------

  /** The type name zod reports for a received value. */
  function ParsedTypeName(j: Json): string {
    match j
    case JNull => "null"
    case JBool(_) => "boolean"
    case JNum(_) => "number"
    case JStr(_) => "string"
    case JArr(_) => "array"
    case JObj(_) => "object"
  }

  /** zod's default message for a value of the wrong type; a missing key is "Required". */
  function InvalidTypeMessage(expected: string, v: Option<Json>): string {
    match v
    case None => "Required"
    case Some(j) => "Expected " + expected + ", received " + ParsedTypeName(j)
  }

  /** The enum's options as zod lists them in its messages. */
  const RoleOptions: string := "'user' | 'assistant' | 'system'"

  /** `obj[key]` on a parsed JSON object. */
  function Field(j: Json, key: string): Option<Json>
    requires j.JObj?
  {
    if key in j.fields then Some(j.fields[key]) else None
  }

  /** `z.enum(["user", "assistant", "system"])`. */
  function ParseRole(v: Option<Json>): (r: Result<Role, string>)
    ensures r.Ok? <==> v.Some? && v.value.JStr? && v.value.s in {"user", "assistant", "system"}
    ensures r.Ok? ==> RoleName(r.value) == v.value.s
  {
    match v
    case Some(JStr(s)) =>
      if s == "user" then Ok(User)
      else if s == "assistant" then Ok(Assistant)
      else if s == "system" then Ok(System)
      else Err("Invalid enum value. Expected " + RoleOptions + ", received '" + s + "'")
    case _ => Err(InvalidTypeMessage(RoleOptions, v))
  }

  /** The issues of `z.string().min(1, ...).max(4000, ...)`, in zod's order. */
  function ContentIssues(v: Option<Json>): (r: seq<string>)
    ensures r == [] <==> v.Some? && v.value.JStr? && 1 <= |v.value.s| <= MaxContentLength
  {
    match v
    case Some(JStr(s)) =>
      (if |s| < 1 then ["Message cannot be empty"] else [])
      + (if |s| > MaxContentLength then ["Message too long"] else [])
    case _ => [InvalidTypeMessage("string", v)]
  }

  /** One element of the `messages` array: an object whose `role` and `content`
      are checked in that order, each contributing its own issues. */
  function ParseElement(e: Json): (r: Result<ChatMessage, seq<string>>)
    ensures r.Err? ==> r.error != [] && r.error[0] != ""
  {
    if !e.JObj? then Err([InvalidTypeMessage("object", Some(e))])
    else
      var role := ParseRole(Field(e, "role"));
      var content := ContentIssues(Field(e, "content"));
      var issues := (if role.Err? then [role.error] else []) + content;
      if issues == [] then Ok(ChatMessage(role.value, Field(e, "content").value.s))
      else Err(issues)
  }

  /** Every element parsed in order; the issues of all failing elements are collected. */
  function ParseItems(items: seq<Json>): (r: Result<seq<ChatMessage>, seq<string>>)
    ensures r.Ok? ==> |r.value| == |items|
    ensures r.Err? ==> r.error != [] && r.error[0] != ""
  {
    if items == [] then Ok([])
    else
      match (ParseElement(items[0]), ParseItems(items[1..]))
      case (Ok(m), Ok(ms)) => Ok([m] + ms)
      case (Ok(_), Err(es)) => Err(es)
      case (Err(e), Ok(_)) => Err(e)
      case (Err(e), Err(es)) => Err(e + es)
  }

  /** The array-length issues, which zod reports before any element issue. */
  function LengthIssues(n: nat): seq<string> {
    (if n < MinMessages then ["At least one message required"] else [])
    + (if n > MaxMessages then ["Too many messages in history"] else [])
  }

  /** `ChatRequestSchema.safeParse(body)`: the validated messages, or every issue in order. */
  function Validate(body: Json): (r: Result<seq<ChatMessage>, seq<string>>)
    ensures r.Err? ==> r.error != [] && r.error[0] != ""
  {
    if !body.JObj? then Err([InvalidTypeMessage("object", Some(body))])
    else
      match Field(body, "messages")
      case Some(JArr(items)) =>
        var length := LengthIssues(|items|);
        (match ParseItems(items)
         case Ok(ms) => if length == [] then Ok(ms) else Err(length)
         case Err(es) => Err(length + es))
      case v => Err([InvalidTypeMessage("array", v)])
  }

  /** The schema's rule for one message, stated independently of the parser. */
  predicate AcceptableMessage(e: Json) {
    && e.JObj?
    && "role" in e.fields && e.fields["role"].JStr?
    && e.fields["role"].s in {"user", "assistant", "system"}
    && "content" in e.fields && e.fields["content"].JStr?
    && 1 <= |e.fields["content"].s| <= MaxContentLength
  }

  /** The schema's rule for a request body: an object whose `messages` is an
      array of 1 to 50 acceptable messages. */
  predicate Acceptable(body: Json) {
    && body.JObj?
    && "messages" in body.fields && body.fields["messages"].JArr?
    && MinMessages <= |body.fields["messages"].items| <= MaxMessages
    && forall k :: 0 <= k < |body.fields["messages"].items| ==>
         AcceptableMessage(body.fields["messages"].items[k])
  }

  /** The parsed message `m` carries the role and content of the JSON element `e`. */
  predicate Mirrors(m: ChatMessage, e: Json) {
    e.JObj? && "role" in e.fields && "content" in e.fields
    && e.fields["role"] == JStr(RoleName(m.role)) && e.fields["content"] == JStr(m.content)
  }

  lemma ParseElementOkIff(e: Json)
    ensures ParseElement(e).Ok? <==> AcceptableMessage(e)
    ensures ParseElement(e).Ok? ==> Mirrors(ParseElement(e).value, e)
  {
  }

  lemma {:induction false} ParseItemsOkIff(items: seq<Json>)
    ensures ParseItems(items).Ok? <==> forall k :: 0 <= k < |items| ==> AcceptableMessage(items[k])
    ensures ParseItems(items).Ok? ==>
      forall k :: 0 <= k < |items| ==> Mirrors(ParseItems(items).value[k], items[k])
  {
    if items != [] {
      var rest := items[1..];
      var head := ParseElement(items[0]);
      var tail := ParseItems(rest);
      ParseElementOkIff(items[0]);
      ParseItemsOkIff(rest);
      assert forall k :: 1 <= k < |items| ==> items[k] == rest[k - 1];
      assert ParseItems(items).Ok? <==> head.Ok? && tail.Ok?;
      if head.Ok? && tail.Ok? {
        var ms := ParseItems(items).value;
        assert ms == [head.value] + tail.value;
        assert forall k :: 1 <= k < |items| ==> ms[k] == tail.value[k - 1];
      }
    }
  }

  /** A body is accepted exactly when it has 1 to 50 messages, each with a role in
      {user, assistant, system} and a content of 1 to 4000 characters; the accepted
      messages are the body's, in order, reduced to role and content. */
  lemma ValidateAcceptsExactly(body: Json)
    ensures Validate(body).Ok? <==> Acceptable(body)
    ensures Validate(body).Ok? ==>
      var items := body.fields["messages"].items;
      && |Validate(body).value| == |items|
      && forall k :: 0 <= k < |items| ==> Mirrors(Validate(body).value[k], items[k])
  {
    if body.JObj? && "messages" in body.fields && body.fields["messages"].JArr? {
      ParseItemsOkIff(body.fields["messages"].items);
    }
  }

  /** The length checks come first: an empty history and an over-long one are
      reported with their own messages, whatever the elements hold. */
  lemma LengthIssueComesFirst(items: seq<Json>)
    requires |items| < MinMessages || |items| > MaxMessages
    ensures var body := JObj(map["messages" := JArr(items)]);
      && Validate(body).Err?
      && Validate(body).error[0] ==
           if |items| < MinMessages then "At least one message required"
           else "Too many messages in history"
  {
  }

  // ---------------------------------------------------------------------------
  // The handler
  // ---------------------------------------------------------------------------

  /** The request body: `req.json()` either throws or yields a JSON value. */
  datatype RequestBody = Malformed | Body(json: Json)

  /** The gateway's body as the handler reads it: `response.text()` on a
      non-2xx reply, `response.json()` on a 2xx one. Either read can throw
      (`Unreadable`); the text of an error body is only logged, so any
      `Payload` stands for a text that was read. */
  datatype UpstreamPayload = Unreadable | Payload(json: Json)

  /** What the gateway call came back with: `fetch` threw, or a status and a body. */
  datatype UpstreamReply = NetworkError | Reply(status: int, payload: UpstreamPayload)

  /** The CORS headers alone, or the CORS headers plus `Content-Type: application/json`. */
  datatype Headers = CorsOnly | CorsJson

  datatype ResponseBody = NoBody | ErrorBody(error: string) | MessageBody(message: Json)

  /** The body of the gateway request. */
  datatype UpstreamRequest = UpstreamRequest(model: string, messages: seq<ChatMessage>, maxTokens: int)

  /** The response, and the gateway request the handler made on the way (None: no call). */
  datatype Response = Response(status: int, headers: Headers, body: ResponseBody, forwarded: Option<UpstreamRequest>)

  const GatewayModel: string := "google/gemini-2.5-flash"
  const MaxTokens: int := 500

  /** The opening sentence of the system prompt; the knowledge-base text that
      follows it in the source is not reproduced. */
  const SystemPrompt: string := "You are HYRX Assistant, a helpful AI assistant for HYRX - an AI studio."

  const InvalidInput: string := "Invalid input"
  const NotConfigured: string := "AI service not configured"
  const RateLimited: string := "Too many requests. Please try again in a moment."
  const PaymentRequired: string := "AI service temporarily unavailable. Please contact us directly at hyrx.aistudio@gmail.com"
  const GatewayFailed: string := "AI service error. Please try again or contact us directly."
  const NoContent: string := "No response from AI"
  const Unexpected: string := "Something went wrong. Please try again or contact us at hyrx.aistudio@gmail.com"

  /** `firstError?.message || "Invalid input"`. */
  function FirstIssueMessage(issues: seq<string>): (r: string)
    ensures r != ""
    ensures issues != [] && issues[0] != "" ==> r == issues[0]
  {
    if issues != [] && issues[0] != "" then issues[0] else InvalidInput
  }

  /** `!LOVABLE_API_KEY` is false: the variable is set and not empty. */
  predicate KeyConfigured(apiKey: Option<string>) {
    apiKey.Some? && apiKey.value != ""
  }

  /** `Response.ok`: a 2xx status. */
  predicate IsOk(status: int) {
    200 <= status <= 299
  }

  /** JavaScript truthiness of a possibly missing JSON value. */
  predicate Truthy(v: Option<Json>) {
    match v
    case None => false
    case Some(JNull) => false
    case Some(JBool(b)) => b
    case Some(JNum(n)) => n != 0
    case Some(JStr(s)) => s != ""
    case Some(_) => true
  }

  /** Optional-chained property access `v?.[key]` on a JSON value: missing and
      null short-circuit; arrays and strings answer the index "0". */
  function Member(v: Option<Json>, key: string): Option<Json> {
    match v
    case None => None
    case Some(JObj(f)) => if key in f then Some(f[key]) else None
    case Some(JArr(items)) => if key == "0" && items != [] then Some(items[0]) else None
    case Some(JStr(s)) => if key == "0" && s != [] then Some(JStr([s[0]])) else None
    case Some(_) => None
  }

  /** `data.choices?.[0]?.message?.content` for a `data` that is not null
      (`data.choices` on null throws). */
  function ReplyContent(data: Json): Option<Json>
    requires !data.JNull?
  {
    Member(Member(Member(Member(Some(data), "choices"), "0"), "message"), "content")
  }

  /** The JSON error response with the given status. */
  function Failure(status: int, error: string, forwarded: Option<UpstreamRequest>): Response {
    Response(status, CorsJson, ErrorBody(error), forwarded)
  }

  /** Everything after the gateway call was made with `request`. */
  function AfterGateway(reply: UpstreamReply, request: UpstreamRequest): (r: Response)
    ensures r.forwarded == Some(request)
  {
    var sent := Some(request);
    match reply
    case NetworkError => Failure(500, Unexpected, sent)
    case Reply(status, payload) =>
      if !IsOk(status) then
        if payload.Unreadable? then Failure(500, Unexpected, sent)
        else if status == 429 then Failure(429, RateLimited, sent)
        else if status == 402 then Failure(402, PaymentRequired, sent)
        else Failure(500, GatewayFailed, sent)
      else
        match payload
        case Unreadable => Failure(500, Unexpected, sent)
        case Payload(data) =>
          if data.JNull? then Failure(500, Unexpected, sent)
          else
            var content := ReplyContent(data);
            if !Truthy(content) then Failure(500, NoContent, sent)
            else Response(200, CorsJson, MessageBody(content.value), sent)
  }

  /** The gateway request for a validated history: the system prompt followed by
      the last ten messages. */
  function GatewayRequest(messages: seq<ChatMessage>): UpstreamRequest {
    UpstreamRequest(GatewayModel, [ChatMessage(System, SystemPrompt)] + TakeLast(messages, HistoryLimit), MaxTokens)
  }

  /** The whole handler. */
  function HandleChat(verb: string, body: RequestBody, apiKey: Option<string>, reply: UpstreamReply): (r: Response)
    ensures r.status in {200, 400, 402, 429, 500}
    ensures r.headers == CorsOnly <==> verb == "OPTIONS"
    ensures r.body.MessageBody? ==> r.status == 200 && r.forwarded.Some?
  {
    if verb == "OPTIONS" then Response(200, CorsOnly, NoBody, None)
    else
      match body
      case Malformed => Failure(500, Unexpected, None)
      case Body(json) =>
        match Validate(json)
        case Err(issues) => Failure(400, FirstIssueMessage(issues), None)
        case Ok(messages) =>
          if !KeyConfigured(apiKey) then Failure(500, NotConfigured, None)
          else AfterGateway(reply, GatewayRequest(messages))
  }

  // ---------------------------------------------------------------------------
  // Properties of the handler
  // ---------------------------------------------------------------------------

  /** A preflight gets an empty body and the CORS headers, before any parsing. */
  lemma PreflightShortCircuits(body: RequestBody, apiKey: Option<string>, reply: UpstreamReply)
    ensures HandleChat("OPTIONS", body, apiKey, reply) == Response(200, CorsOnly, NoBody, None)
  {
  }

  /** A body that fails the schema gets 400 with the first issue's message, and
      the gateway is not called, whatever the key and the gateway would do. */
  lemma RejectedBodyIs400(verb: string, json: Json, apiKey: Option<string>, reply: UpstreamReply)
    requires verb != "OPTIONS" && !Acceptable(json)
    ensures Validate(json).Err?
    ensures HandleChat(verb, Body(json), apiKey, reply)
         == Failure(400, Validate(json).error[0], None)
  {
    ValidateAcceptsExactly(json);
  }

  /** The key is checked only after validation: an accepted body without a key
      gets 500 "AI service not configured" and no gateway call. */
  lemma MissingKeyIs500(verb: string, json: Json, apiKey: Option<string>, reply: UpstreamReply)
    requires verb != "OPTIONS" && Acceptable(json) && !KeyConfigured(apiKey)
    ensures HandleChat(verb, Body(json), apiKey, reply) == Failure(500, NotConfigured, None)
  {
    ValidateAcceptsExactly(json);
  }

  /** A gateway call is made exactly for a non-preflight, accepted body with a
      key; it carries the system prompt and then the last min(n, 10) messages of
      the body, in their original order. */
  lemma ForwardsSystemPromptAndLastTen(verb: string, body: RequestBody, apiKey: Option<string>, reply: UpstreamReply)
    ensures var r := HandleChat(verb, body, apiKey, reply);
      r.forwarded.Some? <==> verb != "OPTIONS" && body.Body? && Acceptable(body.json) && KeyConfigured(apiKey)
    ensures var r := HandleChat(verb, body, apiKey, reply);
      r.forwarded.Some? ==>
        var items := body.json.fields["messages"].items;
        var sent := r.forwarded.value.messages;
        var m := if |items| < HistoryLimit then |items| else HistoryLimit;
        && r.forwarded.value.model == GatewayModel
        && r.forwarded.value.maxTokens == MaxTokens
        && |sent| == 1 + m
        && sent[0] == ChatMessage(System, SystemPrompt)
        && forall j :: 1 <= j < |sent| ==> Mirrors(sent[j], items[|items| - m + j - 1])
  {
    if verb != "OPTIONS" && body.Body? {
      ValidateAcceptsExactly(body.json);
    }
  }

  /** A non-2xx gateway status whose error text was read maps 429 to 429 and
      402 to 402 and everything else to 500, each with its fixed message; when
      reading that text throws, the catch answers 500 with the generic message. */
  lemma GatewayStatusMapping(status: int, payload: UpstreamPayload, request: UpstreamRequest)
    requires !IsOk(status)
    ensures var r := AfterGateway(Reply(status, payload), request);
      payload.Payload? ==>
      && r.status == (if status == 429 then 429 else if status == 402 then 402 else 500)
      && r.body == ErrorBody(if status == 429 then RateLimited
                             else if status == 402 then PaymentRequired
                             else GatewayFailed)
    ensures payload.Unreadable? ==> AfterGateway(Reply(status, payload), request) == Failure(500, Unexpected, Some(request))
  {
  }

  /** A 2xx reply whose `choices[0].message.content` is missing or falsy gets 500
      "No response from AI"; otherwise the content is returned with status 200. */
  lemma SuccessfulReplyMapping(status: int, data: Json, request: UpstreamRequest)
    requires IsOk(status) && !data.JNull?
    ensures var r := AfterGateway(Reply(status, Payload(data)), request);
      if Truthy(ReplyContent(data)) then r == Response(200, CorsJson, MessageBody(ReplyContent(data).value), Some(request))
      else r == Failure(500, NoContent, Some(request))
  {
  }

  /** The exception paths: an unreadable request, a failed fetch, an unreadable
      gateway body and a null gateway body all get 500 with the generic message. */
  lemma ExceptionsAre500(verb: string, json: Json, apiKey: Option<string>, status: int)
    requires verb != "OPTIONS"
    ensures HandleChat(verb, Malformed, apiKey, NetworkError) == Failure(500, Unexpected, None)
    ensures Acceptable(json) && KeyConfigured(apiKey) ==>
      && HandleChat(verb, Body(json), apiKey, NetworkError).body == ErrorBody(Unexpected)
      && HandleChat(verb, Body(json), apiKey, Reply(status, Unreadable)).body == ErrorBody(Unexpected)
      && (IsOk(status) ==> HandleChat(verb, Body(json), apiKey, Reply(status, Payload(JNull))).body == ErrorBody(Unexpected))
  {
    ValidateAcceptsExactly(json);
  }

  /** Concretely: a body whose one message has an empty content is refused with
      zod's custom message. */
  lemma EmptyContentMessage()
    ensures var body := JObj(map["messages" := JArr([JObj(map["role" := JStr("user"), "content" := JStr("")])])]);
      HandleChat("POST", Body(body), Some("key"), NetworkError) == Failure(400, "Message cannot be empty", None)
  {
    var e := JObj(map["role" := JStr("user"), "content" := JStr("")]);
    assert Field(e, "role") == Some(JStr("user"));
    assert Field(e, "content") == Some(JStr(""));
    assert ParseRole(Some(JStr("user"))) == Ok(User);
    assert ContentIssues(Some(JStr(""))) == ["Message cannot be empty"];
    var none: seq<string> := [];
    assert none + ["Message cannot be empty"] == ["Message cannot be empty"];
    assert ParseElement(e) == Err(["Message cannot be empty"]);
    assert ParseItems([e]) == Err(["Message cannot be empty"]);
  }
}
