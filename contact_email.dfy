/** The `send-contact-email` function: it formats a contact-form submission
    into a notification for the studio's inbox and a confirmation for the
    submitter, and sends them in that order. Each send's outcome is an input;
    the emails the handler attempts are part of its result. */
module ContactEmail {
  import opened Wrappers
  import opened JsText

  /** The labels `services.map` looks up; any other tag is kept as it is. */
  const ServiceLabels: map<string, string> := map[
    "ai-agents" := "AI Agents & Automations",
    "chatbots" := "Custom AI Chatbots",
    "3d-ar" := "3D & AR Modelling"
  ]

  /** The budget ranges the form offers, by key. */
  const BudgetLabels: map<string, string> := map[
    "15k-30k" := "$15,000 - $30,000",
    "30k-50k" := "$30,000 - $50,000",
    "50k-100k" := "$50,000 - $100,000",
    "100k+" := "$100,000+",
    "not-sure" := "Not sure yet"
  ]

  const NotSpecified: string := "Not specified"
  const NotProvided: string := "Not provided"
  const Sender: string := "HXY Studio <onboarding@resend.dev>"
  const BusinessInbox: string := "hyrx.aistudio@gmail.com"
  const NotificationSubjectPrefix: string := "New Contact Form Submission from "
  const ConfirmationSubject: string := "We received your message!"
  const NotificationFailurePrefix: string := "Failed to send notification email: "
  const ServicesTypeError: string := "Cannot read properties of undefined (reading 'length')"
  const MessageTypeError: string := "Cannot read properties of undefined (reading 'replace')"

  /** `labels[s] || s`, reading only the labels the table itself defines. */
  function ServiceLabel(tag: string): (r: string)
    ensures tag in ServiceLabels ==> r == ServiceLabels[tag]
    ensures tag !in ServiceLabels ==> r == tag
  {
    if tag in ServiceLabels then ServiceLabels[tag] else tag
  }

  /** Every tag of `tags` replaced by its label, in order. */
  function Labelled(tags: seq<string>): (r: seq<string>)
    ensures |r| == |tags|
    ensures forall i :: 0 <= i < |tags| ==> r[i] == ServiceLabel(tags[i])
  {
    if tags == [] then [] else [ServiceLabel(tags[0])] + Labelled(tags[1..])
  }

  /** The "Services of Interest" text. */
  function ServicesList(services: seq<string>): (r: string)
    ensures services == [] ==> r == NotSpecified
    ensures |services| == 1 ==> r == ServiceLabel(services[0])
  {
    if |services| > 0 then Join(Labelled(services), ", ") else NotSpecified
  }

  /** Two lists of tags in a row give their two services texts joined by one
      ", ": the order of the selection is kept and nothing is added. */
  lemma ServicesListAppend(a: seq<string>, b: seq<string>)
    requires a != [] && b != []
    ensures ServicesList(a + b) == ServicesList(a) + ", " + ServicesList(b)
  {
    LabelledAppend(a, b);
    JoinAppend(Labelled(a), Labelled(b), ", ");
  }

  /** Labelling works tag by tag. */
  lemma LabelledAppend(a: seq<string>, b: seq<string>)
    ensures Labelled(a + b) == Labelled(a) + Labelled(b)
  {
    var l, r := Labelled(a + b), Labelled(a) + Labelled(b);
    forall i | 0 <= i < |l| ensures l[i] == r[i] {
      if i < |a| {
        assert (a + b)[i] == a[i];
      } else {
        assert (a + b)[i] == b[i - |a|];
      }
    }
  }

  /** `budgetLabels[budget] || budget || "Not specified"`: the range for a
      known key, else the raw value when it is not empty, else the default. */
  function BudgetLabel(budget: Option<string>): (r: string)
    ensures budget.Some? && budget.value in BudgetLabels ==> r == BudgetLabels[budget.value]
    ensures budget.Some? && budget.value !in BudgetLabels && budget.value != "" ==> r == budget.value
    ensures budget.None? || budget.value == "" ==> r == NotSpecified
    ensures r != ""
  {
    match budget
    case None => NotSpecified
    case Some(b) => if b in BudgetLabels then BudgetLabels[b] else if b != "" then b else NotSpecified
  }

  /** `message.replace(/\n/g, "<br>")`. */
  function ReplaceNewlines(s: string): (r: string)
    ensures '\n' !in r
    ensures |r| >= |s|
  {
    if s == [] then ""
    else (if s[0] == '\n' then "<br>" else [s[0]]) + ReplaceNewlines(s[1..])
  }

  /** The replacement works piece by piece: it distributes over concatenation. */
  lemma {:induction false} ReplaceNewlinesAppend(a: string, b: string)
    ensures ReplaceNewlines(a + b) == ReplaceNewlines(a) + ReplaceNewlines(b)
  {
    if a == [] {
      assert a + b == b;
    } else {
      var head := if a[0] == '\n' then "<br>" else [a[0]];
      assert (a + b)[0] == a[0];
      assert (a + b)[1..] == a[1..] + b;
      ReplaceNewlinesAppend(a[1..], b);
      calc {
        ReplaceNewlines(a + b);
        head + ReplaceNewlines(a[1..] + b);
        head + (ReplaceNewlines(a[1..]) + ReplaceNewlines(b));
        (head + ReplaceNewlines(a[1..])) + ReplaceNewlines(b);
      }
    }
  }

  /** A text without line breaks is left exactly as it is. */
  lemma {:induction false} ReplaceNewlinesIdentity(s: string)
    requires '\n' !in s
    ensures ReplaceNewlines(s) == s
  {
    if s != [] {
      assert s[1..] == s[1..];
      assert forall c :: c in s[1..] ==> c in s;
      ReplaceNewlinesIdentity(s[1..]);
    }
  }

  /** Each line break grows the text by three characters ("<br>" for "\n"). */
  lemma {:induction false} ReplaceNewlinesLength(s: string)
    ensures |ReplaceNewlines(s)| == |s| + 3 * multiset(s)['\n']
  {
    if s != [] {
      assert s == [s[0]] + s[1..];
      assert multiset(s) == multiset([s[0]]) + multiset(s[1..]);
      ReplaceNewlinesLength(s[1..]);
    }
  }

  /** A submission as `req.json()` destructured it. Absent keys are `None`;
      `name` and `email` are only interpolated, so they are plain strings. */
  datatype Submission = Submission(
    name: string,
    email: string,
    company: Option<string>,
    services: Option<seq<string>>,
    budget: Option<string>,
    message: Option<string>)

  /** A request body that `req.json()` parses and destructures, or the
      message of the exception it throws on the way. */
  datatype ContactRequest = Unreadable(errorMessage: string) | Parsed(submission: Submission)

  /** How a call to the email API ended: a 2xx, a non-2xx with its response
      text, or a `fetch` that threw with a message. */
  datatype SendResult = Delivered | Rejected(responseText: string) | NetworkFailure(message: string)

  /** The JSON body posted to the email API. A `None` reply-to is left out. */
  datatype Email = Email(from: string, to: seq<string>, replyTo: Option<string>, subject: string, html: string)

  datatype Headers = CorsOnly | CorsJson
  datatype ReplyBody = NoBody | SuccessBody | ErrorBody(error: string)
  datatype Reply = Reply(status: int, headers: Headers, body: ReplyBody)

  /** The HTTP reply and the emails posted, in the order they were posted. */
  datatype Outcome = Outcome(reply: Reply, attempted: seq<Email>)

  /** `company || "Not provided"`. */
  function CompanyText(company: Option<string>): (r: string)
    ensures r != ""
    ensures company.Some? && company.value != "" ==> r == company.value
    ensures !(company.Some? && company.value != "") ==> r == NotProvided
  {
    if company.Some? && company.value != "" then company.value else NotProvided
  }

  // The fixed text between the interpolations of the two templates.
  const NotificationHead: string := "\n          <h1>New Contact Form Submission</h1>\n          <p><strong>Name:</strong> "
  const NotificationEmail: string := "</p>\n          <p><strong>Email:</strong> "
  const NotificationCompany: string := "</p>\n          <p><strong>Company:</strong> "
  const NotificationServices: string := "</p>\n          <p><strong>Services of Interest:</strong> "
  const BudgetLine: string := "</p>\n          <p><strong>Budget Range:</strong> "
  const NotificationMessage: string := "</p>\n          <h2>Message:</h2>\n          <p>"
  const NotificationTail: string := "</p>\n        "
  const ConfirmationHead: string := "\n          <h1>Thank you for contacting us, "
  const ConfirmationServices: string := "!</h1>\n          <p>We have received your message and will get back to you within 1-2 business days.</p>\n          <h2>Your submission:</h2>\n          <p><strong>Services of Interest:</strong> "
  const ConfirmationMessage: string := "</p>\n          <p><strong>Message:</strong></p>\n          <p>"
  const ConfirmationTail: string := "</p>\n          <br>\n          <p>Best regards,<br>The HXY Studio Team</p>\n        "

  function NotificationHtml(s: Submission, services: string, budget: string, body: string): string {
    NotificationHead + s.name + NotificationEmail + s.email + NotificationCompany + CompanyText(s.company)
    + NotificationServices + services + BudgetLine + budget + NotificationMessage + body + NotificationTail
  }

  function ConfirmationHtml(s: Submission, services: string, budget: string, body: string): string {
    ConfirmationHead + s.name + ConfirmationServices + services + BudgetLine + budget
    + ConfirmationMessage + body + ConfirmationTail
  }

  /** The email to the studio: to its inbox, replying to the submitter. */
  function Notification(s: Submission, services: string, budget: string, body: string): (e: Email)
    ensures e.from == Sender && e.to == [BusinessInbox] && e.replyTo == Some(s.email)
    ensures StartsWith(e.subject, NotificationSubjectPrefix)
    ensures e.subject[|NotificationSubjectPrefix|..] == s.name
  {
    Email(Sender, [BusinessInbox], Some(s.email), NotificationSubjectPrefix + s.name,
      NotificationHtml(s, services, budget, body))
  }

  /** The email to the submitter. */
  function Confirmation(s: Submission, services: string, budget: string, body: string): (e: Email)
    ensures e.from == Sender && e.to == [s.email] && e.replyTo == None
    ensures e.subject == ConfirmationSubject
  {
    Email(Sender, [s.email], None, ConfirmationSubject, ConfirmationHtml(s, services, budget, body))
  }

  function Failed(error: string): Reply {
    Reply(500, CorsJson, ErrorBody(error))
  }

  /** The handler. Preflight answers with the CORS headers alone. Otherwise
      a failure to read the body, or a missing `services` or `message`,
      ends in a 500 before any email; then the notification is posted, and
      a failed one ends in a 500 without a confirmation; then the
      confirmation is posted, and only a `fetch` that throws turns it into
      a 500, a rejected confirmation still being a success. */
  function HandleContact(verb: string, request: ContactRequest, notified: SendResult, confirmed: SendResult): (o: Outcome)
    ensures o.reply.status == 200 || o.reply.status == 500
    ensures o.reply.headers == CorsOnly <==> verb == "OPTIONS"
    ensures |o.attempted| <= 2
    ensures o.reply.body == SuccessBody ==> o.reply.status == 200 && |o.attempted| == 2
  {
    if verb == "OPTIONS" then Outcome(Reply(200, CorsOnly, NoBody), [])
    else match request
      case Unreadable(m) => Outcome(Failed(m), [])
      case Parsed(s) =>
        if s.services.None? then Outcome(Failed(ServicesTypeError), [])
        else if s.message.None? then Outcome(Failed(MessageTypeError), [])
        else
          var services := ServicesList(s.services.value);
          var budget := BudgetLabel(s.budget);
          var body := ReplaceNewlines(s.message.value);
          var n := Notification(s, services, budget, body);
          var c := Confirmation(s, services, budget, body);
          match notified
          case NetworkFailure(m) => Outcome(Failed(m), [n])
          case Rejected(t) => Outcome(Failed(NotificationFailurePrefix + t), [n])
          case Delivered =>
            match confirmed
            case NetworkFailure(m) => Outcome(Failed(m), [n, c])
            case _ => Outcome(Reply(200, CorsJson, SuccessBody), [n, c])
  }

  /** A submission the handler can format: both `services` and `message` present. */
  predicate Complete(s: Submission) {
    s.services.Some? && s.message.Some?
  }

  /** Preflight: the CORS headers only, no body, no email. */
  lemma PreflightOnlyCors(request: ContactRequest, notified: SendResult, confirmed: SendResult)
    ensures HandleContact("OPTIONS", request, notified, confirmed) == Outcome(Reply(200, CorsOnly, NoBody), [])
  {
  }

  /** The notification is always the first email and goes to the studio;
      the confirmation, when posted, is the second and goes to the submitter;
      no email is posted for a body that cannot be formatted. */
  lemma SendOrder(verb: string, s: Submission, notified: SendResult, confirmed: SendResult)
    requires verb != "OPTIONS"
    ensures var o := HandleContact(verb, Parsed(s), notified, confirmed);
      && (o.attempted == [] <==> !Complete(s))
      && (o.attempted != [] ==> o.attempted[0].to == [BusinessInbox] && o.attempted[0].replyTo == Some(s.email))
      && (|o.attempted| == 2 <==> Complete(s) && notified == Delivered)
      && (|o.attempted| == 2 ==> o.attempted[1].to == [s.email])
  {
  }

  /** A notification that fails ends the request with a 500 carrying the
      failure, and the confirmation is never posted. */
  lemma NotificationFailureAborts(verb: string, s: Submission, notified: SendResult, confirmed: SendResult)
    requires verb != "OPTIONS" && Complete(s) && notified != Delivered
    ensures var o := HandleContact(verb, Parsed(s), notified, confirmed);
      && |o.attempted| == 1
      && o.reply == Failed(if notified.Rejected? then NotificationFailurePrefix + notified.responseText else notified.message)
  {
  }

  /** Once the notification is delivered the request succeeds unless posting
      the confirmation throws; a rejected confirmation is tolerated. */
  lemma ConfirmationFailureTolerated(verb: string, s: Submission, confirmed: SendResult)
    requires verb != "OPTIONS" && Complete(s)
    ensures var o := HandleContact(verb, Parsed(s), Delivered, confirmed);
      && |o.attempted| == 2
      && (o.reply == Reply(200, CorsJson, SuccessBody) <==> !confirmed.NetworkFailure?)
  {
  }

  /** The notification's subject contains the name and its html the body. */
  lemma NotificationCarries(s: Submission, services: string, budget: string, body: string)
    ensures Includes(Notification(s, services, budget, body).subject, s.name)
    ensures Includes(Notification(s, services, budget, body).html, body)
  {
    var e := Notification(s, services, budget, body);
    assert OccursAt(e.subject, s.name, |NotificationSubjectPrefix|);
    IncludesIff(e.subject, s.name);
    var head := NotificationHead + s.name + NotificationEmail + s.email + NotificationCompany
      + CompanyText(s.company) + NotificationServices + services + BudgetLine + budget + NotificationMessage;
    assert e.html == head + body + NotificationTail;
    assert OccursAt(e.html, body, |head|);
    IncludesIff(e.html, body);
  }

  /** The confirmation's html contains the body. */
  lemma ConfirmationCarries(s: Submission, services: string, budget: string, body: string)
    ensures Includes(Confirmation(s, services, budget, body).html, body)
  {
    var e := Confirmation(s, services, budget, body);
    var head := ConfirmationHead + s.name + ConfirmationServices + services + BudgetLine + budget
      + ConfirmationMessage;
    assert e.html == head + body + ConfirmationTail;
    assert OccursAt(e.html, body, |head|);
    IncludesIff(e.html, body);
  }

  /** Both emails carry the submitter's message with its line breaks turned
      into "<br>", and the notification's subject contains the name. */
  lemma EmailsCarryTheSubmission(verb: string, s: Submission, confirmed: SendResult)
    requires verb != "OPTIONS" && Complete(s)
    ensures var o := HandleContact(verb, Parsed(s), Delivered, confirmed);
      && Includes(o.attempted[0].subject, s.name)
      && Includes(o.attempted[0].html, ReplaceNewlines(s.message.value))
      && Includes(o.attempted[1].html, ReplaceNewlines(s.message.value))
  {
    var body := ReplaceNewlines(s.message.value);
    var services := ServicesList(s.services.value);
    var budget := BudgetLabel(s.budget);
    NotificationCarries(s, services, budget, body);
    ConfirmationCarries(s, services, budget, body);
    var o := HandleContact(verb, Parsed(s), Delivered, confirmed);
    assert o.attempted == [Notification(s, services, budget, body), Confirmation(s, services, budget, body)];
  }

  /** A body missing `services` or `message` fails with the runtime's
      TypeError before any email is posted. */
  lemma IncompleteSubmissionFails(verb: string, s: Submission, notified: SendResult, confirmed: SendResult)
    requires verb != "OPTIONS" && !Complete(s)
    ensures HandleContact(verb, Parsed(s), notified, confirmed)
      == Outcome(Failed(if s.services.None? then ServicesTypeError else MessageTypeError), [])
  {
  }

  // ---------------------------------------------------------------------
  // The lookups as written. `labels` and `budgetLabels` are plain object
  // literals, so `labels[s]` also finds the properties every object inherits
  // from `Object.prototype`; those are functions (or, for "__proto__", the
  // prototype itself), all truthy, so `|| s` never applies and the email
  // shows their string form.

  /** The string form of `{}[key]` for the keys a plain object inherits. */
  const Inherited: map<string, string> := map[
    "__proto__" := "[object Object]",
    "constructor" := "function Object() { [native code] }",
    "toLocaleString" := "function toLocaleString() { [native code] }",
    "hasOwnProperty" := "function hasOwnProperty() { [native code] }",
    "isPrototypeOf" := "function isPrototypeOf() { [native code] }",
    "propertyIsEnumerable" := "function propertyIsEnumerable() { [native code] }",
    "__defineGetter__" := "function __defineGetter__() { [native code] }",
    "__defineSetter__" := "function __defineSetter__() { [native code] }",
    "__lookupGetter__" := "function __lookupGetter__() { [native code] }",
    "__lookupSetter__" := "function __lookupSetter__() { [native code] }",
    "valueOf" := "function valueOf() { [native code] }",
    "toString" := "function toString() { [native code] }"
  ]

  function InheritedProperty(key: string): Option<string> {
    if key in Inherited then Some(Inherited[key]) else None
  }

  /** `labels[s] || s` as the runtime evaluates it. */
  function ServiceLabelAsWritten(tag: string): (r: string)
    ensures tag in ServiceLabels ==> r == ServiceLabel(tag)
    ensures InheritedProperty(tag).None? ==> r == ServiceLabel(tag)
  {
    if tag in ServiceLabels then ServiceLabels[tag]
    else match InheritedProperty(tag)
      case Some(v) => v
      case None => tag
  }

  /** `budgetLabels[budget] || budget || "Not specified"` as the runtime
      evaluates it (`budgetLabels[undefined]` reads the key "undefined"). */
  function BudgetLabelAsWritten(budget: Option<string>): (r: string)
    ensures budget.None? ==> r == BudgetLabel(budget)
    ensures budget.Some? && InheritedProperty(budget.value).None? ==> r == BudgetLabel(budget)
  {
    match budget
    case None => NotSpecified
    case Some(b) =>
      if b in BudgetLabels then BudgetLabels[b]
      else match InheritedProperty(b)
        case Some(v) => v
        case None => if b != "" then b else NotSpecified
  }

  /** The tag "toString" is not in the table, yet the email shows a
      function's source text for it instead of the tag; the lookup over the
      table's own keys keeps the tag. */
  lemma InheritedTagLeaksIntoEmail()
    ensures ServiceLabelAsWritten("toString") == "function toString() { [native code] }"
    ensures "toString" !in ServiceLabels && ServiceLabel("toString") == "toString"
  {
    assert InheritedProperty("toString") == Some("function toString() { [native code] }");
  }

  /** The same for the budget "valueOf", which is not a range key. */
  lemma InheritedBudgetLeaksIntoEmail()
    ensures BudgetLabelAsWritten(Some("valueOf")) == "function valueOf() { [native code] }"
    ensures "valueOf" !in BudgetLabels && BudgetLabel(Some("valueOf")) == "valueOf"
  {
    assert |"valueOf"| != |"toString"|;
    assert InheritedProperty("valueOf") == Some("function valueOf() { [native code] }");
  }

  /** With the own-key lookup every tag outside the table reaches the email
      unchanged, whatever its name. */
  lemma UnknownTagsPassThrough(tags: seq<string>)
    requires forall i :: 0 <= i < |tags| ==> tags[i] !in ServiceLabels
    ensures Labelled(tags) == tags
  {
  }
}
