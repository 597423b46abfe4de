/** The notification endpoint: an internal caller posts a subject, a body, a type, a priority
    and optional metadata, and the endpoint mails them through Resend. */
module Notify {
  import opened Wrappers
  import opened Http
  import opened Text

  /** The body fields read; a field the JSON body does not have is `None`. The metadata is
      the list of its entries in the order `Object.entries` gives them: keys that are array
      indices first, in ascending numeric order, then the other keys in insertion order. */
  datatype NotifyBody = NotifyBody(
    kind: Option<string>, subject: Option<string>, body: Option<string>,
    priority: Option<string>, metadata: Option<seq<(string, string)>>)

  /** Method, the `x-notify-secret` header and the body (`None` when there is none, so that
      destructuring it throws). */
  datatype NotifyRequest = NotifyRequest(
    httpMethod: string, secretHeader: Option<string>, body: Option<NotifyBody>)

  /** `NOTIFY_SECRET`, `RESEND_API_KEY` and `NOTIFY_EMAIL`. */
  datatype NotifyEnv = NotifyEnv(secret: Option<string>, resendKey: Option<string>, notifyEmail: Option<string>)

  /** The message handed to Resend: credentials, recipient, subject line, the heading and the
      paragraph of the HTML body, and the rows of the details table when there is one. */
  datatype Email = Email(
    apiKey: string, to: string, subject: string, heading: string, paragraph: string,
    details: Option<seq<(string, string)>>)

  /** What the Resend request did: it threw, answered ok, or answered an error whose JSON
      body could (`false`) or could not (`true`) be read. */
  datatype SendOutcome = SendThrew | SendOk | SendNotOk(errorBodyThrows: bool)

  datatype NotifyAnswer =
    | NotifyFailure(error: string)
    | Delivered(success: bool, reason: Option<string>)

  // ---------------------------------------------------------------------------
  // the message

  /** A template slot `${x}`: a value that is not there prints as `undefined`. */
  function Shown(x: Option<string>): (r: string)
    ensures x.Some? ==> r == x.value
    ensures x.None? ==> r == "undefined"
  {
    if x.Some? then x.value else "undefined"
  }

  /** `priorityEmoji[priority]`, with `priority` defaulting to `normal` when the field is
      absent (a destructuring default, so an empty string stays empty): nothing for `low`, an
      envelope for `normal`, a siren for `high`, and no entry for anything else. */
  function PriorityEmoji(priority: Option<string>): (r: Option<string>)
    ensures r.Some? <==> priority.None? || priority.value in {"low", "normal", "high"}
    ensures r == Some("") <==> priority == Some("low")
  {
    var p := if priority.Some? then priority.value else "normal";
    if p == "low" then Some("")
    else if p == "normal" then Some("\U{1F4E7}")
    else if p == "high" then Some("\U{1F6A8}")
    else None
  }

  /** `${emoji} [${type}] ${subject}`. */
  function SubjectLine(b: NotifyBody, subject: string): string {
    Shown(PriorityEmoji(b.priority)) + " [" + Shown(b.kind) + "] " + subject
  }

  /** The subject line ends with the bracketed type and the subject, after the emoji. */
  lemma SubjectLineParts(b: NotifyBody, subject: string)
    ensures var lead := Shown(PriorityEmoji(b.priority));
            var tag := " [" + Shown(b.kind) + "] ";
            SubjectLine(b, subject) == lead + (tag + subject)
            && SubjectLine(b, subject)[|lead| + |tag|..] == subject
  {
    var lead := Shown(PriorityEmoji(b.priority));
    var tag := " [" + Shown(b.kind) + "] ";
    assert SubjectLine(b, subject) == lead + (tag + subject);
    assert (lead + (tag + subject))[|lead| + |tag|..] == subject;
  }

  /** A low-priority subject has no emoji: it starts at the space before the bracket. */
  lemma LowPriorityPlain(b: NotifyBody, subject: string)
    requires b.priority == Some("low")
    ensures SubjectLine(b, subject) == " [" + Shown(b.kind) + "] " + subject
  {
  }

  /** A missing priority is the normal priority. */
  lemma DefaultPriority(b: NotifyBody, subject: string)
    requires b.priority.None?
    ensures SubjectLine(b, subject) == SubjectLine(b.(priority := Some("normal")), subject)
  {
  }

  /** `body.replace(/\n/g, '<br>')`. */
  function Paragraph(body: string): (r: string)
    ensures '\n' !in r
  {
    ReplaceChar(body, '\n', "<br>")
  }

  /** The paragraph is the body's lines joined by `<br>`, three characters longer per line
      break. */
  lemma ParagraphLines(body: string)
    ensures Paragraph(body) == Join(Split(body, '\n'), "<br>")
    ensures |Paragraph(body)| == |body| + 3 * CountChar(body, '\n')
  {
    ReplaceCharIsSplitJoin(body, '\n', "<br>");
    ReplaceCharLength(body, '\n', "<br>");
  }

  /** The details table: present only for metadata with at least one entry, one row per
      entry in order. */
  function Details(metadata: Option<seq<(string, string)>>): (r: Option<seq<(string, string)>>)
    ensures r.Some? <==> metadata.Some? && |metadata.value| > 0
    ensures r.Some? ==> r.value == metadata.value
  {
    if metadata.Some? && |metadata.value| > 0 then metadata else None
  }

  // ---------------------------------------------------------------------------
  // the handler

  /** The message for a body that passed the checks. */
  function EmailOf(env: NotifyEnv, b: NotifyBody): Email
    requires b.subject.Some? && b.body.Some? && env.resendKey.Some? && env.notifyEmail.Some?
  {
    Email(env.resendKey.value, env.notifyEmail.value, SubjectLine(b, b.subject.value),
          b.subject.value, Paragraph(b.body.value), Details(b.metadata))
  }

  /** Why a request is answered without sending, in the order the checks run: method, secret
      (compared as values, so an unset secret admits a request without the header), a body
      that cannot be destructured, subject and body, mail configuration. */
  function Refusal(req: NotifyRequest, env: NotifyEnv): (r: Option<Response<NotifyAnswer>>)
    ensures r.None? <==>
              req.httpMethod == "POST" && req.secretHeader == env.secret && req.body.Some?
              && Truthy(req.body.value.subject) && Truthy(req.body.value.body)
              && Truthy(env.resendKey) && Truthy(env.notifyEmail)
  {
    if req.httpMethod != "POST" then Some(Response(405, NotifyFailure("Method not allowed")))
    else if req.secretHeader != env.secret then Some(Response(401, NotifyFailure("Unauthorized")))
    else if req.body.None? then Some(Response(500, NotifyFailure("Internal server error")))
    else if !Truthy(req.body.value.subject) || !Truthy(req.body.value.body) then
      Some(Response(400, NotifyFailure("Subject and body required")))
    else if !Truthy(env.resendKey) || !Truthy(env.notifyEmail) then
      Some(Response(200, Delivered(false, Some("Email not configured"))))
    else None
  }

  /** The answer to the Resend outcome. */
  function Answer(outcome: SendOutcome): (r: Response<NotifyAnswer>)
    ensures r.status == 200 <==> outcome == SendOk
  {
    match outcome
    case SendOk => Response(200, Delivered(true, None))
    case SendNotOk(false) => Response(500, NotifyFailure("Failed to send email"))
    case _ => Response(500, NotifyFailure("Internal server error"))
  }

  /** The handler: the answer and the message sent, if any; `send` is the Resend request. */
  function Handle(req: NotifyRequest, env: NotifyEnv, send: Email -> SendOutcome): (r: (Response<NotifyAnswer>, Option<Email>))
    ensures r.0.status in {200, 400, 401, 405, 500}
    ensures r.1.Some? <==> Refusal(req, env).None?
  {
    var refusal := Refusal(req, env);
    if refusal.Some? then (refusal.value, None)
    else
      var email := EmailOf(env, req.body.value);
      (Answer(send(email)), Some(email))
  }

  /** The method is checked before anything else. */
  lemma MethodFirst(req: NotifyRequest, env: NotifyEnv, send: Email -> SendOutcome)
    requires req.httpMethod != "POST"
    ensures Handle(req, env, send) == (Response(405, NotifyFailure("Method not allowed")), None)
  {
  }

  /** A POST whose secret header differs from the configured secret is refused, whatever its
      body; with no secret configured, a request without the header is let through. */
  lemma SecretChecked(req: NotifyRequest, env: NotifyEnv, send: Email -> SendOutcome)
    requires req.httpMethod == "POST"
    ensures req.secretHeader != env.secret ==>
              Handle(req, env, send) == (Response(401, NotifyFailure("Unauthorized")), None)
    ensures env.secret.None? && req.secretHeader.None? ==> Handle(req, env, send).0.status != 401
  {
  }

  /** A request passing the secret check but lacking a subject or a body gets a 400 and
      nothing is sent, whether or not mail is configured. */
  lemma MissingFieldsRejected(req: NotifyRequest, env: NotifyEnv, send: Email -> SendOutcome)
    requires req.httpMethod == "POST" && req.secretHeader == env.secret && req.body.Some?
    requires !Truthy(req.body.value.subject) || !Truthy(req.body.value.body)
    ensures Handle(req, env, send) == (Response(400, NotifyFailure("Subject and body required")), None)
  {
  }

  /** Without a mail configuration a valid request succeeds with `success: false` and nothing
      is sent. */
  lemma UnconfiguredMail(req: NotifyRequest, env: NotifyEnv, send: Email -> SendOutcome)
    requires req.httpMethod == "POST" && req.secretHeader == env.secret && req.body.Some?
    requires Truthy(req.body.value.subject) && Truthy(req.body.value.body)
    requires !Truthy(env.resendKey) || !Truthy(env.notifyEmail)
    ensures Handle(req, env, send) == (Response(200, Delivered(false, Some("Email not configured"))), None)
  {
  }

  /** A sent message goes to the configured address, with the composed subject, the subject
      as heading and the body with its line breaks as `<br>`; `success: true` exactly when
      Resend answered ok. */
  lemma SentMessage(req: NotifyRequest, env: NotifyEnv, send: Email -> SendOutcome)
    requires Handle(req, env, send).1.Some?
    ensures var b := req.body.value; var e := Handle(req, env, send).1.value;
            e.to == env.notifyEmail.value && e.apiKey == env.resendKey.value
            && e.subject == SubjectLine(b, b.subject.value) && e.heading == b.subject.value
            && e.paragraph == Join(Split(b.body.value, '\n'), "<br>")
            && e.details == Details(b.metadata)
            && (Handle(req, env, send).0 == Response(200, Delivered(true, None)) <==> send(e) == SendOk)
  {
    ParagraphLines(req.body.value.body.value);
  }
}
