/** The `POST /api/contact` handler: it checks the three required fields,
    builds the notification mail from the form fields, and either only logs
    it (outside production) or hands it to the mail transport. */
module ContactRoute {
  import opened Util
  import ContactForm

  /** One property of the parsed JSON body, as the handler uses it: a
      string, or any other value, including an absent property (`undefined`).
      Another value is known by its truthiness and by the text a template
      literal makes of it, `None` when that conversion throws (an object
      whose own `toString` and `valueOf` keys hide the methods). */
  datatype Field = Text(s: string) | NonText(truthy: bool, shown: Option<string>)

  /** An absent property. */
  const Undefined := NonText(false, Some("undefined"))

  /** The four properties the handler destructures. A JSON value that is not
      an object (a number, a string, an array, a boolean) has none of them. */
  datatype Request = Request(name: Field, email: Field, subject: Field, message: Field)

  /** The process environment the handler reads. */
  datatype ServerEnv = ServerEnv(production: bool, emailFrom: Option<string>, emailTo: Option<string>)

  /** The mail handed to the transport; `replyTo` is the `email` property as
      received. */
  datatype MailOptions = MailOptions(from: string, to: string, replyTo: Field, subject: string, text: string, html: string)

  /** The JSON answer and its HTTP status. */
  datatype Response = Response(status: nat, success: bool, message: string)

  /** What one request leads to: the answer, and the mail handed to the
      transport (production) or written to the console (otherwise). */
  datatype Outcome = Outcome(response: Response, handedToTransport: Option<MailOptions>, logged: Option<MailOptions>)

  const MissingFieldsMessage := "Bitte füllen Sie alle Pflichtfelder aus."
  const DevelopmentMessage := "Nachricht wurde erfolgreich gesendet. (Entwicklungsmodus)"
  const SentMessage := "Vielen Dank für Ihre Nachricht. Wir melden uns in Kürze bei Ihnen."
  const FailureMessage := "Es gab ein Problem beim Senden Ihrer Anfrage. Bitte versuchen Sie es später erneut."

  const DefaultFrom := "noreply@benfresh.de"
  const DefaultTo := "info@benfresh.de"
  const DefaultSubject := "Neue Anfrage"
  const NoSubject := "Keine Angabe"

  /** JavaScript truthiness of a property. */
  predicate Present(f: Field) {
    match f
    case Text(s) => s != ""
    case NonText(truthy, _) => truthy
  }

  /** `${f}`: the text of a property, `None` when the conversion throws. */
  function Render(f: Field): (r: Option<string>)
    ensures f.Text? ==> r == Some(f.s)
  {
    match f
    case Text(s) => Some(s)
    case NonText(_, shown) => shown
  }

  /** `${f || fallback}` */
  function RenderOr(f: Field, fallback: string): (r: Option<string>)
    ensures !Present(f) ==> r == Some(fallback)
    ensures Present(f) ==> r == Render(f)
  {
    if Present(f) then Render(f) else Some(fallback)
  }

  const BreakTag := "<br/>"

  /** `s.replace(/\n/g, '<br/>')` */
  function ReplaceNewlines(s: string): string {
    if s == [] then []
    else (if s[0] == '\n' then BreakTag else [s[0]]) + ReplaceNewlines(s[1..])
  }

  predicate IsNewline(c: char) {
    c == '\n'
  }

  lemma {:induction false} ReplaceNewlinesAppend(a: string, b: string)
    ensures ReplaceNewlines(a + b) == ReplaceNewlines(a) + ReplaceNewlines(b)
  {
    if a == [] {
      assert a + b == b;
    } else {
      assert (a + b)[1..] == a[1..] + b;
      ReplaceNewlinesAppend(a[1..], b);
    }
  }

  /** The HTML body has no line break left from the message, each newline
      grows the text by the four extra characters of `<br/>`, and a
      message without newlines is inserted unchanged. */
  lemma {:induction false} ReplaceNewlinesSound(s: string)
    ensures forall i :: 0 <= i < |ReplaceNewlines(s)| ==> ReplaceNewlines(s)[i] != '\n'
    ensures |ReplaceNewlines(s)| == |s| + 4 * CountWhere(s, IsNewline)
    ensures (forall i :: 0 <= i < |s| ==> s[i] != '\n') ==> ReplaceNewlines(s) == s
  {
    if s != [] {
      ReplaceNewlinesSound(s[1..]);
      var head := if s[0] == '\n' then BreakTag else [s[0]];
      assert ReplaceNewlines(s) == head + ReplaceNewlines(s[1..]);
      forall i | 0 <= i < |ReplaceNewlines(s)|
        ensures ReplaceNewlines(s)[i] != '\n'
      {
        if i >= |head| {
          assert ReplaceNewlines(s)[i] == ReplaceNewlines(s[1..])[i - |head|];
        }
      }
    }
  }

  /** The fixed parts of the HTML template, between its five insertions. */
  const HtmlHead := "\n        <div style=\"font-family: Arial, sans-serif; max-width: 600px; margin: 0 auto; padding: 20px; border: 1px solid #e0e0e0; border-radius: 5px;\">\n          <h2 style=\"color: #0097A7; border-bottom: 1px solid #e0e0e0; padding-bottom: 10px;\">Neue Kontaktanfrage</h2>\n          <p><strong>Name:</strong> "
  const HtmlAfterName := "</p>\n          <p><strong>E-Mail:</strong> "
  const HtmlAfterEmail := "</p>\n          <p><strong>Betreff:</strong> "
  const HtmlAfterSubject := "</p>\n          <div style=\"margin-top: 20px;\">\n            <p><strong>Nachricht:</strong></p>\n            <div style=\"background-color: #f9f9f9; padding: 15px; border-radius: 4px; margin-top: 5px;\">\n              "
  const HtmlTail := "\n            </div>\n          </div>\n          <p style=\"font-size: 12px; color: #666; margin-top: 30px; border-top: 1px solid #e0e0e0; padding-top: 10px;\">\n            Diese E-Mail wurde über das Kontaktformular auf benfresh.de gesendet.\n          </p>\n        </div>\n      "

  const SubjectPrefix := "Kontaktformular: "

  /** The request can be turned into `mailOptions` without a `TypeError`:
      every inserted property converts to text, and `message` is a string
      (only a string has the `replace` method the HTML body calls). */
  predicate Renders(req: Request) {
    req.message.Text? && Render(req.name).Some? && Render(req.email).Some?
      && RenderOr(req.subject, DefaultSubject).Some?
  }

  /** `mailOptions`, or `None` when building it throws. */
  function BuildMail(req: Request, env: ServerEnv): (m: Option<MailOptions>)
    ensures m.Some? <==> Renders(req)
    ensures m.Some? ==> m.value.replyTo == req.email
    ensures m.Some? ==> m.value.from == Or(env.emailFrom, DefaultFrom) && m.value.to == Or(env.emailTo, DefaultTo)
  {
    if !Renders(req) then None
    else
      var name, email := Render(req.name).value, Render(req.email).value;
      var subject := RenderOr(req.subject, DefaultSubject).value;
      var shownSubject := RenderOr(req.subject, NoSubject).value;
      var message := req.message.s;
      Some(MailOptions(
        Or(env.emailFrom, DefaultFrom),
        Or(env.emailTo, DefaultTo),
        req.email,
        SubjectPrefix + subject,
        MailText(name, email, shownSubject, message),
        MailHtml(name, email, shownSubject, message)))
  }

  /** The plain-text body. */
  function MailText(name: string, email: string, subject: string, message: string): string {
    "Name: " + name + "\nEmail: " + email + "\nBetreff: " + subject + "\n\nNachricht:\n" + message
  }

  /** The HTML body: the fields inserted into the template unescaped, the
      message with its line breaks turned into `<br/>`. */
  function MailHtml(name: string, email: string, subject: string, message: string): string {
    HtmlHead + name + HtmlAfterName + email + HtmlAfterEmail + subject + HtmlAfterSubject
      + ReplaceNewlines(message) + HtmlTail
  }

  /** The mail's plain-text body ends with the message exactly as sent and
      starts with the sender's name; the subject line names the form's
      subject or, without one, a fixed text. */
  lemma MailCarriesFields(req: Request, env: ServerEnv)
    requires Renders(req)
    ensures EndsWith(BuildMail(req, env).value.text, "\n\nNachricht:\n" + req.message.s)
    ensures StartsWith(BuildMail(req, env).value.text, "Name: " + Render(req.name).value + "\n")
    ensures BuildMail(req, env).value.subject ==
              SubjectPrefix + (if Present(req.subject) then Render(req.subject).value else DefaultSubject)
  {
    var name, email := Render(req.name).value, Render(req.email).value;
    var shownSubject := RenderOr(req.subject, NoSubject).value;
    var rest := "Email: " + email + "\nBetreff: " + shownSubject;
    assert MailText(name, email, shownSubject, req.message.s) == ("Name: " + name + "\n") + rest + ("\n\nNachricht:\n" + req.message.s);
  }

  /** `POST`: the request body (`None` when the text is not JSON, or is
      `null`, whose destructuring throws), the environment, and whether the
      transport throws. Every exception is answered 500. */
  function Post(body: Option<Request>, env: ServerEnv, transportFails: bool): (r: Outcome)
    ensures r.response.status == 400 <==>
              body.Some? && !(Present(body.value.name) && Present(body.value.email) && Present(body.value.message))
    ensures r.response.success <==> r.response.status == 200
    ensures r.response.status in {200, 400, 500}
    ensures r.handedToTransport.Some? <==> env.production && r.response.status != 400 && body.Some? && Renders(body.value)
    ensures r.logged.Some? <==> !env.production && r.response.status == 200
    ensures r.response.status == 500 <==>
              body.None? || (r.response.status != 400 && (!Renders(body.value) || (env.production && transportFails)))
    ensures r.handedToTransport.Some? ==> r.handedToTransport.value.replyTo == body.value.email
  {
    match body
    case None => Outcome(Response(500, false, FailureMessage), None, None)
    case Some(req) =>
      if !Present(req.name) || !Present(req.email) || !Present(req.message) then
        Outcome(Response(400, false, MissingFieldsMessage), None, None)
      else
        match BuildMail(req, env)
        case None => Outcome(Response(500, false, FailureMessage), None, None)
        case Some(mail) =>
          if !env.production then
            Outcome(Response(200, true, DevelopmentMessage), None, Some(mail))
          else if transportFails then
            Outcome(Response(500, false, FailureMessage), Some(mail), None)
          else
            Outcome(Response(200, true, SentMessage), Some(mail), None)
  }

  /** A truthy `message` that is not a string passes the required-field test
      but makes `message.replace` throw: the answer is 500 in every
      environment, and no mail is logged or handed to the transport. */
  lemma NonTextMessageFails(req: Request, env: ServerEnv, transportFails: bool)
    requires Present(req.name) && Present(req.email)
    requires req.message.NonText? && req.message.truthy
    ensures Post(Some(req), env, transportFails) == Outcome(Response(500, false, FailureMessage), None, None)
  {
  }

  /** A body that is JSON but not an object, such as `42`, has none of the
      required properties and is answered 400. */
  lemma NonObjectBodyRejected(env: ServerEnv, transportFails: bool)
    ensures Post(Some(Request(Undefined, Undefined, Undefined, Undefined)), env, transportFails).response.status == 400
  {
  }

  /** The body `JSON.stringify(form)` sends (the privacy flag is ignored by
      the handler). */
  function RequestOf(f: ContactForm.Form): (req: Request)
    ensures req.name == Text(f.name) && req.email == Text(f.email)
    ensures req.subject == Text(f.subject) && req.message == Text(f.message)
  {
    Request(Text(f.name), Text(f.email), Text(f.subject), Text(f.message))
  }

  /** How the browser sees an answer: `ok` for a 2xx status. */
  function ReplyOf(resp: Response): (reply: ContactForm.Reply)
    ensures reply.Answered? && (reply.ok <==> 200 <= resp.status < 300)
    ensures reply.body.message == Some(resp.message)
  {
    ContactForm.Answered(200 <= resp.status < 300, ContactForm.ReplyBody(resp.success, Some(resp.message)))
  }

  /** A form the browser accepts has a non-empty name, address and message. */
  lemma ValidFormHasRequiredFields(f: ContactForm.Form)
    requires ContactForm.FormValid(f)
    ensures f.name != "" && f.email != "" && f.message != ""
  {
    assert Utf16Length(Trim(f.name)) >= 2;
    assert f.message != "" by {
      if f.message == "" {
      }
    }
    assert f.email != "" by {
      var i :| 0 < i < |f.email| && f.email[i] == '@' && ContactForm.AllLocal(f.email[..i]) && ContactForm.DomainPattern(f.email[i + 1..]);
    }
  }

  /** A request carrying the three required fields as non-empty strings (and
      a subject that is a string or absent) is answered by the environment
      and the transport alone. */
  lemma CompleteRequestOutcome(req: Request, env: ServerEnv, transportFails: bool)
    requires req.name.Text? && req.email.Text? && req.message.Text? && (req.subject.Text? || req.subject == Undefined)
    requires Present(req.name) && Present(req.email) && Present(req.message)
    ensures ContactForm.ReplyOutcome(ReplyOf(Post(Some(req), env, transportFails).response)) ==
              (!(env.production && transportFails),
               if !env.production then DevelopmentMessage
               else if transportFails then FailureMessage
               else SentMessage)
  {
  }

  /** End to end: a form the browser accepts always has the three fields
      the handler requires, so it is never answered 400; the form's
      success panel shows exactly when the handler succeeded, with the
      handler's message, and a production mail replies to the form's
      address. */
  lemma ValidFormAccepted(f: ContactForm.Form, env: ServerEnv, transportFails: bool)
    requires ContactForm.FormValid(f)
    ensures Post(Some(RequestOf(f)), env, transportFails).response.status != 400
    ensures ContactForm.ReplyOutcome(ReplyOf(Post(Some(RequestOf(f)), env, transportFails).response)) ==
              (!(env.production && transportFails),
               if !env.production then DevelopmentMessage
               else if transportFails then FailureMessage
               else SentMessage)
    ensures env.production ==> Post(Some(RequestOf(f)), env, transportFails).handedToTransport.value.replyTo == Text(f.email)
  {
    ValidFormHasRequiredFields(f);
    var req := RequestOf(f);
    assert Present(req.name) && Present(req.email) && Present(req.message);
    CompleteRequestOutcome(req, env, transportFails);
  }
}
