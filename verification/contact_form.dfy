/** The contact section's form: the field values, the per-field error
    messages, and the submission flags. `validate` checks the fields with a
    trimmed-length rule, an e-mail regular expression and the privacy
    checkbox; `handleSubmit` posts the form to `/api/contact` only when it
    is valid. */
module ContactForm {
  import opened Util

  datatype Form = Form(name: string, email: string, subject: string, message: string, privacy: bool)

  /** `initialState`: every text field empty, privacy not accepted. */
  function InitialState(): Form {
    Form("", "", "", "", false)
  }

  /** One message per checked field; the empty string means no error. */
  datatype FormErrors = FormErrors(name: string, email: string, message: string, privacy: string)

  function NoErrors(): FormErrors {
    FormErrors("", "", "", "")
  }

  const NameError := "Bitte geben Sie Ihren Namen ein (mind. 2 Zeichen)."
  const EmailError := "Bitte geben Sie eine gültige E-Mail-Adresse ein."
  const MessageError := "Bitte geben Sie eine Nachricht ein (mind. 10 Zeichen)."
  const PrivacyError := "Bitte stimmen Sie der Datenschutzerklärung zu."

  // ---------------------------------------------------------------------
  // The e-mail pattern `^[\w-.]+@([\w-]+\.)+[\w-]{2,}$`
  // ---------------------------------------------------------------------

  /** `\w` of a JavaScript regular expression without the `u` flag. */
  predicate WordChar(c: char) {
    'a' <= c <= 'z' || 'A' <= c <= 'Z' || '0' <= c <= '9' || c == '_'
  }

  /** `[\w-]`: a character of a domain label. */
  predicate LabelChar(c: char) {
    WordChar(c) || c == '-'
  }

  /** `[\w-.]`: a character of the local part. */
  predicate LocalChar(c: char) {
    LabelChar(c) || c == '.'
  }

  predicate AllLabel(s: string) {
    forall i :: 0 <= i < |s| ==> LabelChar(s[i])
  }

  predicate AllLocal(s: string) {
    forall i :: 0 <= i < |s| ==> LocalChar(s[i])
  }

  predicate IsDot(c: char) {
    c == '.'
  }

  predicate IsAt(c: char) {
    c == '@'
  }

  /** `[\w-]{2,}`: the final label. */
  ghost predicate FinalLabel(t: string) {
    |t| >= 2 && AllLabel(t)
  }

  /** The language of `([\w-]+\.)+[\w-]{2,}`: a non-empty label and a dot,
      followed either by the final label or by another such domain. */
  ghost predicate DomainPattern(d: string)
    decreases |d|, 1
  {
    exists j :: DomainSplit(d, j)
  }

  /** `d` is a first label and a dot at `j`, then the rest of a domain. */
  ghost predicate DomainSplit(d: string, j: int)
    decreases |d|, 0
  {
    0 < j < |d| && d[j] == '.' && AllLabel(d[..j]) && (FinalLabel(d[j + 1..]) || DomainPattern(d[j + 1..]))
  }

  /** The language of the whole anchored pattern: a non-empty local part,
      an `@`, and a domain. */
  ghost predicate EmailPattern(s: string) {
    exists i :: EmailSplit(s, i)
  }

  /** `s` is a local part, then an `@` at `i`, then a domain. */
  ghost predicate EmailSplit(s: string, i: int) {
    0 < i < |s| && s[i] == '@' && AllLocal(s[..i]) && DomainPattern(s[i + 1..])
  }

  /** The recogniser the form runs: split the address at `@` into exactly
      two parts, the local part non-empty over `[\w-.]`, and the domain
      split at `.` into at least two non-empty labels over `[\w-]`, the last
      of at least two characters. */
  predicate DomainOk(d: string) {
    LabelsOk(Split(d, IsDot))
  }

  /** At least two non-empty labels over `[\w-]`, the last of at least two
      characters. */
  predicate LabelsOk(labels: seq<string>) {
    |labels| >= 2 && |labels[|labels| - 1]| >= 2 &&
    forall k :: 0 <= k < |labels| ==> labels[k] != [] && AllLabel(labels[k])
  }

  /** A non-empty first label in front of the final label, or in front of
      further labels that are fine, gives labels that are fine. */
  lemma LabelsCons(first: string, rest: seq<string>)
    requires first != [] && AllLabel(first)
    requires LabelsOk(rest) || (|rest| == 1 && FinalLabel(rest[0]))
    ensures LabelsOk([first] + rest)
  {
    var labels := [first] + rest;
    forall k | 0 < k < |labels|
      ensures labels[k] != [] && AllLabel(labels[k])
    {
      assert labels[k] == rest[k - 1];
    }
  }

  predicate IsEmail(s: string) {
    var parts := Split(s, IsAt);
    |parts| == 2 && parts[0] != [] && AllLocal(parts[0]) && DomainOk(parts[1])
  }

  /** A split with a single piece found no delimiter. */
  lemma SplitSingle(t: string, isDelim: char -> bool)
    requires |Split(t, isDelim)| == 1
    ensures Split(t, isDelim) == [t]
    ensures forall j :: 0 <= j < |t| ==> !isDelim(t[j])
  {
    FindFirstSound(t, isDelim);
    match FindFirst(t, isDelim)
    case None =>
    case Some(i) =>
  }

  /** A run of label characters contains neither a dot nor an `@`. */
  lemma LabelHasNoDelimiter(t: string)
    requires AllLabel(t)
    ensures forall i :: 0 <= i < |t| ==> !IsDot(t[i]) && !IsAt(t[i])
  {
  }

  /** Every character of a domain is a label character or a dot. */
  lemma {:induction false} DomainChars(d: string)
    requires DomainPattern(d)
    ensures forall i :: 0 <= i < |d| ==> d[i] == '.' || LabelChar(d[i])
    decreases |d|
  {
    var j :| DomainSplit(d, j);
    var t := d[j + 1..];
    if !FinalLabel(t) {
      DomainChars(t);
    }
    forall i | 0 <= i < |d|
      ensures d[i] == '.' || LabelChar(d[i])
    {
      if i < j {
        assert d[..j][i] == d[i];
      } else if i > j {
        assert t[i - j - 1] == d[i];
      }
    }
  }

  lemma {:induction false} DomainOkToPattern(d: string)
    requires DomainOk(d)
    ensures DomainPattern(d)
    decreases |d|
  {
    var labels := Split(d, IsDot);
    match FindFirst(d, IsDot)
    case None =>
    case Some(j) =>
      var t := d[j + 1..];
      var rest := Split(t, IsDot);
      assert labels == [d[..j]] + rest;
      assert labels[0] == d[..j];
      if |rest| == 1 {
        SplitSingle(t, IsDot);
        assert labels[1] == t;
        assert FinalLabel(t);
      } else {
        forall k | 0 <= k < |rest|
          ensures rest[k] != [] && AllLabel(rest[k])
        {
          assert rest[k] == labels[k + 1];
        }
        assert rest[|rest| - 1] == labels[|labels| - 1];
        assert DomainOk(t);
        DomainOkToPattern(t);
      }
      assert DomainSplit(d, j);
  }

  lemma {:induction false} DomainPatternToOk(d: string)
    requires DomainPattern(d)
    ensures DomainOk(d)
    decreases |d|
  {
    var j :| DomainSplit(d, j);
    var t := d[j + 1..];
    forall i | 0 <= i < j
      ensures !IsDot(d[i])
    {
      assert d[..j][i] == d[i];
    }
    SplitAt(d, IsDot, j);
    if FinalLabel(t) {
      LabelHasNoDelimiter(t);
      SplitNoDelimiter(t, IsDot);
    } else {
      DomainPatternToOk(t);
    }
    LabelsCons(d[..j], Split(t, IsDot));
  }

  /** The label-splitting recogniser accepts exactly the domains of the
      pattern. */
  lemma DomainEquiv(d: string)
    ensures DomainOk(d) <==> DomainPattern(d)
  {
    if DomainOk(d) {
      DomainOkToPattern(d);
    }
    if DomainPattern(d) {
      DomainPatternToOk(d);
    }
  }

  lemma EmailToPattern(s: string)
    requires IsEmail(s)
    ensures EmailPattern(s)
  {
    var parts := Split(s, IsAt);
    match FindFirst(s, IsAt)
    case None =>
    case Some(i) =>
      var t := s[i + 1..];
      assert parts == [s[..i]] + Split(t, IsAt);
      SplitSingle(t, IsAt);
      assert parts[1] == t;
      DomainOkToPattern(t);
      assert EmailSplit(s, i);
  }

  lemma PatternToEmail(s: string)
    requires EmailPattern(s)
    ensures IsEmail(s)
  {
    var parts := Split(s, IsAt);
    var i :| EmailSplit(s, i);
    var t := s[i + 1..];
    forall k | 0 <= k < i
      ensures !IsAt(s[k])
    {
      assert s[..i][k] == s[k];
    }
    SplitAt(s, IsAt, i);
    DomainChars(t);
    SplitNoDelimiter(t, IsAt);
    assert parts == [s[..i], t];
    DomainPatternToOk(t);
  }

  /** The form's recogniser accepts exactly the addresses the regular
      expression `^[\w-.]+@([\w-]+\.)+[\w-]{2,}$` matches; in particular an
      accepted address has exactly one `@`. */
  lemma EmailEquiv(s: string)
    ensures IsEmail(s) <==> EmailPattern(s)
    ensures IsEmail(s) ==> CountWhere(s, IsAt) == 1
  {
    SplitSound(s, IsAt);
    if IsEmail(s) {
      EmailToPattern(s);
    }
    if EmailPattern(s) {
      PatternToEmail(s);
    }
  }

  // ---------------------------------------------------------------------
  // validate
  // ---------------------------------------------------------------------

  /** The rule each field must meet, lengths counted in UTF-16 code units.
      The `!form.name` and `!form.message` tests of the source are subsumed:
      the empty string trims to length 0. */
  ghost predicate FormValid(f: Form) {
    Utf16Length(Trim(f.name)) >= 2 && EmailPattern(f.email) && Utf16Length(Trim(f.message)) >= 10 && f.privacy
  }

  /** The message shown under each field for a form. */
  ghost function ExpectedErrors(f: Form): FormErrors {
    FormErrors(
      if Utf16Length(Trim(f.name)) < 2 then NameError else "",
      if EmailPattern(f.email) then "" else EmailError,
      if Utf16Length(Trim(f.message)) < 10 then MessageError else "",
      if f.privacy then "" else PrivacyError)
  }

  /** A form is valid exactly when no field has an error message. */
  lemma ValidIffNoErrors(f: Form)
    ensures FormValid(f) <==> ExpectedErrors(f) == NoErrors()
  {
  }

  /** The untouched form fails every one of the four checks. */
  lemma InitialStateInvalid()
    ensures ExpectedErrors(InitialState()) == FormErrors(NameError, EmailError, MessageError, PrivacyError)
  {
    assert !EmailPattern("");
  }

  /** The body of `validate`: the checks in order, building the error record
      and the validity flag. */
  method CheckForm(form: Form) returns (valid: bool, newErrors: FormErrors)
    ensures newErrors == ExpectedErrors(form)
    ensures valid <==> FormValid(form)
  {
    valid := true;
    newErrors := NoErrors();
    if form.name == "" || Utf16Length(Trim(form.name)) < 2 {
      newErrors := newErrors.(name := NameError);
      valid := false;
    }
    EmailEquiv(form.email);
    if form.email == "" || !IsEmail(form.email) {
      newErrors := newErrors.(email := EmailError);
      valid := false;
    }
    if form.message == "" || Utf16Length(Trim(form.message)) < 10 {
      newErrors := newErrors.(message := MessageError);
      valid := false;
    }
    if !form.privacy {
      newErrors := newErrors.(privacy := PrivacyError);
      valid := false;
    }
  }

  // ---------------------------------------------------------------------
  // The component
  // ---------------------------------------------------------------------

  /** A change event from one of the rendered inputs: the four text inputs
      report their value, the privacy checkbox its `checked` flag. */
  datatype ChangeTarget = TextChange(name: string, value: string) | CheckboxChange(name: string, checked: bool)

  /** The parsed JSON answer of `/api/contact`. */
  datatype ReplyBody = ReplyBody(success: bool, message: Option<string>)

  /** How the request ends: no answer (the fetch or the JSON parse throws),
      or an HTTP answer with its `ok` flag and parsed body. */
  datatype Reply = NoConnection | Answered(ok: bool, body: ReplyBody)

  const ThanksMessage := "Vielen Dank für Ihre Nachricht. Wir melden uns in Kürze bei Ihnen."
  const ProblemMessage := "Es gab ein Problem beim Senden Ihrer Anfrage. Bitte versuchen Sie es später erneut."
  const ConnectionMessage := "Es konnte keine Verbindung zum Server hergestellt werden. Bitte überprüfen Sie Ihre Internetverbindung und versuchen Sie es erneut."

  /** The submission succeeds exactly when the answer is `ok` and reports
      success; the message shown is the server's, or a fixed text. */
  function ReplyOutcome(reply: Reply): (r: (bool, string))
    ensures r.0 <==> reply.Answered? && reply.ok && reply.body.success
    ensures r.1 != ""
    ensures reply.NoConnection? ==> r.1 == ConnectionMessage
  {
    match reply
    case NoConnection => (false, ConnectionMessage)
    case Answered(ok, body) =>
      if ok && body.success then (true, Or(body.message, ThanksMessage))
      else (false, Or(body.message, ProblemMessage))
  }

  class ContactSection {
    var form: Form
    var errors: FormErrors
    var success: bool
    var submitError: bool
    var isLoading: bool
    var responseMessage: string
    /** The bodies posted to `/api/contact`, oldest first. */
    var posted: seq<Form>

    constructor ()
      ensures form == InitialState() && errors == NoErrors()
      ensures !success && !submitError && !isLoading && responseMessage == ""
      ensures posted == []
    {
      form := InitialState();
      errors := NoErrors();
      success := false;
      submitError := false;
      isLoading := false;
      responseMessage := "";
      posted := [];
    }

    /** `validate`: compute and store the error messages. */
    method Validate() returns (valid: bool)
      modifies this`errors
      ensures errors == ExpectedErrors(form)
      ensures valid <==> FormValid(form)
    {
      var newErrors;
      valid, newErrors := CheckForm(form);
      errors := newErrors;
    }

    /** `handleChange`: the field named by the input takes its new value. A
        name outside the form adds a property the model does not track. */
    method HandleChange(target: ChangeTarget)
      requires target.CheckboxChange? <==> target.name == "privacy"
      modifies this`form
      ensures form == (match target
        case CheckboxChange(_, checked) => old(form).(privacy := checked)
        case TextChange(name, value) =>
          if name == "name" then old(form).(name := value)
          else if name == "email" then old(form).(email := value)
          else if name == "subject" then old(form).(subject := value)
          else if name == "message" then old(form).(message := value)
          else old(form))
    {
      match target
      case CheckboxChange(_, checked) =>
        form := form.(privacy := checked);
      case TextChange(name, value) =>
        if name == "name" {
          form := form.(name := value);
        } else if name == "email" {
          form := form.(email := value);
        } else if name == "subject" {
          form := form.(subject := value);
        } else if name == "message" {
          form := form.(message := value);
        }
    }

    /** `handleSubmit`: an invalid form sets `submitError` and posts
        nothing; a valid one is posted, and the reply decides between
        success (the form is reset) and an error (the form is kept). The
        submit button is disabled while a request is in flight. */
    method HandleSubmit(reply: Reply)
      requires !isLoading
      modifies this
      ensures !isLoading
      ensures errors == ExpectedErrors(old(form))
      ensures !FormValid(old(form)) ==>
                submitError && !success && responseMessage == "" && form == old(form) && posted == old(posted)
      ensures FormValid(old(form)) ==>
                posted == old(posted) + [old(form)] &&
                (success, responseMessage) == ReplyOutcome(reply) &&
                submitError == !success &&
                form == (if success then InitialState() else old(form))
    {
      success := false;
      submitError := false;
      responseMessage := "";
      var valid := Validate();
      if valid {
        Send(reply);
      } else {
        Reject();
      }
    }

    /** The invalid-form branch of `handleSubmit`. */
    method Reject()
      modifies this`submitError
      ensures submitError
    {
      submitError := true;
    }

    /** The `try` block of `handleSubmit` for a valid form: post it and
        record the reply. */
    method Send(reply: Reply)
      requires !success && !submitError
      modifies this`isLoading, this`posted, this`success, this`submitError, this`responseMessage, this`form
      ensures !isLoading
      ensures posted == old(posted) + [old(form)]
      ensures (success, responseMessage) == ReplyOutcome(reply)
      ensures submitError == !success
      ensures form == (if success then InitialState() else old(form))
    {
      isLoading := true;
      posted := posted + [form];
      match reply {
        case NoConnection =>
          submitError := true;
          responseMessage := ConnectionMessage;
        case Answered(ok, body) =>
          if ok && body.success {
            success := true;
            responseMessage := Or(body.message, ThanksMessage);
            form := InitialState();
          } else {
            submitError := true;
            responseMessage := Or(body.message, ProblemMessage);
          }
      }
      isLoading := false;
    }

    /** The notice rendered under the form: the success panel, the error
        panel (only without success), or nothing. */
    function Notice(): (r: Option<string>)
      reads this
      ensures r.Some? <==> success || submitError
      ensures r.Some? ==> r.value != ""
    {
      if success then Some(Or(Some(responseMessage), "Wir melden uns schnellstmöglich bei Ihnen."))
      else if submitError then Some(Or(Some(responseMessage), "Bitte überprüfen Sie Ihre Eingaben und versuchen Sie es erneut."))
      else None
    }
  }

  /** Submitting the untouched form posts nothing, marks all four fields and
      shows the generic "check your input" notice. */
  method SubmitUntouched(reply: Reply) returns (c: ContactSection)
    ensures c.posted == [] && c.form == InitialState()
    ensures c.errors == FormErrors(NameError, EmailError, MessageError, PrivacyError)
    ensures c.Notice() == Some("Bitte überprüfen Sie Ihre Eingaben und versuchen Sie es erneut.")
  {
    c := new ContactSection();
    InitialStateInvalid();
    c.HandleSubmit(reply);
  }
}
