/** The contact form's submit pipeline (js/main.js): the cooldown gate `validateFormSubmission`,
    `sendContactForm` with its screening and its call to the e-mail service, `setLoadingState`,
    and the submit handler that `initializeContactForm` installs around one captured
    `lastSubmissionTime`. */
module ContactForm {
  import opened Wrappers
  import opened Screening

  /** Minimum time between accepted submissions, in milliseconds.
      In the source the constant is declared inside `initializeContactForm` (js/main.js:155)
      but read by the top-level `validateFormSubmission` (js/main.js:467), where it is not in
      scope; the model uses the intended value, and `GateAsWritten` records what the code does. */
  const ContactFormCooldown: int := 60000

  const ServiceId := "service_r9alwg8"
  const TemplateId := "template_kixv1dm"
  const RecipientName := "Bright T Gundya"

  const InvalidInputMessage := "Invalid input detected. Please try again."
  const FailedToSendMessage := "Failed to send message"
  const CooldownText := "Please wait a moment before sending another message."
  const SuccessText := "Message sent successfully! I will get back to you soon."
  const ErrorPrefix := "Sorry, there was an error sending your message. Please try again later. Error: "

  const IdleLabel := "Send"
  const BusyLabel := "Sending..."

  /** The `name`, `email` and `message` entries of the form's data. */
  datatype Fields = Fields(name: string, email: string, message: string)

  /** The template parameters handed to the e-mail service. */
  datatype TemplateParams = TemplateParams(
    fromName: string, fromEmail: string, message: string, toName: string, replyTo: string)

  /** One call of the e-mail service: service id, template id and parameters. */
  datatype Request = Request(service: string, template: string, params: TemplateParams)

  /** How the service's promise settles: resolved with a response status, or rejected with an
      error whose `message` text is given. */
  datatype Reply = Resolved(status: int) | Rejected(message: string)

  /** How `sendContactForm` ends: it returns, or it throws an error with this message. */
  datatype Completion = Completed | Threw(message: string)

  /** A message element appended to the form (`form-success-message` or `form-error-message`). */
  datatype BannerKind = SuccessBanner | ErrorBanner
  datatype Banner = Banner(kind: BannerKind, text: string)

  /** How one submit event ends for the user. */
  datatype Effect = CooldownRejected | Sent | Failed(message: string)

  /** One submit event: the field values, the clock read by the gate, the service's answer
      (used only if the service is called) and the clock read after a successful send. */
  datatype Attempt = Attempt(fields: Fields, now: int, reply: Reply, completedAt: int)

  /** The three possible ends of the cooldown comparison. */
  datatype GateOutcome = Pass | Block | ReferenceError(message: string)

  /** `validateFormSubmission` with the intended constant: the attempt is blocked when fewer
      than 60000 ms have passed since the last successful submission. */
  function Gate(now: int, last: int): (g: GateOutcome)
    ensures g != Pass <==> now - last < ContactFormCooldown
    ensures !g.ReferenceError?
  {
    if now - last < ContactFormCooldown then Block else Pass
  }

  /** `validateFormSubmission` as written: the comparison names `CONTACT_FORM_COOLDOWN`, which is
      not bound in the function's scope, so evaluating it throws whatever the times are (the
      message shown is one engine's wording; only the error's kind is fixed). */
  function GateAsWritten(now: int, last: int): (g: GateOutcome)
    ensures g != Pass
    ensures g.ReferenceError?
  {
    ReferenceError("CONTACT_FORM_COOLDOWN is not defined")
  }

  /** The scoping bug: on the first submission of a page (`lastSubmissionTime` still 0) at any
      real clock value, the intended gate lets the attempt through while the code as written
      throws before any field is looked at. */
  lemma ScopingBugBlocksFirstSubmission(now: int)
    requires now >= ContactFormCooldown
    ensures Gate(now, 0) == Pass
    ensures GateAsWritten(now, 0).ReferenceError?
  {
  }

  /** The screening and parameter mapping of `sendContactForm`, up to the service call: every
      field must pass `isValidInput`; the sanitized fields then fill the template, with the
      e-mail address as both sender and reply-to and the fixed recipient name. */
  function PrepareRequest(f: Fields): (r: Result<Request, string>)
    ensures r.Ok? <==> IsValidInput(f.name) && IsValidInput(f.email) && IsValidInput(f.message)
    ensures r.Err? ==> r.error == InvalidInputMessage
    ensures r.Ok? ==> r.value == Request(ServiceId, TemplateId,
      TemplateParams(f.name, f.email, f.message, RecipientName, f.email))
  {
    if !IsValidInput(f.name) || !IsValidInput(f.email) || !IsValidInput(f.message) then
      Err(InvalidInputMessage)
    else
      SanitizeIdentityOnValidInput(f.name);
      SanitizeIdentityOnValidInput(f.email);
      SanitizeIdentityOnValidInput(f.message);
      var name := Sanitize(f.name);
      var email := Sanitize(f.email);
      var message := Sanitize(f.message);
      Ok(Request(ServiceId, TemplateId, TemplateParams(name, email, message, RecipientName, email)))
  }

  /** How `sendContactForm` ends for given fields when the service settles with `reply`. */
  function SendCompletion(f: Fields, reply: Reply): (c: Completion)
    ensures PrepareRequest(f).Err? ==> c == Threw(InvalidInputMessage)
    ensures PrepareRequest(f).Ok? && reply.Resolved? ==> (c == Completed <==> reply.status == 200)
    ensures PrepareRequest(f).Ok? && reply.Resolved? && reply.status != 200 ==> c == Threw(FailedToSendMessage)
    ensures PrepareRequest(f).Ok? && reply.Rejected? ==> c == Threw(reply.message)
  {
    if PrepareRequest(f).Err? then Threw(PrepareRequest(f).error)
    else
      match reply
      case Resolved(status) => if status != 200 then Threw(FailedToSendMessage) else Completed
      case Rejected(message) => Threw(message)
  }

  /** What one submit event does, given the `lastSubmissionTime` it starts from. */
  function HandlerEffect(last: int, a: Attempt): (e: Effect)
    ensures e == CooldownRejected <==> a.now - last < ContactFormCooldown
    ensures e == Sent <==>
      a.now - last >= ContactFormCooldown
      && IsValidInput(a.fields.name) && IsValidInput(a.fields.email) && IsValidInput(a.fields.message)
      && a.reply == Resolved(200)
    ensures e.Failed? && !PrepareRequest(a.fields).Ok? ==> e.message == InvalidInputMessage
    ensures e.Failed? && PrepareRequest(a.fields).Ok? && a.reply.Resolved? ==> e.message == FailedToSendMessage
    ensures e.Failed? && PrepareRequest(a.fields).Ok? && a.reply.Rejected? ==> e.message == a.reply.message
  {
    if Gate(a.now, last) != Pass then CooldownRejected
    else
      match SendCompletion(a.fields, a.reply)
      case Completed => Sent
      case Threw(message) => Failed(message)
  }

  /** The value of `lastSubmissionTime` after one submit event: the clock read after a
      successful send, otherwise unchanged. */
  function NextLast(last: int, a: Attempt): int {
    if HandlerEffect(last, a) == Sent then a.completedAt else last
  }

  /** The service calls one submit event makes: one, with the prepared request, exactly when
      the gate passes and the fields are valid. */
  function RequestsMade(last: int, a: Attempt): seq<Request> {
    if Gate(a.now, last) == Pass && PrepareRequest(a.fields).Ok? then [PrepareRequest(a.fields).value]
    else []
  }

  /** The message appended to the form for each way a submit event ends. */
  function BannerFor(e: Effect): Banner {
    match e
    case CooldownRejected => Banner(ErrorBanner, CooldownText)
    case Sent => Banner(SuccessBanner, SuccessText)
    case Failed(message) => Banner(ErrorBanner, ErrorPrefix + message)
  }

  /** A cooldown rejection calls nothing and leaves `lastSubmissionTime` alone; an accepted attempt
      calls the service at most once, and only with the fields as typed; `lastSubmissionTime` moves
      only on a successful send, and then to the clock read after it. */
  lemma HandlerFacts(last: int, a: Attempt)
    ensures HandlerEffect(last, a) == CooldownRejected ==> RequestsMade(last, a) == [] && NextLast(last, a) == last
    ensures |RequestsMade(last, a)| <= 1
    ensures forall r :: r in RequestsMade(last, a) ==>
      r.params == TemplateParams(a.fields.name, a.fields.email, a.fields.message, RecipientName, a.fields.email)
    ensures NextLast(last, a) != last ==> HandlerEffect(last, a) == Sent && NextLast(last, a) == a.completedAt
    ensures HandlerEffect(last, a) == Sent ==> NextLast(last, a) == a.completedAt
    ensures HandlerEffect(last, a) == Sent ==> RequestsMade(last, a) != []
  {
  }

  /** A second attempt that comes less than a minute after a successful one is rejected. */
  lemma SecondAttemptWithinCooldownRejected(last: int, a: Attempt, b: Attempt)
    requires HandlerEffect(last, a) == Sent
    requires b.now - a.completedAt < ContactFormCooldown
    ensures HandlerEffect(NextLast(last, a), b) == CooldownRejected
    ensures RequestsMade(NextLast(last, a), b) == []
  {
  }

  /** An attempt exactly one minute after the last success passes the gate; one millisecond
      earlier it does not. */
  lemma CooldownBoundary(last: int)
    ensures Gate(last + ContactFormCooldown, last) == Pass
    ensures Gate(last + ContactFormCooldown - 1, last) == Block
  {
  }

  /** A well-formed first submission is delivered with the fields exactly as typed. */
  lemma WellFormedSubmissionDelivered(now: int, done: int)
    requires now >= ContactFormCooldown
    ensures var a := Attempt(Fields("Jane Doe", "jane@example.com", "Hello!"), now, Resolved(200), done);
      HandlerEffect(0, a) == Sent && NextLast(0, a) == done
      && RequestsMade(0, a) == [Request(ServiceId, TemplateId,
           TemplateParams("Jane Doe", "jane@example.com", "Hello!", RecipientName, "jane@example.com"))]
  {
    var a := Attempt(Fields("Jane Doe", "jane@example.com", "Hello!"), now, Resolved(200), done);
    ExampleFieldValid("Jane Doe");
    ExampleFieldValid("jane@example.com");
    ExampleFieldValid("Hello!");
    assert PrepareRequest(a.fields).Ok?;
  }

  /** A short field made of letters, digits, space, `@`, `.` and `!` passes `isValidInput`. */
  lemma ExampleFieldValid(s: string)
    requires |s| < 20
    requires forall k :: 0 <= k < |s| ==> s[k] in "abcdefghijklmnopqrstuvwxyzJDH @.!"
    ensures IsValidInput(s)
  {
  }

  /** A message holding `<script>` is refused before the service is called. */
  lemma ScriptMessageRefused(now: int, done: int)
    requires now >= ContactFormCooldown
    ensures var b := Attempt(Fields("Jane Doe", "jane@example.com", "<script>"), now, Resolved(200), done);
      HandlerEffect(0, b) == Failed(InvalidInputMessage) && RequestsMade(0, b) == [] && NextLast(0, b) == 0
  {
    assert IsSuspicious("<script>"[0]);
  }

  /** `lastSubmissionTime` after a sequence of submit events, starting from `last`. */
  function LastAfter(last: int, t: seq<Attempt>): int
    decreases |t|
  {
    if t == [] then last else NextLast(LastAfter(last, t[..|t| - 1]), t[|t| - 1])
  }

  /** What the `i`-th submit event of a sequence does. */
  function EffectAt(last: int, t: seq<Attempt>, i: nat): Effect
    requires i < |t|
  {
    HandlerEffect(LastAfter(last, t[..i]), t[i])
  }

  /** A clock that never goes back: each send completes no earlier than its gate reading, and
      every later event reads the clock no earlier than an earlier completion. */
  ghost predicate ClockMonotone(t: seq<Attempt>) {
    (forall i :: 0 <= i < |t| ==> t[i].now <= t[i].completedAt)
    && (forall i, j :: 0 <= i < j < |t| ==> t[i].completedAt <= t[j].now)
  }

  /** With a clock that never goes back, `lastSubmissionTime` is never below the completion time
      of any earlier successful send. */
  lemma {:induction false} LastAfterCoversSuccesses(last: int, t: seq<Attempt>, i: nat, n: nat)
    requires ClockMonotone(t)
    requires i < n <= |t|
    requires EffectAt(last, t, i) == Sent
    ensures LastAfter(last, t[..n]) >= t[i].completedAt
    decreases n
  {
    assert t[..n][..n - 1] == t[..n - 1];
    if n == i + 1 {
      assert LastAfter(last, t[..n]) == NextLast(LastAfter(last, t[..i]), t[i]);
    } else {
      LastAfterCoversSuccesses(last, t, i, n - 1);
      var before := LastAfter(last, t[..n - 1]);
      assert LastAfter(last, t[..n]) == NextLast(before, t[n - 1]);
      if HandlerEffect(before, t[n - 1]) == Sent {
        assert t[i].completedAt <= t[n - 1].now <= t[n - 1].completedAt;
      }
    }
  }

  /** The cooldown's purpose: with a clock that never goes back, every attempt the gate lets
      through comes at least a minute after the completion of every earlier successful send. */
  lemma AcceptedAttemptsSpacedByCooldown(last: int, t: seq<Attempt>, i: nat, j: nat)
    requires ClockMonotone(t)
    requires i < j < |t|
    requires EffectAt(last, t, i) == Sent
    requires EffectAt(last, t, j) != CooldownRejected
    ensures t[j].now - t[i].completedAt >= ContactFormCooldown
  {
    LastAfterCoversSuccesses(last, t, i, j);
  }

  /** The submit button: `disabled` and its text. */
  class SubmitButton {
    var disabled: bool
    var text: string

    constructor (text0: string)
      ensures !disabled && text == text0
    {
      disabled := false;
      text := text0;
    }

    /** `setLoadingState(button, isLoading)`. */
    method SetLoadingState(isLoading: bool)
      modifies this
      ensures disabled == isLoading
      ensures text == if isLoading then BusyLabel else IdleLabel
    {
      if isLoading {
        disabled := true;
        text := BusyLabel;
      } else {
        disabled := false;
        text := IdleLabel;
      }
    }
  }

  /** The e-mail service as the form sees it: the requests it has been handed, in order. Its
      answer is not computed here; each call is given the reply the service settles with. */
  class DeliveryService {
    var requests: seq<Request>

    constructor ()
      ensures requests == []
    {
      requests := [];
    }

    /** `emailjs.send(service, template, params)`, awaited. */
    method Send(request: Request, answer: Reply) returns (reply: Reply)
      modifies this
      ensures requests == old(requests) + [request]
      ensures reply == answer
    {
      requests := requests + [request];
      reply := answer;
    }
  }

  /** The contact form with the state its submit handler closes over. */
  class ContactForm {
    const button: SubmitButton
    const service: DeliveryService
    var lastSubmissionTime: int
    var banners: seq<Banner>

    /** `initializeContactForm`: no submission yet, so `lastSubmissionTime` is 0. */
    constructor (button: SubmitButton, service: DeliveryService)
      ensures this.button == button && this.service == service
      ensures lastSubmissionTime == 0 && banners == []
    {
      this.button := button;
      this.service := service;
      lastSubmissionTime := 0;
      banners := [];
    }

    /** `validateFormSubmission(form, last)` with the intended constant; a rejection appends the
        "please wait" banner. */
    method ValidateFormSubmission(now: int, last: int) returns (ok: bool)
      modifies this`banners
      ensures ok <==> Gate(now, last) == Pass
      ensures banners == if ok then old(banners) else old(banners) + [Banner(ErrorBanner, CooldownText)]
    {
      if now - last < ContactFormCooldown {
        banners := banners + [Banner(ErrorBanner, CooldownText)];
        return false;
      }
      return true;
    }

    /** `sendContactForm(form)`: screens the fields, calls the service once with the sanitized
        fields, and throws on a non-200 status. */
    method SendContactForm(f: Fields, answer: Reply) returns (c: Completion)
      modifies service
      ensures c == SendCompletion(f, answer)
      ensures service.requests == old(service.requests) +
        (if PrepareRequest(f).Ok? then [PrepareRequest(f).value] else [])
    {
      var prepared := PrepareRequest(f);
      if prepared.Err? {
        return Threw(prepared.error);
      }
      var reply := service.Send(prepared.value, answer);
      match reply
      case Resolved(status) =>
        if status != 200 {
          return Threw(FailedToSendMessage);
        }
        return Completed;
      case Rejected(message) =>
        return Threw(message);
    }

    /** The submit handler with the intended cooldown constant. */
    method HandleSubmit(a: Attempt) returns (e: Effect)
      modifies this, button, service
      ensures e == HandlerEffect(old(lastSubmissionTime), a)
      ensures lastSubmissionTime == NextLast(old(lastSubmissionTime), a)
      ensures banners == old(banners) + [BannerFor(e)]
      ensures service.requests == old(service.requests) + RequestsMade(old(lastSubmissionTime), a)
      ensures e == CooldownRejected ==> unchanged(button)
      ensures e != CooldownRejected ==> !button.disabled && button.text == IdleLabel
    {
      var ok := ValidateFormSubmission(a.now, lastSubmissionTime);
      if !ok {
        return CooldownRejected;
      }
      button.SetLoadingState(true);
      var c := SendContactForm(a.fields, a.reply);
      match c {
        case Completed =>
          banners := banners + [Banner(SuccessBanner, SuccessText)];
          lastSubmissionTime := a.completedAt;
          e := Sent;
        case Threw(message) =>
          banners := banners + [Banner(ErrorBanner, ErrorPrefix + message)];
          e := Failed(message);
      }
      button.SetLoadingState(false);
    }

    /** The submit handler as written: the gate throws a ReferenceError, so the `async`
        listener's promise rejects before the button, the service, the banners or
        `lastSubmissionTime` are touched. The error's text depends on the JavaScript engine. */
    method HandleSubmitAsWritten(a: Attempt) returns (rejected: Option<string>)
      modifies this, button, service
      ensures rejected.Some?
      ensures unchanged(this, button, service)
    {
      var g := GateAsWritten(a.now, lastSubmissionTime);
      rejected := Some(g.message);
    }
  }
}
