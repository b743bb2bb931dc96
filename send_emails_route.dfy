/**
 * The `/api/send-emails` route: the simulated batch it always runs, the real
 * batch that goes through the mail transport, and the request handler.
 *
 * `Math.random()` becomes `draw(i)`, the number drawn for the i-th recipient;
 * the transport's `createTransport`, `verify` and `sendMail` become the scripted
 * outcomes of a `TransportScript`.
 */
module SendEmailsRoute {
  import opened Wrappers
  import opened Text
  import opened Template
  import opened Smtp

  /** The `results` record both batch loops fill in. */
  datatype Results = Results(success: nat, failed: nat, errors: seq<string>, debug: seq<string>)

  /** `recipient.email` written into a string: a missing field reads "undefined". */
  function Address(recipient: Row): string {
    match Lookup(recipient, "email")
    case None => "undefined"
    case Some(v) => ValueText(v)
  }

  /** The indices below `n` that satisfy `fails`, in increasing order. */
  function Failing(n: nat, fails: nat -> bool): (f: seq<nat>)
    ensures forall j :: 0 <= j < |f| ==> f[j] < n && fails(f[j])
    ensures forall j, k :: 0 <= j < k < |f| ==> f[j] < f[k]
    ensures forall i :: 0 <= i < n && fails(i) ==> i in f
    ensures |f| <= n
  {
    if n == 0 then []
    else Failing(n - 1, fails) + (if fails(n - 1) then [n - 1] else [])
  }

  // The simulated batch.

  const FailureRate: real := 0.1
  const PreviewBanner: string := "Running in preview mode - emails are simulated"

  /** A simulated send fails when the number drawn for it does not exceed the rate. */
  function MockFails(draw: nat -> real): nat -> bool {
    (i: nat) => !(draw(i) > FailureRate)
  }

  function MockLine(recipient: Row, delivered: bool): string {
    if delivered then "Simulated successful email to: " + Address(recipient)
    else "Simulated failure for: " + Address(recipient)
  }

  /** One turn of the simulated loop. */
  function MockStep(r: Results, recipient: Row, delivered: bool): Results {
    if delivered then
      r.(success := r.success + 1, debug := r.debug + [MockLine(recipient, delivered)])
    else
      r.(failed := r.failed + 1,
         errors := r.errors + ["Mock failure for " + Address(recipient)],
         debug := r.debug + [MockLine(recipient, delivered)])
  }

  /** The results of the simulated loop after the given recipients. */
  function MockTally(recipients: seq<Row>, draw: nat -> real): Results
    decreases |recipients|
  {
    if recipients == [] then Results(0, 0, [], [PreviewBanner])
    else
      var n := |recipients| - 1;
      MockStep(MockTally(recipients[..n], draw), recipients[n], draw(n) > FailureRate)
  }

  /** Every simulated recipient is counted once, as a success or as a failure, and
      there is one error per failure. */
  lemma {:induction false} MockTallyCounts(recipients: seq<Row>, draw: nat -> real)
    ensures MockTally(recipients, draw).failed == |Failing(|recipients|, MockFails(draw))|
    ensures MockTally(recipients, draw).success + MockTally(recipients, draw).failed == |recipients|
    ensures |MockTally(recipients, draw).errors| == MockTally(recipients, draw).failed
    decreases |recipients|
  {
    if recipients != [] {
      var n := |recipients| - 1;
      MockTallyCounts(recipients[..n], draw);
    }
  }

  /** The simulated errors name the failed recipients, in order. */
  lemma {:induction false} MockErrorsNameFailures(recipients: seq<Row>, draw: nat -> real)
    ensures var r, f := MockTally(recipients, draw), Failing(|recipients|, MockFails(draw));
      |r.errors| == |f| &&
      forall j :: 0 <= j < |f| ==> r.errors[j] == "Mock failure for " + Address(recipients[f[j]])
    decreases |recipients|
  {
    if recipients != [] {
      var n := |recipients| - 1;
      var front := recipients[..n];
      MockErrorsNameFailures(front, draw);
      var r0 := MockTally(front, draw);
      var f := Failing(n, MockFails(draw));
      MockStepErrors(r0, recipients[n], draw(n) > FailureRate);
      assert MockFails(draw)(n) == !(draw(n) > FailureRate);
      MockErrorsExtend(r0.errors, f, recipients, draw);
    }
  }

  lemma MockStepErrors(r: Results, recipient: Row, delivered: bool)
    ensures MockStep(r, recipient, delivered).errors ==
      r.errors + (if !delivered then ["Mock failure for " + Address(recipient)] else [])
  {
  }

  /** The inductive step of `MockErrorsNameFailures`, on the error list alone. */
  lemma MockErrorsExtend(errors: seq<string>, f: seq<nat>, recipients: seq<Row>, draw: nat -> real)
    requires recipients != [] && |errors| == |f|
    requires forall j :: 0 <= j < |f| ==> f[j] < |recipients| - 1
    requires forall j :: 0 <= j < |f| ==> errors[j] == "Mock failure for " + Address(recipients[f[j]])
    ensures var n := |recipients| - 1;
      var fails := !(draw(n) > FailureRate);
      var errors', f' := errors + (if fails then ["Mock failure for " + Address(recipients[n])] else []),
                         f + (if fails then [n] else []);
      |errors'| == |f'| &&
      forall j :: 0 <= j < |f'| ==> errors'[j] == "Mock failure for " + Address(recipients[f'[j]])
  {
  }

  /** The line the simulated loop logs for each recipient, in order. */
  function MockLog(recipients: seq<Row>, draw: nat -> real): seq<string> {
    seq(|recipients|, i requires 0 <= i < |recipients| => MockLine(recipients[i], draw(i) > FailureRate))
  }

  /** The simulated log holds the banner, then one line per recipient in order. */
  lemma {:induction false} MockLogFollowsRecipients(recipients: seq<Row>, draw: nat -> real)
    ensures MockTally(recipients, draw).debug == [PreviewBanner] + MockLog(recipients, draw)
    decreases |recipients|
  {
    if recipients != [] {
      var n := |recipients| - 1;
      var front := recipients[..n];
      MockLogFollowsRecipients(front, draw);
      MockStepLog(MockTally(front, draw), recipients[n], draw(n) > FailureRate);
      MockLogStep(recipients, draw);
    }
  }

  lemma MockStepLog(r: Results, recipient: Row, delivered: bool)
    ensures MockStep(r, recipient, delivered).debug == r.debug + [MockLine(recipient, delivered)]
  {
  }

  lemma MockLogStep(recipients: seq<Row>, draw: nat -> real)
    requires recipients != []
    ensures var n := |recipients| - 1;
      MockLog(recipients, draw) == MockLog(recipients[..n], draw) + [MockLine(recipients[n], draw(n) > FailureRate)]
  {
    var n := |recipients| - 1;
    var front := recipients[..n];
    assert forall i :: 0 <= i < n ==> front[i] == recipients[i];
  }

  /** One more recipient is one more turn of the simulated loop. */
  lemma MockTallyStep(recipients: seq<Row>, i: nat, draw: nat -> real)
    requires i < |recipients|
    ensures MockTally(recipients[..i + 1], draw) == MockStep(MockTally(recipients[..i], draw), recipients[i], draw(i) > FailureRate)
  {
    assert recipients[..i + 1][..i] == recipients[..i];
  }

  /** One turn of the simulated loop, once the draw has decided whether it succeeds. */
  method MockSendTo(results: Results, recipient: Row, delivered: bool) returns (next: Results)
    ensures next == MockStep(results, recipient, delivered)
  {
    var to := Address(recipient);
    next := results;
    if delivered {
      next := next.(success := next.success + 1);
      next := next.(debug := next.debug + ["Simulated successful email to: " + to]);
    } else {
      next := next.(failed := next.failed + 1);
      next := next.(errors := next.errors + ["Mock failure for " + to]);
      next := next.(debug := next.debug + ["Simulated failure for: " + to]);
    }
  }

  /** `mockSendEmails`: the template and subject are not used. */
  method MockSendEmails(recipients: seq<Row>, messageTemplate: string, subject: string, draw: nat -> real)
    returns (results: Results)
    ensures results == MockTally(recipients, draw)
    ensures results.success + results.failed == |recipients| && |results.errors| == results.failed
  {
    results := Results(0, 0, [], [PreviewBanner]);
    var i := 0;
    while i < |recipients|
      invariant 0 <= i <= |recipients|
      invariant results == MockTally(recipients[..i], draw)
    {
      results := MockSendTo(results, recipients[i], draw(i) > FailureRate);
      MockTallyStep(recipients, i, draw);
      i := i + 1;
    }
    assert recipients[..i] == recipients;
    MockTallyCounts(recipients, draw);
  }

  // The real batch.

  /** What one `sendMail` call did: the id the server gave the message, or the error
      it threw (its message, and what `JSON.stringify` made of it). */
  datatype SendOutcome = Delivered(messageId: string) | Rejected(message: string, details: string)

  /** The behaviour of the mail transport for one batch: whether `createTransport`
      throws, what the first and the alternative `verify` report, and the outcome of
      the i-th `sendMail`. */
  datatype TransportScript = TransportScript(
    createError: Option<string>,
    verifyError: Option<string>,
    altVerifyError: Option<string>,
    send: nat -> SendOutcome)

  /** The options handed to `sendMail`; `to` is the raw `recipient.email`, absent
      when the row has no column named exactly "email". */
  datatype MailOptions = MailOptions(from: string, to: Option<Value>, subject: string, text: string, html: string)

  /** One `sendMail` call: the configuration of the transporter it went through and
      the mail it was given. */
  datatype Delivery = Delivery(transport: SmtpConfig, options: MailOptions)

  const DefaultSubject: string := "Your Personalized Message"

  function MailFor(config: SmtpConfig, messageTemplate: string, recipient: Row): MailOptions
    requires config.auth.Some?
  {
    var text := Render(messageTemplate, recipient);
    MailOptions(config.auth.value.user, Lookup(recipient, "email"), DefaultSubject, text, HtmlBody(text))
  }

  /** The log lines written before the first recipient, once the transporter exists. */
  function PreflightLog(config: SmtpConfig, t: TransportScript): seq<string> {
    ["Creating transporter with provided SMTP config", "Attempting to verify SMTP connection"]
    + match t.verifyError
      case None => ["SMTP connection verified successfully"]
      case Some(e) =>
        ["SMTP verification failed: " + e]
        + if config.service != Some(GmailService) then []
          else
            ["Trying alternative Gmail configuration"]
            + match t.altVerifyError
              case None => ["Alternative Gmail configuration successful"]
              case Some(e2) => ["Alternative Gmail configuration failed: " + e2]
  }

  /** The configurations `verify` is called on: the alternative one only for Gmail and
      only after the first verification failed. */
  function Verified(config: SmtpConfig, t: TransportScript): seq<SmtpConfig> {
    if t.verifyError.Some? && config.service == Some(GmailService) then [config, GmailAltConfig(config)]
    else [config]
  }

  function SendError(recipient: Row, outcome: SendOutcome): string
    requires outcome.Rejected?
  {
    "Failed to send to " + Address(recipient) + ": " + outcome.message
  }

  function AttemptLine(recipient: Row): string {
    "Attempting to send email to " + Address(recipient)
  }

  /** The log line that follows an attempt: the message id, or the error's details. */
  function OutcomeLine(recipient: Row, outcome: SendOutcome): string {
    match outcome
    case Delivered(id) => "Email sent to " + Address(recipient) + ", messageId: " + id
    case Rejected(_, details) => "Error details for " + Address(recipient) + ": " + details
  }

  /** One turn of the real loop: the attempt is logged, then its outcome. */
  function SendStep(r: Results, recipient: Row, outcome: SendOutcome): Results {
    var logged := r.debug + [AttemptLine(recipient), OutcomeLine(recipient, outcome)];
    if outcome.Delivered? then
      r.(success := r.success + 1, debug := logged)
    else
      r.(failed := r.failed + 1, errors := r.errors + [SendError(recipient, outcome)], debug := logged)
  }

  /** The results of the real loop after the given recipients, when the preflight
      wrote `preflight` to the log. */
  function SendTally(preflight: seq<string>, recipients: seq<Row>, send: nat -> SendOutcome): Results
    decreases |recipients|
  {
    if recipients == [] then Results(0, 0, [], preflight)
    else
      var n := |recipients| - 1;
      SendStep(SendTally(preflight, recipients[..n], send), recipients[n], send(n))
  }

  function SendFails(send: nat -> SendOutcome): nat -> bool {
    (i: nat) => send(i).Rejected?
  }

  /** Every real recipient is attempted and counted once, and each failure adds one error. */
  lemma {:induction false} SendTallyCounts(preflight: seq<string>, recipients: seq<Row>, send: nat -> SendOutcome)
    ensures SendTally(preflight, recipients, send).failed == |Failing(|recipients|, SendFails(send))|
    ensures SendTally(preflight, recipients, send).success + SendTally(preflight, recipients, send).failed == |recipients|
    ensures |SendTally(preflight, recipients, send).errors| == SendTally(preflight, recipients, send).failed
    decreases |recipients|
  {
    if recipients != [] {
      var n := |recipients| - 1;
      SendTallyCounts(preflight, recipients[..n], send);
    }
  }

  /** The real log keeps the preflight lines, then two lines per recipient: the
      attempt, and its success or its error details. */
  lemma {:induction false} SendLogFollowsRecipients(preflight: seq<string>, recipients: seq<Row>, send: nat -> SendOutcome)
    ensures var r := SendTally(preflight, recipients, send);
      |r.debug| == |preflight| + 2 * |recipients| && r.debug[..|preflight|] == preflight &&
      forall i :: 0 <= i < |recipients| ==>
        r.debug[|preflight| + 2 * i] == AttemptLine(recipients[i]) &&
        r.debug[|preflight| + 2 * i + 1] == OutcomeLine(recipients[i], send(i))
    decreases |recipients|
  {
    if recipients != [] {
      var n := |recipients| - 1;
      var front := recipients[..n];
      SendLogFollowsRecipients(preflight, front, send);
      var r0 := SendTally(preflight, front, send);
      SendStepLog(r0, recipients[n], send(n));
      forall i | 0 <= i < n
        ensures r0.debug[|preflight| + 2 * i] == AttemptLine(recipients[i])
        ensures r0.debug[|preflight| + 2 * i + 1] == OutcomeLine(recipients[i], send(i))
      {
        assert front[i] == recipients[i];
      }
      LogExtend(r0.debug, preflight, recipients, send);
    }
  }

  /** The inductive step of `SendLogFollowsRecipients`, on the log alone. */
  lemma LogExtend(debug: seq<string>, preflight: seq<string>, recipients: seq<Row>, send: nat -> SendOutcome)
    requires recipients != []
    requires |debug| == |preflight| + 2 * (|recipients| - 1) && debug[..|preflight|] == preflight
    requires forall i :: 0 <= i < |recipients| - 1 ==>
      debug[|preflight| + 2 * i] == AttemptLine(recipients[i]) &&
      debug[|preflight| + 2 * i + 1] == OutcomeLine(recipients[i], send(i))
    ensures var n := |recipients| - 1;
      var debug' := debug + [AttemptLine(recipients[n]), OutcomeLine(recipients[n], send(n))];
      |debug'| == |preflight| + 2 * |recipients| && debug'[..|preflight|] == preflight &&
      forall i :: 0 <= i < |recipients| ==>
        debug'[|preflight| + 2 * i] == AttemptLine(recipients[i]) &&
        debug'[|preflight| + 2 * i + 1] == OutcomeLine(recipients[i], send(i))
  {
    var n := |recipients| - 1;
    var debug' := debug + [AttemptLine(recipients[n]), OutcomeLine(recipients[n], send(n))];
    assert debug'[..|preflight|] == debug[..|preflight|];
    forall i | 0 <= i < |recipients|
      ensures debug'[|preflight| + 2 * i] == AttemptLine(recipients[i])
      ensures debug'[|preflight| + 2 * i + 1] == OutcomeLine(recipients[i], send(i))
    {
      if i < n {
        assert debug'[|preflight| + 2 * i] == debug[|preflight| + 2 * i];
        assert debug'[|preflight| + 2 * i + 1] == debug[|preflight| + 2 * i + 1];
      }
    }
  }

  /** The errors of the real loop name the rejected recipients in order, each with the
      transport's message. */
  lemma {:induction false} SendErrorsNameFailures(preflight: seq<string>, recipients: seq<Row>, send: nat -> SendOutcome)
    ensures var r, f := SendTally(preflight, recipients, send), Failing(|recipients|, SendFails(send));
      |r.errors| == |f| &&
      forall j :: 0 <= j < |f| ==> r.errors[j] == SendError(recipients[f[j]], send(f[j]))
    decreases |recipients|
  {
    if recipients != [] {
      var n := |recipients| - 1;
      var front := recipients[..n];
      SendErrorsNameFailures(preflight, front, send);
      var r0 := SendTally(preflight, front, send);
      SendStepErrors(r0, recipients[n], send(n));
      ErrorsExtend(r0.errors, Failing(n, SendFails(send)), recipients, send);
    }
  }

  /** The inductive step of `SendErrorsNameFailures`, on the error list alone. */
  lemma ErrorsExtend(errors: seq<string>, f: seq<nat>, recipients: seq<Row>, send: nat -> SendOutcome)
    requires recipients != [] && |errors| == |f|
    requires forall j :: 0 <= j < |f| ==> f[j] < |recipients| - 1 && send(f[j]).Rejected?
    requires forall j :: 0 <= j < |f| ==> errors[j] == SendError(recipients[f[j]], send(f[j]))
    ensures var n := |recipients| - 1;
      var errors', f' := errors + (if send(n).Rejected? then [SendError(recipients[n], send(n))] else []),
                         f + (if send(n).Rejected? then [n] else []);
      |errors'| == |f'| &&
      forall j :: 0 <= j < |f'| ==> errors'[j] == SendError(recipients[f'[j]], send(f'[j]))
  {
  }

  /** One more recipient is one more turn of the real loop. */
  lemma SendTallyStep(preflight: seq<string>, recipients: seq<Row>, i: nat, send: nat -> SendOutcome)
    requires i < |recipients|
    ensures SendTally(preflight, recipients[..i + 1], send)
            == SendStep(SendTally(preflight, recipients[..i], send), recipients[i], send(i))
  {
    assert recipients[..i + 1][..i] == recipients[..i];
  }

  lemma SendStepDelivered(r: Results, recipient: Row, id: string)
    ensures var to := Address(recipient);
      SendStep(r, recipient, Delivered(id))
      == r.(success := r.success + 1,
            debug := r.debug + ["Attempting to send email to " + to] + ["Email sent to " + to + ", messageId: " + id])
  {
  }

  lemma SendStepRejected(r: Results, recipient: Row, reason: string, details: string)
    ensures var to := Address(recipient);
      SendStep(r, recipient, Rejected(reason, details))
      == r.(failed := r.failed + 1,
            errors := r.errors + ["Failed to send to " + to + ": " + reason],
            debug := r.debug + ["Attempting to send email to " + to] + ["Error details for " + to + ": " + details])
  {
  }

  lemma SendStepLog(r: Results, recipient: Row, outcome: SendOutcome)
    ensures SendStep(r, recipient, outcome).debug == r.debug + [AttemptLine(recipient), OutcomeLine(recipient, outcome)]
  {
  }

  lemma SendStepErrors(r: Results, recipient: Row, outcome: SendOutcome)
    ensures SendStep(r, recipient, outcome).errors ==
      r.errors + (if outcome.Rejected? then [SendError(recipient, outcome)] else [])
  {
  }

  /** The mails handed to `transporter`, one per recipient in order. */
  function MailsFor(transporter: SmtpConfig, config: SmtpConfig, messageTemplate: string, recipients: seq<Row>): seq<Delivery>
    requires config.auth.Some?
  {
    seq(|recipients|, k requires 0 <= k < |recipients| => Delivery(transporter, MailFor(config, messageTemplate, recipients[k])))
  }

  lemma MailsForStep(transporter: SmtpConfig, config: SmtpConfig, messageTemplate: string, recipients: seq<Row>, i: nat)
    requires config.auth.Some? && i < |recipients|
    ensures MailsFor(transporter, config, messageTemplate, recipients[..i + 1])
            == MailsFor(transporter, config, messageTemplate, recipients[..i])
               + [Delivery(transporter, MailFor(config, messageTemplate, recipients[i]))]
  {
    var front, longer := recipients[..i], recipients[..i + 1];
    assert forall k :: 0 <= k < i ==> longer[k] == front[k];
  }

  /** One turn of the per-recipient loop of `sendRealEmails`: the message is
      personalised and handed to `transporter`, and a rejection is caught and
      recorded instead of ending the batch. */
  method SendTo(results: Results, recipient: Row, messageTemplate: string, config: SmtpConfig,
                transporter: SmtpConfig, outcome: SendOutcome)
    returns (next: Results, delivery: Delivery)
    requires config.auth.Some?
    ensures next == SendStep(results, recipient, outcome)
    ensures delivery == Delivery(transporter, MailFor(config, messageTemplate, recipient))
  {
    var to := Address(recipient);
    var message := Personalize(messageTemplate, recipient);
    var options := MailOptions(config.auth.value.user, Lookup(recipient, "email"), DefaultSubject, message, HtmlBody(message));
    next := results.(debug := results.debug + ["Attempting to send email to " + to]);
    delivery := Delivery(transporter, options);
    match outcome {
      case Delivered(id) =>
        next := next.(debug := next.debug + ["Email sent to " + to + ", messageId: " + id]);
        next := next.(success := next.success + 1);
        SendStepDelivered(results, recipient, id);
      case Rejected(reason, details) =>
        next := next.(failed := next.failed + 1);
        next := next.(errors := next.errors + ["Failed to send to " + to + ": " + reason]);
        next := next.(debug := next.debug + ["Error details for " + to + ": " + details]);
        SendStepRejected(results, recipient, reason, details);
    }
  }

  /** The per-recipient loop of `sendRealEmails`: every recipient is attempted, in
      order, whatever happened to the ones before. */
  method SendEach(recipients: seq<Row>, messageTemplate: string, config: SmtpConfig, transporter: SmtpConfig,
                  send: nat -> SendOutcome, preflight: seq<string>)
    returns (results: Results, deliveries: seq<Delivery>)
    requires config.auth.Some?
    ensures results == SendTally(preflight, recipients, send)
    ensures deliveries == MailsFor(transporter, config, messageTemplate, recipients)
  {
    results := Results(0, 0, [], preflight);
    deliveries := [];
    var i := 0;
    while i < |recipients|
      invariant 0 <= i <= |recipients|
      invariant results == SendTally(preflight, recipients[..i], send)
      invariant deliveries == MailsFor(transporter, config, messageTemplate, recipients[..i])
    {
      var delivery;
      results, delivery := SendTo(results, recipients[i], messageTemplate, config, transporter, send(i));
      deliveries := deliveries + [delivery];
      SendTallyStep(preflight, recipients, i, send);
      MailsForStep(transporter, config, messageTemplate, recipients, i);
      i := i + 1;
    }
    assert recipients[..i] == recipients;
  }

  /** The log of `sendRealEmails` up to the connection check, once the transporter
      exists: a failed verification is only logged, and for Gmail the alternative configuration is
      verified in turn; the transporter that check builds is bound to a new name that
      nothing reads. */
  method VerifyConnection(config: SmtpConfig, t: TransportScript)
    returns (log: seq<string>, verified: seq<SmtpConfig>)
    ensures log == PreflightLog(config, t)
    ensures verified == Verified(config, t)
  {
    log := ["Creating transporter with provided SMTP config", "Attempting to verify SMTP connection"];
    verified := [config];
    if t.verifyError.None? {
      log := log + ["SMTP connection verified successfully"];
    } else {
      log := log + ["SMTP verification failed: " + t.verifyError.value];
      if config.service == Some(GmailService) {
        log := log + ["Trying alternative Gmail configuration"];
        var altConfig := GmailAltConfig(config);
        verified := verified + [altConfig];
        if t.altVerifyError.None? {
          log := log + ["Alternative Gmail configuration successful"];
          var transporter := altConfig;
        } else {
          log := log + ["Alternative Gmail configuration failed: " + t.altVerifyError.value];
        }
      }
    }
  }

  /** `sendRealEmails`. A failed verification, even a failed Gmail retry, never stops
      the batch, and every mail goes through the transporter built from the original
      configuration: the transporter the Gmail retry verified is bound to a new name
      that nothing reads. Only a throwing `createTransport` ends the batch. */
  method SendRealEmails(recipients: seq<Row>, messageTemplate: string, config: SmtpConfig, t: TransportScript)
    returns (outcome: Result<Results>, verified: seq<SmtpConfig>, deliveries: seq<Delivery>)
    requires config.auth.Some?
    ensures t.createError.Some? ==>
      outcome == Err("SMTP connection failed: " + t.createError.value) && verified == [] && deliveries == []
    ensures t.createError.None? ==>
      && outcome == Ok(SendTally(PreflightLog(config, t), recipients, t.send))
      && outcome.value.success + outcome.value.failed == |recipients|
      && |outcome.value.errors| == outcome.value.failed
      && verified == Verified(config, t)
      && deliveries == MailsFor(config, config, messageTemplate, recipients)
  {
    if t.createError.Some? {
      outcome, verified, deliveries := Err("SMTP connection failed: " + t.createError.value), [], [];
      return;
    }
    var transporter := config;
    var debug;
    debug, verified := VerifyConnection(config, t);
    var results;
    results, deliveries := SendEach(recipients, messageTemplate, config, transporter, t.send, debug);
    SendTallyCounts(debug, recipients, t.send);
    outcome := Ok(results);
  }

  // The request handler.

  /** The `recipients` field of the request body. */
  datatype RecipientsField = Missing | NotAnArray | List(rows: seq<Row>)

  /** The request body; an absent or empty `messageTemplate` is the empty string. */
  datatype SendEmailsRequest = SendEmailsRequest(
    recipients: RecipientsField,
    messageTemplate: string,
    smtpConfig: Option<SmtpConfig>,
    subject: Option<string>)

  datatype Body =
    | Failure(error: string)
    | Summary(message: string, details: Results, preview: bool, note: string)

  datatype Reply = Reply(status: int, body: Body)

  const PreviewNotes: seq<string> := [
    "Note: In the preview environment, emails cannot actually be sent due to DNS lookup limitations",
    "When deployed to production, real emails will be sent using the configured SMTP settings"
  ]

  const PreviewNote: string :=
    "In the preview environment, emails are simulated. Deploy to production to send real emails."

  predicate HasRecipients(request: SendEmailsRequest) {
    request.recipients.List? && |request.recipients.rows| > 0
  }

  /** The three guards of the handler, which must all pass for a batch to run. */
  predicate Accepts(request: SendEmailsRequest) {
    HasRecipients(request) && request.messageTemplate != "" && HasCredentials(request.smtpConfig)
  }

  function SummaryMessage(results: Results): string {
    NatToDecimal(results.success) + " emails sent successfully, " + NatToDecimal(results.failed) + " failed"
  }

  /** `POST /api/send-emails`: the guards, in order, then the simulated batch. */
  function Post(request: Parsed<SendEmailsRequest>, draw: nat -> real): (reply: Reply)
    ensures request.Malformed? ==> reply == Reply(500, Failure("Failed to process request: " + request.reason))
    ensures request.Decoded? && !HasRecipients(request.value) ==> reply == Reply(400, Failure("No recipients provided"))
    ensures request.Decoded? && HasRecipients(request.value) && request.value.messageTemplate == "" ==>
      reply == Reply(400, Failure("No message template provided"))
    ensures (request.Decoded? && HasRecipients(request.value) && request.value.messageTemplate != ""
             && !HasCredentials(request.value.smtpConfig))
            ==> reply == Reply(400, Failure("Invalid SMTP configuration"))
    ensures reply.status == 200 <==> request.Decoded? && Accepts(request.value)
    ensures reply.status == 200 ==>
      && reply.body.Summary? && reply.body.preview && reply.body.note == PreviewNote
      && reply.body.details.success + reply.body.details.failed == |request.value.recipients.rows|
      && |reply.body.details.errors| == reply.body.details.failed
      && |reply.body.details.debug| >= 2
      && reply.body.details.debug[|reply.body.details.debug| - 2..] == PreviewNotes
      && reply.body.message == SummaryMessage(reply.body.details)
    ensures reply.status == 200 ==>
      var simulated := MockTally(request.value.recipients.rows, draw);
      reply.body.details == simulated.(debug := simulated.debug + PreviewNotes)
  {
    match request
    case Malformed(reason) => Reply(500, Failure("Failed to process request: " + reason))
    case Decoded(body) =>
      if !HasRecipients(body) then Reply(400, Failure("No recipients provided"))
      else if body.messageTemplate == "" then Reply(400, Failure("No message template provided"))
      else if !HasCredentials(body.smtpConfig) then Reply(400, Failure("Invalid SMTP configuration"))
      else
        var rows := body.recipients.rows;
        var simulated := MockTally(rows, draw);
        MockTallyCounts(rows, draw);
        var details := simulated.(debug := simulated.debug + PreviewNotes);
        assert details.debug[|details.debug| - 2..] == PreviewNotes;
        Reply(200, Summary(SummaryMessage(details), details, true, PreviewNote))
  }

  /** A draw under the failure rate for the second recipient only. */
  function MiddleDraw(i: nat): real {
    if i == 1 then 0.05 else 0.5
  }

  /** The three-recipient scenario: with the second draw under the failure rate,
      two mails succeed and the one error names the second recipient. */
  lemma MiddleRecipientFails(a: Row, b: Row, c: Row)
    ensures var r := MockTally([a, b, c], MiddleDraw);
      r.success == 2 && r.failed == 1 && r.errors == ["Mock failure for " + Address(b)]
  {
    var rs := [a, b, c];
    assert rs[..2] == [a, b] && [a, b][..1] == [a] && [a][..0] == [];
    assert MockTally([], MiddleDraw) == Results(0, 0, [], [PreviewBanner]);
    var r1 := MockTally([a], MiddleDraw);
    assert r1 == MockStep(MockTally([], MiddleDraw), a, true);
    assert r1.success == 1 && r1.failed == 0 && r1.errors == [];
    var r2 := MockTally([a, b], MiddleDraw);
    assert r2 == MockStep(r1, b, false);
    assert MockTally(rs, MiddleDraw) == MockStep(r2, c, true);
  }
}
