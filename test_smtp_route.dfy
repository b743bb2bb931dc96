/**
 * The `/api/test-smtp` route: the same credential guard as the send route, then a
 * simulated success that echoes the configuration back without its password.
 */
module TestSmtpRoute {
  import opened Wrappers
  import opened Text
  import opened Smtp

  /** The request body; only `smtpConfig` is read. */
  datatype TestSmtpRequest = TestSmtpRequest(smtpConfig: Option<SmtpConfig>)

  /** What the reply shows of the configuration: no password field. */
  datatype SmtpDetails = SmtpDetails(
    service: string,
    host: Option<string>,
    port: Option<Num>,
    secure: Option<bool>,
    user: string)

  datatype Body =
    | Failure(error: string)
    | Checked(success: bool, message: string, previewOnly: bool, smtpDetails: SmtpDetails)

  datatype Reply = Reply(status: int, body: Body)

  const CheckedMessage: string :=
    "SMTP configuration looks valid (Note: actual connection testing is only available in production)"

  const CustomService: string := "custom"

  /** `smtpConfig.service || "custom"`: an absent or empty service reads "custom". */
  function ServiceName(config: SmtpConfig): (name: string)
    ensures name != ""
    ensures config.service.Some? && config.service.value != "" ==> name == config.service.value
    ensures config.service.None? || config.service.value == "" ==> name == CustomService
  {
    match config.service
    case Some(s) => if s != "" then s else CustomService
    case None => CustomService
  }

  /** `POST /api/test-smtp`. */
  function Post(request: Parsed<TestSmtpRequest>): (reply: Reply)
    ensures request.Malformed? ==> reply == Reply(500, Failure("Failed to process request: " + request.reason))
    ensures request.Decoded? && !HasCredentials(request.value.smtpConfig) ==>
      reply == Reply(400, Failure("Invalid SMTP configuration"))
    ensures reply.status == 200 <==> request.Decoded? && HasCredentials(request.value.smtpConfig)
    ensures reply.status == 200 ==>
      var config := request.value.smtpConfig.value;
      && reply.body.Checked? && reply.body.success && reply.body.previewOnly
      && reply.body.message == CheckedMessage
      && reply.body.smtpDetails.service == ServiceName(config)
      && reply.body.smtpDetails.host == config.host
      && reply.body.smtpDetails.port == config.port
      && reply.body.smtpDetails.secure == config.secure
      && reply.body.smtpDetails.user == config.auth.value.user
  {
    match request
    case Malformed(reason) => Reply(500, Failure("Failed to process request: " + reason))
    case Decoded(body) =>
      if !HasCredentials(body.smtpConfig) then Reply(400, Failure("Invalid SMTP configuration"))
      else
        var config := body.smtpConfig.value;
        var details := SmtpDetails(ServiceName(config), config.host, config.port, config.secure, config.auth.value.user);
        Reply(200, Checked(true, CheckedMessage, true, details))
  }

  /** The reply never depends on the password beyond its being non-empty: replacing
      one non-empty password by another leaves the reply unchanged. */
  lemma ReplyIgnoresPassword(config: SmtpConfig, otherPass: string)
    requires config.auth.Some? && config.auth.value.pass != "" && otherPass != ""
    ensures var other := config.(auth := Some(config.auth.value.(pass := otherPass)));
      Post(Decoded(TestSmtpRequest(Some(config)))) == Post(Decoded(TestSmtpRequest(Some(other))))
  {
  }
}
