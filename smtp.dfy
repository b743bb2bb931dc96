/**
 * The SMTP configuration object as it travels from the form to both API routes,
 * the credential guard both routes apply to it, the alternative configuration
 * tried for Gmail, and the copy of it that is written to the log.
 */
module Smtp {
  import opened Wrappers
  import opened Text

  /** `auth.user` and `auth.pass`; the empty string also stands for a missing field,
      since the routes treat both alike. */
  datatype Auth = Auth(user: string, pass: string)

  /** The JSON object passed to the mail transport: every field but `auth` belongs to
      one kind of service only, so every field is optional. */
  datatype SmtpConfig = SmtpConfig(
    service: Option<string>,
    host: Option<string>,
    port: Option<Num>,
    secure: Option<bool>,
    auth: Option<Auth>)

  /** The guard `!smtpConfig || !smtpConfig.auth || !smtpConfig.auth.user ||
      !smtpConfig.auth.pass` fails exactly when this does not hold. */
  predicate HasCredentials(config: Option<SmtpConfig>) {
    && config.Some?
    && config.value.auth.Some?
    && config.value.auth.value.user != ""
    && config.value.auth.value.pass != ""
  }

  const PasswordMask: string := "********"

  /** The configuration as the routes log it: the password is replaced by a fixed mask. */
  function MaskedForLog(config: SmtpConfig): (logged: SmtpConfig)
    requires config.auth.Some?
    ensures logged.auth.Some? && logged.auth.value.pass == PasswordMask
    ensures logged.auth.value.user == config.auth.value.user
    ensures logged.(auth := config.auth) == config
  {
    config.(auth := Some(Auth(config.auth.value.user, PasswordMask)))
  }

  /** What is logged does not depend on the password: two configurations that differ
      only in it are logged identically. */
  lemma LogHidesPassword(config: SmtpConfig, otherPass: string)
    requires config.auth.Some?
    ensures MaskedForLog(config) == MaskedForLog(config.(auth := Some(config.auth.value.(pass := otherPass))))
  {
  }

  const GmailService: string := "gmail"

  /** The configuration tried after a failed Gmail verification: implicit TLS on
      port 465, everything else as before. */
  function GmailAltConfig(config: SmtpConfig): (alt: SmtpConfig)
    ensures alt.secure == Some(true) && alt.port == Some(Int(465))
    ensures alt.(port := config.port, secure := config.secure) == config
  {
    config.(secure := Some(true), port := Some(Int(465)))
  }
}
