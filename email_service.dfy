/**
 * The mail service (backend/src/utils/emailService.js): a transport chosen
 * once from the environment and then reused, and `sendMail`, which always
 * sends from the configured sender address.
 *
 * nodemailer itself (creating transports, test accounts, verifying,
 * delivering, preview links) is outside the model: its results are
 * parameters.
 */
module EmailService {
  import opened Wrappers
  import opened JsStrings

  /** The environment variables the service reads; `None` is an unset variable. */
  datatype Env = Env(
    mailHost: Option<string>,
    mailPort: Option<string>,
    mailSecure: Option<string>,
    mailUser: Option<string>,
    mailPass: Option<string>,
    sendgridApiKey: Option<string>,
    nodeEnv: Option<string>,
    mailFrom: Option<string>)

  /** JavaScript truthiness of a possibly unset string. */
  predicate Truthy(o: Option<string>) {
    o.Some? && o.value != ""
  }

  /** `o || d`. */
  function OrElse(o: Option<string>, d: string): (r: string)
    ensures Truthy(o) ==> r == o.value
    ensures !Truthy(o) ==> r == d
  {
    if Truthy(o) then o.value else d
  }

  predicate IsProduction(env: Env) {
    env.nodeEnv == Some("production")
  }

  datatype Auth = Auth(user: string, pass: Option<string>)

  /** The account nodemailer's `createTestAccount` hands out. */
  datatype TestAccount = TestAccount(user: string, pass: string)

  /**
   * The options given to `createTransport`. A port of `None` is `NaN`; a
   * `tlsRejectUnauthorized` of `None` means no `tls` option was given.
   */
  datatype TransportConfig = TransportConfig(
    host: string,
    port: Option<int>,
    secure: bool,
    auth: Option<Auth>,
    pool: bool,
    tlsRejectUnauthorized: Option<bool>)

  /** A transport object; its identity is what memoisation preserves. */
  class Transport {
    const config: TransportConfig

    constructor (config: TransportConfig)
      ensures this.config == config
    {
      this.config := config;
    }
  }

  /** `parseInt(process.env.MAIL_PORT || '587', 10)`. */
  function ConfiguredPort(env: Env): Option<int> {
    ParseInt(OrElse(env.mailPort, "587"))
  }

  /** Without `MAIL_PORT` the port is 587. */
  lemma DefaultPort(env: Env)
    requires !Truthy(env.mailPort)
    ensures ConfiguredPort(env) == Some(587)
  {
    assert OrElse(env.mailPort, "587") == "587";
    ParseDefaultPort();
  }

  lemma ParseDefaultPort()
    ensures ParseInt("587") == Some(587)
  {
    var s := "587";
    assert TrimStart(s) == s && SignFree(s) == s;
    assert AllDigits(s);
    LeadingDigitsAll(s);
    assert s[..3] == s && s[..2] == "58" && "58"[..1] == "5" && "5"[..0] == "";
    assert DigitsValue("5") == 5;
    assert DigitsValue("58") == 58;
    assert DigitsValue(s) == 587;
  }

  /**
   * The four-way choice of `createTransporter`: an explicit SMTP host first,
   * then SendGrid, then an Ethereal test account outside production, else an
   * error. The flag is the new value of `usingTestAccount`.
   */
  function Configure(env: Env, testAccount: Result<TestAccount>): (r: Result<(TransportConfig, bool)>)
    ensures Truthy(env.mailHost) ==> r.Success? && r.value.0.host == env.mailHost.value
    ensures r.Success? && r.value.0.host == "smtp.sendgrid.net" && !Truthy(env.mailHost)
            ==> Truthy(env.sendgridApiKey)
    ensures r.Success? ==> (r.value.1 <==> !Truthy(env.mailHost) && !Truthy(env.sendgridApiKey))
    ensures r.Success? && r.value.1 ==> !IsProduction(env) && testAccount.Success?
    ensures r.Failure? <==> !Truthy(env.mailHost) && !Truthy(env.sendgridApiKey)
                            && (IsProduction(env) || testAccount.Failure?)
    ensures r.Success? && !r.value.1 ==> r.value.0.pool
                                         && r.value.0.tlsRejectUnauthorized == Some(IsProduction(env))
    ensures Truthy(env.mailHost) ==> r == Success((SmtpConfig(env), false))
    ensures !Truthy(env.mailHost) && Truthy(env.sendgridApiKey) ==> r == Success((SendGridConfig(env), false))
    ensures !Truthy(env.mailHost) && !Truthy(env.sendgridApiKey) && !IsProduction(env) && testAccount.Success?
            ==> r == Success((EtherealConfig(testAccount.value), true))
  {
    if Truthy(env.mailHost) then
      Success((SmtpConfig(env), false))
    else if Truthy(env.sendgridApiKey) then
      Success((SendGridConfig(env), false))
    else if !IsProduction(env) then
      match testAccount
      case Success(acct) => Success((EtherealConfig(acct), true))
      case Failure(e) => Failure(e)
    else
      Failure("No mail transport configured (set MAIL_HOST or SENDGRID_API_KEY).")
  }

  /** Explicit SMTP: credentials only when `MAIL_USER` is set, pooled, certificates checked only in production. */
  function SmtpConfig(env: Env): (c: TransportConfig)
    requires Truthy(env.mailHost)
    ensures c.host == env.mailHost.value && c.port == ConfiguredPort(env)
    ensures c.secure <==> env.mailSecure == Some("true")
    ensures c.auth.Some? <==> Truthy(env.mailUser)
    ensures c.auth.Some? ==> c.auth.value == Auth(env.mailUser.value, env.mailPass)
    ensures c.pool && c.tlsRejectUnauthorized == Some(IsProduction(env))
  {
    TransportConfig(
      env.mailHost.value,
      ConfiguredPort(env),
      env.mailSecure == Some("true"),
      if Truthy(env.mailUser) then Some(Auth(env.mailUser.value, env.mailPass)) else None,
      true,
      Some(IsProduction(env)))
  }

  /** SendGrid's SMTP relay: user `MAIL_USER` or `apikey`, the API key as password, never `secure`. */
  function SendGridConfig(env: Env): (c: TransportConfig)
    requires Truthy(env.sendgridApiKey)
    ensures c.host == "smtp.sendgrid.net" && !c.secure && c.pool
    ensures c.auth == Some(Auth(OrElse(env.mailUser, "apikey"), Some(env.sendgridApiKey.value)))
    ensures ConfiguredPort(env).None? || ConfiguredPort(env) == Some(0) ==> c.port == Some(587)
    ensures ConfiguredPort(env).Some? && ConfiguredPort(env) != Some(0) ==> c.port == ConfiguredPort(env)
    ensures c.tlsRejectUnauthorized == Some(IsProduction(env))
  {
    var port := ConfiguredPort(env);
    TransportConfig(
      "smtp.sendgrid.net",
      if port.None? || port == Some(0) then Some(587) else port,
      false,
      Some(Auth(OrElse(env.mailUser, "apikey"), Some(env.sendgridApiKey.value))),
      true,
      Some(IsProduction(env)))
  }

  /** Ethereal's test SMTP server with the generated account; no pool and no `tls` option. */
  function EtherealConfig(acct: TestAccount): (c: TransportConfig)
    ensures c.host == "smtp.ethereal.email" && c.port == Some(587) && !c.secure
    ensures c.auth == Some(Auth(acct.user, Some(acct.pass)))
    ensures !c.pool && c.tlsRejectUnauthorized.None?
  {
    TransportConfig("smtp.ethereal.email", Some(587), false, Some(Auth(acct.user, Some(acct.pass))), false, None)
  }

  /** What a caller of `sendMail` passes: there is no `from`. */
  datatype MailRequest = MailRequest(to: string, subject: string, html: string, text: string)

  datatype Attachment = Attachment(filename: string, content: string, contentType: string)

  /** The message handed to a transport's `sendMail`. */
  datatype MailOptions = MailOptions(
    from: string,
    to: string,
    subject: string,
    text: string,
    html: string,
    attachments: seq<Attachment>)

  /** What a transport reports after delivery. */
  datatype Info = Info(messageId: string, previewUrl: Option<string>)

  /** `process.env.MAIL_FROM || 'no-reply@example.com'`. */
  function ForcedFrom(env: Env): (from: string)
    ensures from != ""
  {
    OrElse(env.mailFrom, "no-reply@example.com")
  }

  /** A recipient passes `!to || !String(to).includes('@')` when it is non-empty and holds `@`. */
  predicate HasAt(to: string) {
    to != "" && '@' in to
  }

  /**
   * The checks `sendMail` makes once it holds a transport, and the message
   * it builds: production without `MAIL_FROM` fails first, then a recipient
   * without `@`; the sender is always the configured one.
   */
  function ComposeMail(env: Env, req: MailRequest): (r: Result<MailOptions>)
    ensures r.Success? <==> !(IsProduction(env) && !Truthy(env.mailFrom)) && HasAt(req.to)
    ensures IsProduction(env) && !Truthy(env.mailFrom)
            ==> r == Failure("MAIL_FROM must be configured in production")
    ensures r.Success? ==> r.value == MailOptions(ForcedFrom(env), req.to, req.subject, req.text, req.html, [])
  {
    if IsProduction(env) && !Truthy(env.mailFrom) then
      Failure("MAIL_FROM must be configured in production")
    else if !HasAt(req.to) then
      Failure("Valid recipient 'to' required")
    else
      Success(MailOptions(ForcedFrom(env), req.to, req.subject, req.text, req.html, []))
  }

  /** The preview link is attached only when the lookup gives a non-empty string. */
  function AttachPreview(info: Info, url: Option<string>): (r: Info)
    ensures r.messageId == info.messageId
    ensures Truthy(url) ==> r.previewUrl == url
    ensures !Truthy(url) ==> r.previewUrl == info.previewUrl
  {
    if Truthy(url) then info.(previewUrl := url) else info
  }

  /** The log line `verifyTransporter` ends with; it never throws. */
  datatype VerifyLog = VerifiedOk | VerifyFailed(message: string)

  /** The module-level state: the memoised transport and the test-account flag. */
  class MailService {
    var transporter: Transport?
    var usingTestAccount: bool

    /** The flag is only ever set together with a transport. */
    ghost predicate Valid()
      reads this
    {
      usingTestAccount ==> transporter != null
    }

    /** The state at module load: no transport, no test account. */
    constructor ()
      ensures transporter == null && !usingTestAccount && Valid()
    {
      transporter := null;
      usingTestAccount := false;
    }

    /**
     * `createTransporter`: returns the existing transport untouched, without
     * reading the environment; otherwise builds one from `Configure` and
     * keeps it. `testAccount` is what `createTestAccount` would give.
     */
    method CreateTransporter(env: Env, testAccount: Result<TestAccount>) returns (r: Result<Transport>)
      requires Valid()
      modifies this
      ensures Valid()
      ensures old(transporter) != null ==>
                r.Success? && r.value == old(transporter) && transporter == old(transporter)
                && usingTestAccount == old(usingTestAccount)
      ensures old(transporter) == null && Configure(env, testAccount).Failure? ==>
                r == Failure(Configure(env, testAccount).error) && transporter == null
                && usingTestAccount == old(usingTestAccount)
      ensures old(transporter) == null && Configure(env, testAccount).Success? ==>
                r.Success? && fresh(r.value) && transporter == r.value
                && r.value.config == Configure(env, testAccount).value.0
                && usingTestAccount == Configure(env, testAccount).value.1
    {
      if transporter != null {
        return Success(transporter);
      }
      match Configure(env, testAccount) {
        case Failure(e) =>
          r := Failure(e);
        case Success((config, test)) =>
          var t := new Transport(config);
          transporter := t;
          usingTestAccount := test;
          r := Success(t);
      }
    }

    /** `getTransporter`: the memoised transport, created on first use. */
    method GetTransporter(env: Env, testAccount: Result<TestAccount>) returns (r: Result<Transport>)
      requires Valid()
      modifies this
      ensures Valid()
      ensures old(transporter) != null ==>
                r.Success? && r.value == old(transporter) && transporter == old(transporter)
                && usingTestAccount == old(usingTestAccount)
      ensures old(transporter) == null ==>
                (r.Success? <==> Configure(env, testAccount).Success?)
                && (r.Success? ==> fresh(r.value) && transporter == r.value
                                   && r.value.config == Configure(env, testAccount).value.0)
      ensures r.Success? ==> transporter == r.value
      ensures r.Failure? ==> old(transporter) == null && transporter == null
                             && r == Failure(Configure(env, testAccount).error)
    {
      if transporter != null {
        return Success(transporter);
      }
      r := CreateTransporter(env, testAccount);
    }

    /**
     * `sendMail`: acquire the transport, check and build the message with
     * the forced sender, deliver it, and attach the preview link. `deliver`
     * stands for the transport's `sendMail`, `previewUrl` for
     * `getTestMessageUrl`. `sent` is the message handed to the transport.
     */
    method SendMail(env: Env, req: MailRequest, testAccount: Result<TestAccount>,
                    deliver: (TransportConfig, MailOptions) -> Result<Info>,
                    previewUrl: Info -> Option<string>)
      returns (r: Result<Info>, sent: Option<MailOptions>)
      requires Valid()
      modifies this
      ensures Valid()
      ensures old(transporter) != null ==> transporter == old(transporter)
      ensures sent.Some? ==> transporter != null && ComposeMail(env, req) == Success(sent.value)
                             && sent.value.from == ForcedFrom(env)
      ensures sent.Some? && deliver(transporter.config, sent.value).Success? ==>
                r == Success(AttachPreview(deliver(transporter.config, sent.value).value,
                                           previewUrl(deliver(transporter.config, sent.value).value)))
      ensures sent.Some? && deliver(transporter.config, sent.value).Failure? ==>
                r == deliver(transporter.config, sent.value)
      ensures sent.None? ==> r.Failure?
      ensures transporter != null && ComposeMail(env, req).Success? ==> sent.Some?
      ensures old(transporter) == null && Configure(env, testAccount).Failure? ==>
                sent.None? && r == Failure(Configure(env, testAccount).error)
    {
      var t := GetTransporter(env, testAccount);
      if t.Failure? {
        return Failure(t.error), None;
      }
      var transport := t.value;
      match ComposeMail(env, req) {
        case Failure(e) =>
          r, sent := Failure(e), None;
        case Success(opts) =>
          sent := Some(opts);
          match deliver(transport.config, opts) {
            case Failure(e) =>
              r := Failure(e);
            case Success(info) =>
              r := Success(AttachPreview(info, previewUrl(info)));
          }
      }
    }

    /**
     * `verifyTransporter`: acquires the transport and asks it to verify;
     * every failure ends in a log line instead of an exception.
     * `verifies` is the answer of the transport's `verify`.
     */
    method VerifyTransporter(env: Env, testAccount: Result<TestAccount>, verifies: Result<bool>)
      returns (log: VerifyLog)
      requires Valid()
      modifies this
      ensures Valid()
      ensures old(transporter) != null ==> transporter == old(transporter)
      ensures log == VerifiedOk <==> transporter != null && verifies.Success?
    {
      var t := GetTransporter(env, testAccount);
      if t.Failure? {
        return VerifyFailed(t.error);
      }
      match verifies {
        case Failure(e) => log := VerifyFailed(e);
        case Success(_) => log := VerifiedOk;
      }
    }
  }
}
