/** SMTP settings, their validation and their loading from the environment. */
module Email {
  import opened Basics
  import opened Numerals
  import opened Env

  /** `SMTPConfig`. */
  datatype SmtpConfig = SmtpConfig(
    host: string,
    port: int,
    user: string,
    password: string,
    tlsEnabled: bool,
    insecureSkipVerify: bool)

  /** `DefaultSMTPConfig`: the QQ mail relay on the submission port, no credentials, TLS verified. */
  function DefaultSmtpConfig(): SmtpConfig
  {
    SmtpConfig("smtp.qq.com", 587, "", "", true, false)
  }

  /** Why a message or a configuration was refused, one case per check. */
  datatype EmailError =
    | EmptyRecipient
    | EmptySubject
    | EmptyBody
    | EmptyHost
    | PortOutOfRange
    | EmptyUser
    | EmptyPassword

  /** `validateEmailParams`: recipient, subject and body must be non-empty, checked in that order. */
  function ValidateEmailParams(to: string, subject: string, body: string): (r: Outcome<EmailError>)
    ensures r.Pass? <==> to != "" && subject != "" && body != ""
    ensures r == Fail(EmptyRecipient) <==> to == ""
    ensures r == Fail(EmptySubject) <==> to != "" && subject == ""
    ensures r == Fail(EmptyBody) <==> to != "" && subject != "" && body == ""
  {
    if to == "" then Fail(EmptyRecipient)
    else if subject == "" then Fail(EmptySubject)
    else if body == "" then Fail(EmptyBody)
    else Pass
  }

  /**
   * `validateSMTPConfig`: a host, a port in 1..65535, a user and a password, checked in that
   * order.
   */
  function ValidateSmtpConfig(c: SmtpConfig): (r: Outcome<EmailError>)
    ensures r.Pass? <==> c.host != "" && 1 <= c.port <= 65535 && c.user != "" && c.password != ""
    ensures r == Fail(EmptyHost) <==> c.host == ""
    ensures r == Fail(PortOutOfRange) <==> c.host != "" && !(1 <= c.port <= 65535)
    ensures r == Fail(EmptyUser) <==> c.host != "" && 1 <= c.port <= 65535 && c.user == ""
    ensures r == Fail(EmptyPassword) <==>
      c.host != "" && 1 <= c.port <= 65535 && c.user != "" && c.password == ""
  {
    if c.host == "" then Fail(EmptyHost)
    else if c.port <= 0 || c.port > 65535 then Fail(PortOutOfRange)
    else if c.user == "" then Fail(EmptyUser)
    else if c.password == "" then Fail(EmptyPassword)
    else Pass
  }

  /** The default settings name a server but carry no credentials, so they cannot send. */
  lemma DefaultSmtpConfigNeedsCredentials()
    ensures ValidateSmtpConfig(DefaultSmtpConfig()) == Fail(EmptyUser)
    ensures DefaultSmtpConfig().tlsEnabled && !DefaultSmtpConfig().insecureSkipVerify
  {
  }

  /** How `SendEmail` failed. */
  datatype SendError =
    | InvalidParameters(cause: EmailError)
    | InvalidSmtpConfig(cause: EmailError)
    | DeliveryFailed(reason: string)

  /**
   * `DefaultEmailSender.SendEmail`: the parameters are checked first, the configuration
   * second, and only then is the message handed to the SMTP dialer, whose outcome is
   * `delivery`.
   */
  function SendEmail(c: SmtpConfig, to: string, subject: string, body: string,
                     delivery: Outcome<string>): (r: Outcome<SendError>)
    ensures ValidateEmailParams(to, subject, body).Fail? ==>
      r == Fail(InvalidParameters(ValidateEmailParams(to, subject, body).error))
    ensures ValidateEmailParams(to, subject, body).Pass? && ValidateSmtpConfig(c).Fail? ==>
      r == Fail(InvalidSmtpConfig(ValidateSmtpConfig(c).error))
    ensures r.Pass? <==>
      ValidateEmailParams(to, subject, body).Pass? && ValidateSmtpConfig(c).Pass? && delivery.Pass?
    ensures r.Fail? && r.error.DeliveryFailed? ==> delivery.Fail?
  {
    match ValidateEmailParams(to, subject, body)
    case Fail(e) => Fail(InvalidParameters(e))
    case Pass =>
      match ValidateSmtpConfig(c)
      case Fail(e) => Fail(InvalidSmtpConfig(e))
      case Pass =>
        match delivery
        case Fail(reason) => Fail(DeliveryFailed(reason))
        case Pass => Pass
  }

  /** `getEnvIntOrDefault`: the variable parsed by `strconv.Atoi`, or the default. */
  function GetEnvIntOrDefault(env: Environment, key: string, default: int): (v: int)
    ensures Getenv(env, key) == "" || ParseInt(Getenv(env, key)).None? ==> v == default
    ensures ParseInt(Getenv(env, key)).Some? ==> v == ParseInt(Getenv(env, key)).value
  {
    var value := Getenv(env, key);
    if value != "" then
      match ParseInt(value)
      case Some(i) => i
      case None => default
    else default
  }

  /** `getEnvBoolOrDefault`: the variable parsed by `strconv.ParseBool`, or the default. */
  function GetEnvBoolOrDefault(env: Environment, key: string, default: bool): (v: bool)
    ensures ParseBool(Getenv(env, key)).None? ==> v == default
    ensures ParseBool(Getenv(env, key)).Some? ==> v == ParseBool(Getenv(env, key)).value
  {
    var value := Getenv(env, key);
    if value != "" then
      match ParseBool(value)
      case Some(b) => b
      case None => default
    else default
  }

  /**
   * `LoadSMTPConfigFromEnv`: starts from the defaults and overrides each field whose
   * variable is usable. A port is taken only when positive; TLS can be switched on but never
   * off; certificate checks can be switched off but never back on.
   */
  method LoadSmtpConfigFromEnv(env: Environment) returns (config: SmtpConfig)
    ensures config.host == (if Getenv(env, "SMTP_HOST") != "" then Getenv(env, "SMTP_HOST") else "smtp.qq.com")
    ensures config.port >= 1
    ensures config.port == 587 || ParseInt(Getenv(env, "SMTP_PORT")) == Some(config.port)
    ensures ParseInt(Getenv(env, "SMTP_PORT")).Some? && ParseInt(Getenv(env, "SMTP_PORT")).value > 0 ==>
      config.port == ParseInt(Getenv(env, "SMTP_PORT")).value
    ensures config.user == Getenv(env, "SMTP_USER") && config.password == Getenv(env, "SMTP_PASSWORD")
    ensures config.tlsEnabled
    ensures config.insecureSkipVerify <==> ParseBool(Getenv(env, "SMTP_INSECURE_SKIP_VERIFY")) == Some(true)
    ensures ValidateSmtpConfig(config).Pass? <==>
      Getenv(env, "SMTP_USER") != "" && Getenv(env, "SMTP_PASSWORD") != "" && config.port <= 65535
  {
    config := DefaultSmtpConfig();
    var host := Getenv(env, "SMTP_HOST");
    if host != "" {
      config := config.(host := host);
    }
    var port := GetEnvIntOrDefault(env, "SMTP_PORT", 587);
    if port > 0 {
      config := config.(port := port);
    }
    var user := Getenv(env, "SMTP_USER");
    if user != "" {
      config := config.(user := user);
    }
    var password := Getenv(env, "SMTP_PASSWORD");
    if password != "" {
      config := config.(password := password);
    }
    var tlsEnabled := GetEnvBoolOrDefault(env, "SMTP_TLS_ENABLED", true);
    if tlsEnabled {
      config := config.(tlsEnabled := tlsEnabled);
    }
    var insecureSkipVerify := GetEnvBoolOrDefault(env, "SMTP_INSECURE_SKIP_VERIFY", false);
    if insecureSkipVerify {
      config := config.(insecureSkipVerify := insecureSkipVerify);
    }
  }
}
