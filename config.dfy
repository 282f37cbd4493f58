/** The tracing configuration: validation, and the repair of invalid values in place. */
module Configuration {
  import opened Basics
  import opened Text
  import opened Email
  import opened Jaeger

  /** Why a configuration was refused, in the order `Config.Validate` checks. */
  datatype ConfigError =
    | ConfigIsNil
    | SamplingRatioOutOfRange
    | InvalidLogLevel
    | InvalidJaegerConfig(cause: JaegerError)

  /** The log levels a configuration may name, compared after lower-casing. */
  predicate ValidLogLevel(level: string)
  {
    ToLower(level) in {"debug", "info", "warn", "warning", "error", "fatal", "panic"}
  }

  predicate RatioInRange(ratio: real)
  {
    0.0 <= ratio <= 1.0
  }

  /** The checks of `Config.Validate` after the nil test: ratio, then level, then Jaeger. */
  function ValidateFields(ratio: real, level: string, jaeger: JaegerConfig): (r: Outcome<ConfigError>)
    ensures r.Pass? <==> RatioInRange(ratio) && ValidLogLevel(level) && ValidateJaegerConfig(jaeger).Pass?
    ensures r == Fail(SamplingRatioOutOfRange) <==> !RatioInRange(ratio)
    ensures r == Fail(InvalidLogLevel) <==> RatioInRange(ratio) && !ValidLogLevel(level)
    ensures r.Fail? && r.error.InvalidJaegerConfig? ==>
      RatioInRange(ratio) && ValidLogLevel(level) && r.error.cause == ValidateJaegerConfig(jaeger).error
    ensures r != Fail(ConfigIsNil)
  {
    if ratio < 0.0 || ratio > 1.0 then Fail(SamplingRatioOutOfRange)
    else if !ValidLogLevel(level) then Fail(InvalidLogLevel)
    else match ValidateJaegerConfig(jaeger)
      case Fail(e) => Fail(InvalidJaegerConfig(e))
      case Pass => Pass
  }

  /** The ratio `Fix` leaves: an out-of-range ratio becomes 1.0, an in-range one stays. */
  function FixedRatio(ratio: real): (f: real)
    ensures RatioInRange(f)
    ensures RatioInRange(ratio) ==> f == ratio
  {
    if ratio < 0.0 || ratio > 1.0 then 1.0 else ratio
  }

  /** The level `Fix` leaves: an unknown level becomes "info", a known one keeps its spelling. */
  function FixedLevel(level: string): (f: string)
    ensures ValidLogLevel(f)
    ensures ValidLogLevel(level) ==> f == level
  {
    if !ValidLogLevel(level) then
      assert ToLower("info") == "info";
      "info"
    else level
  }

  /** The Jaeger settings `Fix` leaves: every empty text field takes its default. */
  function FixedJaeger(j: JaegerConfig): (f: JaegerConfig)
    ensures f.serviceName != "" && f.endpoint != "" && f.environment != "" && f.version != ""
    ensures j.serviceName != "" ==> f.serviceName == j.serviceName
    ensures j.endpoint != "" ==> f.endpoint == j.endpoint
    ensures j.environment != "" ==> f.environment == j.environment
    ensures j.version != "" ==> f.version == j.version
    ensures f.enabled == j.enabled
  {
    var j1 := if j.serviceName == "" then j.(serviceName := DefaultServiceName) else j;
    var j2 := if j1.endpoint == "" then j1.(endpoint := DefaultEndpoint) else j1;
    var j3 := if j2.environment == "" then j2.(environment := DefaultEnvironment) else j2;
    if j3.version == "" then j3.(version := DefaultVersion) else j3
  }

  /** After repair every check passes. */
  lemma FixThenValidate(ratio: real, level: string, jaeger: JaegerConfig)
    ensures ValidateFields(FixedRatio(ratio), FixedLevel(level), FixedJaeger(jaeger)) == Pass
  {
  }

  /** Repairing twice is repairing once. */
  lemma FixIdempotent(ratio: real, level: string, jaeger: JaegerConfig)
    ensures FixedRatio(FixedRatio(ratio)) == FixedRatio(ratio)
    ensures FixedLevel(FixedLevel(level)) == FixedLevel(level)
    ensures FixedJaeger(FixedJaeger(jaeger)) == FixedJaeger(jaeger)
  {
  }

  /**
   * On a configuration that already validates, repair changes nothing but the two Jaeger
   * fields validation does not look at, and those only when empty.
   */
  lemma FixKeepsValidConfig(ratio: real, level: string, jaeger: JaegerConfig)
    requires ValidateFields(ratio, level, jaeger) == Pass
    ensures FixedRatio(ratio) == ratio && FixedLevel(level) == level
    ensures FixedJaeger(jaeger) == jaeger.(
      environment := if jaeger.environment == "" then DefaultEnvironment else jaeger.environment,
      version := if jaeger.version == "" then DefaultVersion else jaeger.version)
  {
  }

  /** Levels are recognised in any case, and repair keeps the caller's spelling. */
  lemma MixedCaseLevelsKept()
    ensures FixedLevel("WARNING") == "WARNING" && FixedLevel("Error") == "Error"
    ensures FixedLevel("verbose") == "info"
  {
    assert ToLower("WARNING") == "warning";
    assert ToLower("Error") == "error";
    assert ToLower("verbose") == "verbose";
  }

  /** `Config`. */
  class Config {
    var jaeger: JaegerConfig
    var logLevel: string
    var logFile: string
    var samplingRatio: real
    var smtp: SmtpConfig
    var debug: bool
    var metrics: bool

    /** `DefaultConfig`: the default Jaeger and SMTP settings, level "info", full sampling. */
    constructor Default()
      ensures jaeger == DefaultJaegerConfig() && logLevel == "info" && logFile == ""
      ensures samplingRatio == 1.0 && smtp == DefaultSmtpConfig() && !debug && metrics
      ensures ValidateFields(samplingRatio, logLevel, jaeger) == Pass
    {
      jaeger := DefaultJaegerConfig();
      logLevel := "info";
      logFile := "";
      samplingRatio := 1.0;
      smtp := DefaultSmtpConfig();
      debug := false;
      metrics := true;
      assert ToLower("info") == "info";
    }
  }

  /** `Config.Validate`, on a possibly nil configuration. */
  function Validate(c: Config?): (r: Outcome<ConfigError>)
    reads c
    ensures c == null <==> r == Fail(ConfigIsNil)
    ensures c != null ==> r == ValidateFields(c.samplingRatio, c.logLevel, c.jaeger)
  {
    if c == null then Fail(ConfigIsNil) else ValidateFields(c.samplingRatio, c.logLevel, c.jaeger)
  }

  /** `Config.Fix`: repairs the configuration in place; a nil configuration is left alone. */
  method Fix(c: Config?)
    modifies c
    ensures c != null ==> (c.samplingRatio == FixedRatio(old(c.samplingRatio))
      && c.logLevel == FixedLevel(old(c.logLevel)) && c.jaeger == FixedJaeger(old(c.jaeger)))
    ensures c != null ==> (c.logFile == old(c.logFile) && c.smtp == old(c.smtp)
      && c.debug == old(c.debug) && c.metrics == old(c.metrics))
    ensures c != null ==> Validate(c) == Pass
  {
    if c == null {
      return;
    }
    if c.samplingRatio < 0.0 || c.samplingRatio > 1.0 {
      c.samplingRatio := 1.0;
    }
    if !ValidLogLevel(c.logLevel) {
      c.logLevel := "info";
    }
    if c.jaeger.serviceName == "" {
      c.jaeger := c.jaeger.(serviceName := DefaultServiceName);
    }
    if c.jaeger.endpoint == "" {
      c.jaeger := c.jaeger.(endpoint := DefaultEndpoint);
    }
    if c.jaeger.environment == "" {
      c.jaeger := c.jaeger.(environment := DefaultEnvironment);
    }
    if c.jaeger.version == "" {
      c.jaeger := c.jaeger.(version := DefaultVersion);
    }
  }
}
