/**
 * The logger's own decisions: which logrus level a level name selects, what the
 * logger records about its configuration, the fields attached to traced log lines,
 * and when an error-level log line triggers an e-mail.
 */
module Logz {
  import opened Basics
  import opened Text
  import opened Env

  /** Nanoseconds, as Go's `time.Duration` counts them. */
  const Minute: int := 60_000_000_000

  /** The logrus severity levels the logger can be set to. */
  datatype LogrusLevel = PanicLevel | FatalLevel | ErrorLevel | WarnLevel | InfoLevel | DebugLevel

  /** `logrus.Level.String`. */
  function LevelName(l: LogrusLevel): string
  {
    match l
    case PanicLevel => "panic"
    case FatalLevel => "fatal"
    case ErrorLevel => "error"
    case WarnLevel => "warning"
    case InfoLevel => "info"
    case DebugLevel => "debug"
  }

  /**
   * The level `setLevel` selects: the six level names in any case; every other string,
   * "warning" included, selects info.
   */
  function LevelFromString(level: string): (l: LogrusLevel)
    ensures l == DebugLevel <==> ToLower(level) == "debug"
    ensures l == WarnLevel <==> ToLower(level) == "warn"
    ensures l == ErrorLevel <==> ToLower(level) == "error"
    ensures l == FatalLevel <==> ToLower(level) == "fatal"
    ensures l == PanicLevel <==> ToLower(level) == "panic"
    ensures l == InfoLevel <==> ToLower(level) !in {"debug", "warn", "error", "fatal", "panic"}
  {
    var lower := ToLower(level);
    if lower == "debug" then DebugLevel
    else if lower == "info" then InfoLevel
    else if lower == "warn" then WarnLevel
    else if lower == "error" then ErrorLevel
    else if lower == "fatal" then FatalLevel
    else if lower == "panic" then PanicLevel
    else InfoLevel
  }

  /** The level names select the logrus levels the logger reports back, "warn" reading "warning". */
  lemma LevelNamesRoundTrip()
    ensures LevelName(LevelFromString("debug")) == "debug"
    ensures LevelName(LevelFromString("info")) == "info"
    ensures LevelName(LevelFromString("warn")) == "warning"
    ensures LevelName(LevelFromString("error")) == "error"
    ensures LevelName(LevelFromString("fatal")) == "fatal"
    ensures LevelName(LevelFromString("panic")) == "panic"
    ensures LevelName(LevelFromString("invalid")) == "info"
    ensures LevelFromString("ERROR") == ErrorLevel
  {
    assert ToLower("debug") == "debug";
    assert ToLower("info") == "info";
    assert ToLower("warn") == "warn";
    assert ToLower("error") == "error";
    assert ToLower("fatal") == "fatal";
    assert ToLower("panic") == "panic";
    assert ToLower("invalid") == "invalid";
    assert ToLower("ERROR") == "error";
  }

  /** `RotationConfig`. */
  datatype RotationConfig = RotationConfig(maxSize: int, maxBackups: int, enabled: bool)

  /**
   * The rotation settings `SetFileOutputWithRotation` records: a size that is not positive
   * becomes 100 MiB and a backup count that is not positive becomes 3.
   */
  function RotationSettings(maxSize: int, maxBackups: int): (r: RotationConfig)
    ensures r.enabled && r.maxSize > 0 && r.maxBackups > 0
    ensures maxSize > 0 ==> r.maxSize == maxSize
    ensures maxSize <= 0 ==> r.maxSize == 100 * 1024 * 1024
    ensures maxBackups > 0 ==> r.maxBackups == maxBackups
    ensures maxBackups <= 0 ==> r.maxBackups == 3
  {
    RotationConfig(if maxSize <= 0 then 100 * 1024 * 1024 else maxSize,
                   if maxBackups <= 0 then 3 else maxBackups, true)
  }

  /** Applying the defaults to settings that already have them changes nothing. */
  lemma RotationSettingsFixedPoint(maxSize: int, maxBackups: int)
    ensures var r := RotationSettings(maxSize, maxBackups);
      RotationSettings(r.maxSize, r.maxBackups) == r
  {
  }

  /** Why the logger could not switch to a log file. */
  datatype FileOutputError = EmptyFilePath | OpenFailed

  /** `DefaultLogger`, reduced to the configuration it records. */
  class DefaultLogger {
    /** The logrus level in force. */
    var level: LogrusLevel
    /** `config.Level`: the string the level was last set from. */
    var configLevel: string
    /** `config.FilePath`. */
    var filePath: string
    /** `config.RotationConfig`; `None` is a nil pointer. */
    var rotation: Option<RotationConfig>

    /** The logger `init` installs: level info, standard output. */
    constructor ()
      ensures level == InfoLevel && configLevel == "info" && filePath == "" && rotation == None
    {
      level := InfoLevel;
      configLevel := "info";
      filePath := "";
      rotation := None;
    }

    /**
     * `setLevel`: selects the logrus level and records the argument unchanged, even when it
     * names no level.
     */
    method SetLevel(name: string)
      modifies this
      ensures level == LevelFromString(name) && configLevel == name
      ensures filePath == old(filePath) && rotation == old(rotation)
    {
      level := LevelFromString(name);
      configLevel := name;
    }

    /**
     * `SetFileOutputWithRotation`: records the rotation settings, then switches to the file;
     * `fileOpened` says whether creating the directory and opening the file succeeded.
     */
    method SetFileOutputWithRotation(path: string, maxSize: int, maxBackups: int, fileOpened: bool)
      returns (r: Outcome<FileOutputError>)
      modifies this
      ensures rotation == Some(RotationSettings(maxSize, maxBackups))
      ensures path == "" ==> r == Fail(EmptyFilePath)
      ensures path != "" && !fileOpened ==> r == Fail(OpenFailed)
      ensures r.Pass? <==> path != "" && fileOpened
      ensures filePath == (if r.Pass? then path else old(filePath))
      ensures level == old(level) && configLevel == old(configLevel)
    {
      rotation := Some(RotationSettings(maxSize, maxBackups));
      if path == "" {
        return Fail(EmptyFilePath);
      }
      if !fileOpened {
        return Fail(OpenFailed);
      }
      filePath := path;
      return Pass;
    }
  }

  /** `createTraceFields`: a field for each identifier that is present, and nothing else. */
  function CreateTraceFields(traceId: string, spanId: string): (fields: map<string, string>)
    ensures "trace_id" in fields <==> traceId != ""
    ensures "span_id" in fields <==> spanId != ""
    ensures "trace_id" in fields ==> fields["trace_id"] == traceId
    ensures "span_id" in fields ==> fields["span_id"] == spanId
    ensures forall k :: k in fields ==> k == "trace_id" || k == "span_id"
  {
    var withTrace: map<string, string> := if traceId != "" then map["trace_id" := traceId] else map[];
    if spanId != "" then withTrace["span_id" := spanId] else withTrace
  }

  // ------------------------------------------------------------ e-mail alerts

  /** `EmailConfig`; `throttle` is a duration in nanoseconds. */
  datatype EmailConfig = EmailConfig(enabled: bool, toEmail: string, onLevels: seq<string>, throttle: int)

  /** The configuration a notifier gets when it is given none: switched off, five minutes apart. */
  const DisabledEmailConfig: EmailConfig := EmailConfig(false, "", [], 5 * Minute)

  /**
   * The configuration `SetEmailConfig` builds when given none: switched on only by
   * `TRACE_EMAIL_ENABLED=true`, the recipient from `TRACE_EMAIL_TO`, the three severe levels,
   * five minutes apart.
   */
  function EmailConfigFromEnv(env: Environment): (c: EmailConfig)
    ensures c.enabled <==> Getenv(env, "TRACE_EMAIL_ENABLED") == "true"
    ensures c.toEmail == Getenv(env, "TRACE_EMAIL_TO")
    ensures c.onLevels == ["error", "fatal", "panic"] && c.throttle == 5 * Minute
  {
    EmailConfig(Getenv(env, "TRACE_EMAIL_ENABLED") == "true", Getenv(env, "TRACE_EMAIL_TO"),
                ["error", "fatal", "panic"], 5 * Minute)
  }

  /** The level is one of the allowed levels, ignoring case. */
  predicate ListedLevel(onLevels: seq<string>, level: string)
  {
    exists i :: 0 <= i < |onLevels| && EqualFold(onLevels[i], level)
  }

  /** The checks before the throttle: switched on, a recipient, and an allowed level. */
  predicate PassesGate(c: EmailConfig, level: string)
  {
    c.enabled && c.toEmail != "" && (|c.onLevels| == 0 || ListedLevel(c.onLevels, level))
  }

  /** A mail for exactly this level string went out less than `throttle` ago. */
  predicate Throttled(sent: map<string, int>, throttle: int, level: string, now: int)
  {
    level in sent && now - sent[level] < throttle
  }

  /** What `shouldSendEmail` answers. */
  predicate SendDecision(c: EmailConfig, sent: map<string, int>, level: string, now: int)
  {
    PassesGate(c, level) && !Throttled(sent, c.throttle, level, now)
  }

  /** The throttle map after `shouldSendEmail`: a positive answer records `now` for the level. */
  function AfterDecision(c: EmailConfig, sent: map<string, int>, level: string, now: int): (next: map<string, int>)
    ensures SendDecision(c, sent, level, now) ==> next == sent[level := now]
    ensures !SendDecision(c, sent, level, now) ==> next == sent
  {
    if SendDecision(c, sent, level, now) then sent[level := now] else sent
  }

  /** `EmailNotifier`. */
  class EmailNotifier {
    const config: EmailConfig
    /** When a mail was last sent, by the level string it was sent for. */
    var sent: map<string, int>

    /** `NewEmailNotifier`: a nil configuration gives a notifier that is switched off. */
    constructor (c: Option<EmailConfig>)
      ensures config == (if c.Some? then c.value else DisabledEmailConfig)
      ensures sent == map[]
    {
      config := if c.Some? then c.value else DisabledEmailConfig;
      sent := map[];
    }

    /** The loop of `shouldSendEmail` over the allowed levels, stopping at the first match. */
    static method LevelListed(onLevels: seq<string>, level: string) returns (found: bool)
      ensures found <==> ListedLevel(onLevels, level)
    {
      found := false;
      var i := 0;
      while i < |onLevels|
        invariant 0 <= i <= |onLevels|
        invariant !found
        invariant forall k :: 0 <= k < i ==> !EqualFold(onLevels[k], level)
      {
        if EqualFold(onLevels[i], level) {
          found := true;
          break;
        }
        i := i + 1;
      }
    }

    /**
     * `shouldSendEmail`, with `now` the clock reading: refuses when switched off, without a
     * recipient, for an unlisted level, or within `throttle` of the last mail for the same
     * level string; otherwise records `now` for the level and answers true.
     */
    method ShouldSendEmail(level: string, now: int) returns (send: bool)
      modifies this
      ensures send == SendDecision(config, old(sent), level, now)
      ensures sent == AfterDecision(config, old(sent), level, now)
    {
      if !config.enabled || config.toEmail == "" {
        return false;
      }
      if |config.onLevels| > 0 {
        var found := LevelListed(config.onLevels, level);
        if !found {
          return false;
        }
      }
      if level in sent && now - sent[level] < config.throttle {
        return false;
      }
      sent := sent[level := now];
      return true;
    }
  }

  /** A notifier that is switched off or has no recipient never sends. */
  lemma NoMailWithoutRecipient(c: EmailConfig, sent: map<string, int>, level: string, now: int)
    requires !c.enabled || c.toEmail == ""
    ensures !SendDecision(c, sent, level, now)
    ensures AfterDecision(c, sent, level, now) == sent
  {
  }

  /** The notifier built without a configuration never sends. */
  lemma DefaultNotifierSilent(sent: map<string, int>, level: string, now: int)
    ensures !SendDecision(DisabledEmailConfig, sent, level, now)
  {
  }

  /** After a mail for a level, no other mail for it goes out until `throttle` has passed. */
  lemma ThrottleHolds(c: EmailConfig, sent: map<string, int>, level: string, t1: int, t2: int)
    requires SendDecision(c, sent, level, t1)
    requires t2 - t1 < c.throttle
    ensures !SendDecision(c, AfterDecision(c, sent, level, t1), level, t2)
    ensures AfterDecision(c, AfterDecision(c, sent, level, t1), level, t2) == sent[level := t1]
  {
  }

  /** Once `throttle` has passed, a level that passes the gate may be mailed again. */
  lemma ThrottleExpires(c: EmailConfig, sent: map<string, int>, level: string, now: int)
    requires PassesGate(c, level) && level in sent && now - sent[level] >= c.throttle
    ensures SendDecision(c, sent, level, now)
  {
  }

  /**
   * Levels are throttled one by one, by their exact spelling: a decision for one level string
   * neither depends on nor changes the record of another, "ERROR" and "error" included.
   */
  lemma LevelsThrottledIndependently(c: EmailConfig, sent: map<string, int>, level: string,
                                     other: string, t: int, now: int)
    requires other != level
    ensures SendDecision(c, sent[level := t], other, now) == SendDecision(c, sent, other, now)
    ensures var next := AfterDecision(c, sent, other, now);
      (level in next <==> level in sent) && (level in sent ==> next[level] == sent[level])
  {
  }

  /** An empty allow-list admits every level; a listed level is admitted in any case. */
  lemma AllowListCases(c: EmailConfig, level: string)
    requires c.enabled && c.toEmail != ""
    ensures |c.onLevels| == 0 ==> PassesGate(c, level)
    ensures ListedLevel(c.onLevels, ToLower(level)) ==> PassesGate(c, level)
  {
    if ListedLevel(c.onLevels, ToLower(level)) {
      var i :| 0 <= i < |c.onLevels| && EqualFold(c.onLevels[i], ToLower(level));
      ToLowerIdempotent(level);
      assert EqualFold(c.onLevels[i], level);
    }
  }
}
