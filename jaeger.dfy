/** The trace exporter settings, their loading from the environment, and the start-up guards. */
module Jaeger {
  import opened Basics
  import opened Text
  import opened Numerals
  import opened Env

  /** `JaegerConfig`. */
  datatype JaegerConfig = JaegerConfig(
    endpoint: string,
    serviceName: string,
    environment: string,
    version: string,
    enabled: bool)

  const DefaultEndpoint: string := "http://localhost:4318/v1/traces"
  const DefaultServiceName: string := "trace-service"
  const DefaultEnvironment: string := "development"
  const DefaultVersion: string := "1.0.0"

  /** `DefaultJaegerConfig`: the local OTLP/HTTP collector, tracing switched on. */
  function DefaultJaegerConfig(): JaegerConfig
  {
    JaegerConfig(DefaultEndpoint, DefaultServiceName, DefaultEnvironment, DefaultVersion, true)
  }

  /** The value of the first variable in `keys` that is set to something non-empty, or "". */
  function FirstEnv(env: Environment, keys: seq<string>): (v: string)
    ensures v == "" <==> forall i :: 0 <= i < |keys| ==> Getenv(env, keys[i]) == ""
    ensures v != "" ==> exists i :: (0 <= i < |keys| && Getenv(env, keys[i]) == v
      && forall j :: 0 <= j < i ==> Getenv(env, keys[j]) == "")
  {
    if keys == [] then ""
    else if Getenv(env, keys[0]) != "" then Getenv(env, keys[0])
    else
      var v := FirstEnv(env, keys[1..]);
      assert forall i :: 1 <= i < |keys| ==> keys[i] == keys[1..][i - 1];
      if v != "" then
        var i :| 0 <= i < |keys[1..]| && Getenv(env, keys[1..][i]) == v
          && forall j :: 0 <= j < i ==> Getenv(env, keys[1..][j]) == "";
        assert Getenv(env, keys[i + 1]) == v;
        v
      else v
  }

  /** `getFirstEnv`: tries the keys in order and returns at the first non-empty value. */
  method GetFirstEnv(env: Environment, keys: seq<string>) returns (value: string)
    ensures value == FirstEnv(env, keys)
  {
    var i := 0;
    while i < |keys|
      invariant 0 <= i <= |keys|
      invariant FirstEnv(env, keys) == FirstEnv(env, keys[i..])
    {
      var v := Getenv(env, keys[i]);
      if v != "" {
        return v;
      }
      assert keys[i..][1..] == keys[i + 1..];
      i := i + 1;
    }
    return "";
  }

  /** The `OTEL_*` variable when it is set, else the `JAEGER_*` one, else "". */
  function Preferred(env: Environment, otel: string, jaeger: string): string
  {
    if Getenv(env, otel) != "" then Getenv(env, otel) else Getenv(env, jaeger)
  }

  /** With two keys, the first one set wins. */
  lemma FirstEnvOfPair(env: Environment, first: string, second: string)
    ensures FirstEnv(env, [first, second]) == Preferred(env, first, second)
  {
    assert [first, second][1..] == [second];
    assert [second][1..] == [];
  }

  /** One field of the configuration, read from its pair of variables. */
  method ReadPair(env: Environment, first: string, second: string) returns (value: string)
    ensures value == Preferred(env, first, second)
  {
    value := GetFirstEnv(env, [first, second]);
    FirstEnvOfPair(env, first, second);
  }

  /**
   * `LoadJaegerConfigFromEnv`: every field takes its `OTEL_*` variable in preference to its
   * `JAEGER_*` variable and keeps its default when both are empty. "otlp" and "jaeger"
   * switch tracing on, another boolean spelling sets it, anything else leaves it on.
   */
  method LoadJaegerConfigFromEnv(env: Environment) returns (config: JaegerConfig)
    ensures var e := Preferred(env, "OTEL_EXPORTER_OTLP_TRACES_ENDPOINT", "JAEGER_ENDPOINT");
      config.endpoint == if e != "" then e else DefaultEndpoint
    ensures var s := Preferred(env, "OTEL_SERVICE_NAME", "JAEGER_SERVICE_NAME");
      config.serviceName == if s != "" then s else DefaultServiceName
    ensures var d := Preferred(env, "OTEL_RESOURCE_ATTRIBUTES_DEPLOYMENT_ENVIRONMENT", "JAEGER_ENVIRONMENT");
      config.environment == if d != "" then d else DefaultEnvironment
    ensures var v := Preferred(env, "OTEL_SERVICE_VERSION", "JAEGER_VERSION");
      config.version == if v != "" then v else DefaultVersion
    ensures var x := Preferred(env, "OTEL_TRACES_EXPORTER", "JAEGER_ENABLED");
      !config.enabled <==> x != "otlp" && x != "jaeger" && ParseBool(x) == Some(false)
    ensures config.serviceName != "" && config.endpoint != ""
  {
    config := DefaultJaegerConfig();
    var endpoint := ReadPair(env, "OTEL_EXPORTER_OTLP_TRACES_ENDPOINT", "JAEGER_ENDPOINT");
    if endpoint != "" {
      config := config.(endpoint := endpoint);
    }
    var serviceName := ReadPair(env, "OTEL_SERVICE_NAME", "JAEGER_SERVICE_NAME");
    if serviceName != "" {
      config := config.(serviceName := serviceName);
    }
    var environment := ReadPair(env, "OTEL_RESOURCE_ATTRIBUTES_DEPLOYMENT_ENVIRONMENT", "JAEGER_ENVIRONMENT");
    if environment != "" {
      config := config.(environment := environment);
    }
    var version := ReadPair(env, "OTEL_SERVICE_VERSION", "JAEGER_VERSION");
    if version != "" {
      config := config.(version := version);
    }
    var enabled := ReadPair(env, "OTEL_TRACES_EXPORTER", "JAEGER_ENABLED");
    if enabled != "" {
      if enabled == "otlp" || enabled == "jaeger" {
        config := config.(enabled := true);
      } else {
        match ParseBool(enabled)
        case Some(parsed) =>
          config := config.(enabled := parsed);
        case None =>
      }
    }
  }

  /** Why a configuration was refused. */
  datatype JaegerError = EmptyServiceName | EmptyEndpoint

  /** `validateJaegerConfig`: the service name is checked before the endpoint. */
  function ValidateJaegerConfig(c: JaegerConfig): (r: Outcome<JaegerError>)
    ensures r.Pass? <==> c.serviceName != "" && c.endpoint != ""
    ensures r == Fail(EmptyServiceName) <==> c.serviceName == ""
    ensures r == Fail(EmptyEndpoint) <==> c.serviceName != "" && c.endpoint == ""
  {
    if c.serviceName == "" then Fail(EmptyServiceName)
    else if c.endpoint == "" then Fail(EmptyEndpoint)
    else Pass
  }

  /** The sampling policy the tracer provider is built with. */
  datatype Sampler = AlwaysSample | TraceIdRatioBased(ratio: real)

  /** `createSampler`: everything in a development environment, one trace in ten elsewhere. */
  function CreateSampler(c: JaegerConfig): (s: Sampler)
    ensures s == AlwaysSample <==> c.environment == "development" || c.environment == "dev"
    ensures s != AlwaysSample ==> s == TraceIdRatioBased(0.1)
  {
    if c.environment == "development" || c.environment == "dev" then AlwaysSample
    else TraceIdRatioBased(0.1)
  }

  /** The exporter talks plain HTTP exactly when the endpoint says "http://". */
  function UseInsecureTransport(endpoint: string): (insecure: bool)
    ensures insecure <==> |endpoint| >= 7 && endpoint[..7] == "http://"
  {
    HasPrefix(endpoint, "http://")
  }

  /** The default endpoint is plain HTTP; an "https://" endpoint never is. */
  lemma InsecureTransportCases(endpoint: string)
    ensures UseInsecureTransport(DefaultEndpoint)
    ensures HasPrefix(endpoint, "https://") ==> !UseInsecureTransport(endpoint)
  {
    if HasPrefix(endpoint, "https://") {
      assert endpoint[4] == 's';
    }
  }

  /** Why `InitJaeger` refused to start. */
  datatype InitError = NilConfig | InvalidConfig(cause: JaegerError) | ExporterFailed | ResourceFailed

  /** What `InitJaeger` installed: nothing, or a tracer provider built from the settings. */
  datatype Tracing =
    | NoOp
    | Provider(sampler: Sampler, insecure: bool, serviceName: string, version: string, environment: string)

  /**
   * `InitJaeger`: a missing configuration is an error; a disabled one returns a no-op
   * shutdown without being validated; an enabled one must validate before the exporter
   * (whose creation succeeds when `exporterOk`) and the resource (when `resourceOk`) are built.
   */
  function InitJaeger(config: Option<JaegerConfig>, exporterOk: bool, resourceOk: bool): (r: Result<Tracing, InitError>)
    ensures config.None? ==> r == Err(NilConfig)
    ensures config.Some? && !config.value.enabled ==> r == Ok(NoOp)
    ensures config.Some? && config.value.enabled && ValidateJaegerConfig(config.value).Fail? ==>
      r == Err(InvalidConfig(ValidateJaegerConfig(config.value).error))
    ensures r.Ok? && r.value.Provider? ==>
      config.Some? && config.value.enabled && ValidateJaegerConfig(config.value).Pass?
      && r.value.sampler == CreateSampler(config.value)
      && r.value.insecure == UseInsecureTransport(config.value.endpoint)
    ensures r.Ok? <==> (config.Some? && (!config.value.enabled
      || (ValidateJaegerConfig(config.value).Pass? && exporterOk && resourceOk)))
  {
    match config
    case None => Err(NilConfig)
    case Some(c) =>
      if !c.enabled then Ok(NoOp)
      else match ValidateJaegerConfig(c)
        case Fail(e) => Err(InvalidConfig(e))
        case Pass =>
          if !exporterOk then Err(ExporterFailed)
          else if !resourceOk then Err(ResourceFailed)
          else Ok(Provider(CreateSampler(c), UseInsecureTransport(c.endpoint), c.serviceName, c.version, c.environment))
  }
}
