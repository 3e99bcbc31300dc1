/**
 * The application package (app/config.go, app/init.go): the configuration
 * rule check and the mapping of handler errors to API errors.
 */
module App {
  import opened Wrappers
  import opened Errors
  import Apis

  /** The application-wide configuration. */
  datatype AppConfig = AppConfig(
    httpServerAddr: string,
    logLevel: string,
    dsn: string,
    dbMaxOpenConns: int,
    dbMaxIdleConns: int,
    dbConnMaxLifetime: int)

  /** The log levels the `In` rule admits. */
  const LogLevels: set<string> := {"debug", "info", "warn", "warning", "fatal", "panic"}

  /** `Required` then `In(...)` on the log level; `In` lets the empty string through,
      so an empty level breaks only `Required`. */
  function LogLevelRule(level: string): (r: Option<Apis.Rule>)
    ensures r.None? <==> level in LogLevels
  {
    if level == "" then Some(Apis.Required)
    else if level !in LogLevels then Some(Apis.In)
    else None
  }

  /**
   * `appConfig.Validate`: the server address, the log level and the DSN are
   * checked; the connection-pool settings are not. Field errors are keyed by the
   * Go field name, since the struct has no JSON tags.
   */
  function ValidateConfig(config: AppConfig): (r: Option<Apis.FieldErrors>)
    ensures r.None? <==> config.httpServerAddr != "" && config.logLevel in LogLevels && config.dsn != ""
    ensures r.Some? ==> r.value.Keys <= {"HttpServerAddr", "LogLevel", "DSN"}
    ensures r.Some? ==> ("HttpServerAddr" in r.value <==> config.httpServerAddr == "")
    ensures r.Some? ==> ("LogLevel" in r.value <==> config.logLevel !in LogLevels)
    ensures r.Some? ==> ("DSN" in r.value <==> config.dsn == "")
    ensures r.Some? && "LogLevel" in r.value ==>
      r.value["LogLevel"] == (if config.logLevel == "" then Apis.Required else Apis.In)
    ensures r.Some? ==> forall f :: f in r.value && f != "LogLevel" ==> r.value[f] == Apis.Required
  {
    var errs :=
      Apis.FieldError("HttpServerAddr", Apis.RequiredRule(config.httpServerAddr)) +
      Apis.FieldError("LogLevel", LogLevelRule(config.logLevel)) +
      Apis.FieldError("DSN", Apis.RequiredRule(config.dsn));
    assert ("HttpServerAddr" in errs <==> config.httpServerAddr == "") &&
      ("LogLevel" in errs <==> config.logLevel !in LogLevels) && ("DSN" in errs <==> config.dsn == "");
    if errs == map[] then None else Some(errs)
  }

  /** The pool settings never affect validation, whatever their sign. */
  lemma PoolSettingsUnconstrained(config: AppConfig, openConns: int, idleConns: int, lifetime: int)
    ensures ValidateConfig(config) ==
      ValidateConfig(config.(dbMaxOpenConns := openConns, dbMaxIdleConns := idleConns,
                             dbConnMaxLifetime := lifetime))
  {
  }

  /** "warning" is admitted although the field's comment does not list it; "error" is not. */
  lemma LogLevelExamples(config: AppConfig)
    requires config.httpServerAddr != "" && config.dsn != ""
    ensures ValidateConfig(config.(logLevel := "warning")).None?
    ensures ValidateConfig(config.(logLevel := "error")) == Some(map["LogLevel" := Apis.In])
  {
    var bad := config.(logLevel := "error");
    assert "error" !in LogLevels;
    var errs := ValidateConfig(bad).value;
    assert "HttpServerAddr" !in errs && "DSN" !in errs && "LogLevel" in errs;
    assert errs.Keys == {"LogLevel"};
    assert errs == map["LogLevel" := Apis.In];
  }

  /**
   * `convertError`: an API error passes through; validation errors become 400
   * INVALID_DATA; an error reporting HTTP 404 becomes NOT_FOUND; everything else,
   * including an HTTP error with any other status, becomes 500.
   */
  function ConvertError(err: Fault): (r: APIError)
    ensures err.API? ==> r == err.api
    ensures err.Validation? ==> r.StatusCode() == 400 && r.errorCode == "INVALID_DATA"
    ensures err.HTTP? && err.status == StatusNotFound ==> r.StatusCode() == 404 && r.errorCode == "NOT_FOUND"
    ensures (err.HTTP? && err.status != StatusNotFound) || err.Other? ==>
      r.StatusCode() == 500 && r.errorCode == "INTERNAL_SERVER_ERROR"
  {
    match err
    case API(e) => e
    case Validation(errs) => InvalidData(errs)
    case HTTP(status, _) =>
      if status == StatusNotFound then NotFound(Text(err)) else InternalServerError(err)
    case Other(_) => InternalServerError(err)
  }

  /** Whatever the kind, the message the client sees is the original error's message. */
  lemma ConvertErrorKeepsMessage(err: Fault)
    ensures ConvertError(err).Error() == Text(err)
  {
  }

  /** Conversion always yields an API error, so converting its result again changes nothing. */
  lemma ConvertErrorIdempotent(err: Fault)
    ensures ConvertError(API(ConvertError(err))) == ConvertError(err)
  {
  }

  /** Unless the error already is an API error, the status is one of 400, 404 and 500. */
  lemma ConvertErrorStatuses(err: Fault)
    requires !err.API?
    ensures ConvertError(err).StatusCode() in {400, 404, 500}
  {
  }
}
