/** The C interface of the trace exporter: a configuration object filled in
    field by field through setters that take a possibly absent handle and a
    byte slice, and a send entry point that rejects an absent exporter. */
module TraceExporterFfi {
  import opened Wrappers
  import Utf8

  datatype ErrorCode = InvalidArgument | InvalidInput

  datatype ExporterError = ExporterError(code: ErrorCode)

  /** Only the default format, V04, appears in the modelled code. */
  datatype InputFormat = InputV04
  datatype OutputFormat = OutputV04

  /** A C string slice as UTF-8 text, or an `InvalidInput` error when the
      bytes are not well formed. The text returned carries exactly the bytes
      given. */
  function SanitizeString(str: seq<Utf8.byte>): (r: Result<string, ExporterError>)
    ensures r.Success? <==> Utf8.IsValid(str)
    ensures r.Success? ==> Utf8.Encode(r.value) == str
    ensures r.Failure? ==> r.error == ExporterError(InvalidInput)
  {
    if Utf8.IsValid(str) then
      Utf8.EncodeDecode(str);
      Success(Utf8.Decode(str).value)
    else Failure(ExporterError(InvalidInput))
  }

  /** Every string setter accepts exactly the well-formed slices, and stores
      the text it decodes. */
  lemma SanitizeAcceptsEveryString(s: string)
    ensures SanitizeString(Utf8.Encode(s)) == Success(s)
  {
    Utf8.DecodeEncode(s);
  }

  /** The invalid slice of the unit tests, `[0x80, 0xFF]`, is rejected. */
  lemma SanitizeRejectsStrayContinuation()
    ensures SanitizeString([0x80, 0xFF]) == Failure(ExporterError(InvalidInput))
  {
    Utf8.RejectsStrayContinuation([0xFF]);
  }

  /** A snapshot of every field of a configuration. */
  datatype ConfigFields = ConfigFields(
    url: Option<string>,
    tracerVersion: Option<string>,
    language: Option<string>,
    languageVersion: Option<string>,
    languageInterpreter: Option<string>,
    hostname: Option<string>,
    env: Option<string>,
    version: Option<string>,
    service: Option<string>,
    inputFormat: InputFormat,
    outputFormat: OutputFormat,
    computeStats: bool)

  const DEFAULT_FIELDS := ConfigFields(None, None, None, None, None, None, None, None, None, InputV04, OutputV04, false)

  class TraceExporterConfig {
    var url: Option<string>
    var tracerVersion: Option<string>
    var language: Option<string>
    var languageVersion: Option<string>
    var languageInterpreter: Option<string>
    var hostname: Option<string>
    var env: Option<string>
    var version: Option<string>
    var service: Option<string>
    var inputFormat: InputFormat
    var outputFormat: OutputFormat
    var computeStats: bool

    ghost function Fields(): ConfigFields
      reads this
    {
      ConfigFields(url, tracerVersion, language, languageVersion, languageInterpreter, hostname, env, version,
                   service, inputFormat, outputFormat, computeStats)
    }

    /** `ddog_trace_exporter_config_new`: the default configuration, with
        no string field set, both formats V04 and stats off. */
    constructor ()
      ensures Fields() == DEFAULT_FIELDS
    {
      url, tracerVersion, language, languageVersion, languageInterpreter := None, None, None, None, None;
      hostname, env, version, service := None, None, None, None;
      inputFormat, outputFormat, computeStats := InputV04, OutputV04, false;
    }
  }

  /** What a setter returns: `InvalidArgument` for an absent handle,
      `InvalidInput` for a slice that is not UTF-8, nothing otherwise. */
  function SetterError(config: TraceExporterConfig?, value: seq<Utf8.byte>): (r: Option<ExporterError>)
    ensures config == null ==> r == Some(ExporterError(InvalidArgument))
    ensures config != null ==> (r.None? <==> Utf8.IsValid(value))
    ensures config != null && r.Some? ==> r.value.code == InvalidInput
  {
    if config == null then Some(ExporterError(InvalidArgument))
    else if Utf8.IsValid(value) then None
    else Some(ExporterError(InvalidInput))
  }

  method SetUrl(config: TraceExporterConfig?, url: seq<Utf8.byte>) returns (error: Option<ExporterError>)
    modifies config
    ensures error == SetterError(config, url)
    ensures config != null && error.None? ==> config.Fields() == old(config.Fields()).(url := Some(Utf8.Decode(url).value))
    ensures config != null && error.Some? ==> config.Fields() == old(config.Fields())
  {
    if config != null {
      var s := SanitizeString(url);
      if s.Failure? { return Some(s.error); }
      config.url := Some(s.value);
      error := None;
    } else {
      error := Some(ExporterError(InvalidArgument));
    }
  }

  method SetTracerVersion(config: TraceExporterConfig?, version: seq<Utf8.byte>) returns (error: Option<ExporterError>)
    modifies config
    ensures error == SetterError(config, version)
    ensures config != null && error.None? ==>
      config.Fields() == old(config.Fields()).(tracerVersion := Some(Utf8.Decode(version).value))
    ensures config != null && error.Some? ==> config.Fields() == old(config.Fields())
  {
    if config != null {
      var s := SanitizeString(version);
      if s.Failure? { return Some(s.error); }
      config.tracerVersion := Some(s.value);
      error := None;
    } else {
      error := Some(ExporterError(InvalidArgument));
    }
  }

  method SetLanguage(config: TraceExporterConfig?, lang: seq<Utf8.byte>) returns (error: Option<ExporterError>)
    modifies config
    ensures error == SetterError(config, lang)
    ensures config != null && error.None? ==>
      config.Fields() == old(config.Fields()).(language := Some(Utf8.Decode(lang).value))
    ensures config != null && error.Some? ==> config.Fields() == old(config.Fields())
  {
    if config != null {
      var s := SanitizeString(lang);
      if s.Failure? { return Some(s.error); }
      config.language := Some(s.value);
      error := None;
    } else {
      error := Some(ExporterError(InvalidArgument));
    }
  }

  method SetLangVersion(config: TraceExporterConfig?, version: seq<Utf8.byte>) returns (error: Option<ExporterError>)
    modifies config
    ensures error == SetterError(config, version)
    ensures config != null && error.None? ==>
      config.Fields() == old(config.Fields()).(languageVersion := Some(Utf8.Decode(version).value))
    ensures config != null && error.Some? ==> config.Fields() == old(config.Fields())
  {
    if config != null {
      var s := SanitizeString(version);
      if s.Failure? { return Some(s.error); }
      config.languageVersion := Some(s.value);
      error := None;
    } else {
      error := Some(ExporterError(InvalidArgument));
    }
  }

  method SetLangInterpreter(config: TraceExporterConfig?, interpreter: seq<Utf8.byte>) returns (error: Option<ExporterError>)
    modifies config
    ensures error == SetterError(config, interpreter)
    ensures config != null && error.None? ==>
      config.Fields() == old(config.Fields()).(languageInterpreter := Some(Utf8.Decode(interpreter).value))
    ensures config != null && error.Some? ==> config.Fields() == old(config.Fields())
  {
    if config != null {
      var s := SanitizeString(interpreter);
      if s.Failure? { return Some(s.error); }
      config.languageInterpreter := Some(s.value);
      error := None;
    } else {
      error := Some(ExporterError(InvalidArgument));
    }
  }

  method SetHostname(config: TraceExporterConfig?, hostname: seq<Utf8.byte>) returns (error: Option<ExporterError>)
    modifies config
    ensures error == SetterError(config, hostname)
    ensures config != null && error.None? ==>
      config.Fields() == old(config.Fields()).(hostname := Some(Utf8.Decode(hostname).value))
    ensures config != null && error.Some? ==> config.Fields() == old(config.Fields())
  {
    if config != null {
      var s := SanitizeString(hostname);
      if s.Failure? { return Some(s.error); }
      config.hostname := Some(s.value);
      error := None;
    } else {
      error := Some(ExporterError(InvalidArgument));
    }
  }

  method SetEnv(config: TraceExporterConfig?, env: seq<Utf8.byte>) returns (error: Option<ExporterError>)
    modifies config
    ensures error == SetterError(config, env)
    ensures config != null && error.None? ==>
      config.Fields() == old(config.Fields()).(env := Some(Utf8.Decode(env).value))
    ensures config != null && error.Some? ==> config.Fields() == old(config.Fields())
  {
    if config != null {
      var s := SanitizeString(env);
      if s.Failure? { return Some(s.error); }
      config.env := Some(s.value);
      error := None;
    } else {
      error := Some(ExporterError(InvalidArgument));
    }
  }

  method SetVersion(config: TraceExporterConfig?, version: seq<Utf8.byte>) returns (error: Option<ExporterError>)
    modifies config
    ensures error == SetterError(config, version)
    ensures config != null && error.None? ==>
      config.Fields() == old(config.Fields()).(version := Some(Utf8.Decode(version).value))
    ensures config != null && error.Some? ==> config.Fields() == old(config.Fields())
  {
    if config != null {
      var s := SanitizeString(version);
      if s.Failure? { return Some(s.error); }
      config.version := Some(s.value);
      error := None;
    } else {
      error := Some(ExporterError(InvalidArgument));
    }
  }

  method SetService(config: TraceExporterConfig?, service: seq<Utf8.byte>) returns (error: Option<ExporterError>)
    modifies config
    ensures error == SetterError(config, service)
    ensures config != null && error.None? ==>
      config.Fields() == old(config.Fields()).(service := Some(Utf8.Decode(service).value))
    ensures config != null && error.Some? ==> config.Fields() == old(config.Fields())
  {
    if config != null {
      var s := SanitizeString(service);
      if s.Failure? { return Some(s.error); }
      config.service := Some(s.value);
      error := None;
    } else {
      error := Some(ExporterError(InvalidArgument));
    }
  }

  /** An exporter, as far as sending goes: the payloads handed to it. */
  class TraceExporter {
    var sent: seq<(seq<Utf8.byte>, nat)>

    constructor ()
      ensures sent == []
    {
      sent := [];
    }
  }

  /** `ddog_trace_exporter_send`: an absent handle is `InvalidArgument` and
      nothing is sent; otherwise the payload is handed to the exporter and
      the outcome of sending it, which the model takes as the parameter
      `outcome`, is returned. */
  method Send(handle: TraceExporter?, trace: seq<Utf8.byte>, traceCount: nat, outcome: Option<ExporterError>)
    returns (error: Option<ExporterError>)
    modifies handle
    ensures handle == null ==> error == Some(ExporterError(InvalidArgument))
    ensures handle != null ==> handle.sent == old(handle.sent) + [(trace, traceCount)] && error == outcome
  {
    if handle == null {
      return Some(ExporterError(InvalidArgument));
    }
    handle.sent := handle.sent + [(trace, traceCount)];
    error := outcome;
  }

  /** The unit tests' sequence: a fresh configuration, then a valid URL,
      leaves only the URL set. */
  method ConfigureUrl(url: string) returns (config: TraceExporterConfig)
    ensures config.Fields() == DEFAULT_FIELDS.(url := Some(url))
  {
    config := new TraceExporterConfig();
    Utf8.DecodeEncode(url);
    var error := SetUrl(config, Utf8.Encode(url));
  }
}
