/**
 * The per-record pipeline of the logs-openstack processor: the envelope step, the two
 * context extractors, the logger label and the batch loop that writes the results
 * into each metric.
 */
module Processor {
  import opened Wrappers
  import opened GoStrings
  import opened Fields
  import opened Patterns
  import Severity

  /** An absolute point in time, as time.Time stands for one. */
  datatype Instant = Instant(unixNano: int)

  /**
   * The plugin's state after New: the four compiled patterns and the zone label
   * resolved at start-up. `parseTime` stands for time.Parse with the fixed layout
   * "2006-01-02 15:04:05 MST"; it is a foreign, zone-dependent call and may fail.
   */
  datatype Plugin = Plugin(
    logRgx: Regexp,
    requestContextRgx: Regexp,
    httpRequestContextRgx: Regexp,
    httpRequestAddressesRgx: Regexp,
    timezone: string,
    parseTime: string -> Option<Instant>)
  {
    /** Each pattern field carries the group names of the pattern it is named after. */
    predicate HasGroupNames() {
      && logRgx.subexpNames == LogNames
      && requestContextRgx.subexpNames == RequestContextNames
      && httpRequestContextRgx.subexpNames == HttpRequestContextNames
      && httpRequestAddressesRgx.subexpNames == HttpRequestAddressesNames
    }

    /** Each pattern field matches only what its pattern allows. */
    ghost predicate Compiled() {
      && LogPattern(logRgx)
      && RequestContextPattern(requestContextRgx)
      && HttpRequestContextPattern(httpRequestContextRgx)
      && HttpRequestAddressesPattern(httpRequestAddressesRgx)
    }
  }

  // ---------------------------------------------------------------------------
  // processOpenstackLog
  // ---------------------------------------------------------------------------

  datatype LogError = ParseFailed(cause: ParseError) | NoTimestamp | TimeParseFailed | NoPayload

  /** A log record split into its instant, its message (the payload) and the other envelope fields. */
  datatype Envelope = Envelope(timestamp: Instant, msg: string, fields: map<string, string>)

  /** Adds "severity" next to a present "severity_label"; the label itself stays. */
  function WithSeverity(fields: map<string, string>): map<string, string> {
    if "severity_label" in fields
    then fields["severity" := Severity.SeverityField(fields["severity_label"])]
    else fields
  }

  /** What processOpenstackLog(data) returns. */
  function OpenstackLog(p: Plugin, data: string): Result<Envelope, LogError> {
    match ParseOf(data, p.logRgx)
    case Failure(e) => Failure(ParseFailed(e))
    case Success(fields) =>
      if "timestamp" !in fields then Failure(NoTimestamp)
      else
        var rest := fields - {"timestamp"};
        match p.parseTime(fields["timestamp"] + " " + p.timezone)
        case None => Failure(TimeParseFailed)
        case Some(t) =>
          if "payload" !in rest then Failure(NoPayload)
          else Success(Envelope(t, rest["payload"], WithSeverity(rest - {"payload"})))
  }

  /** processOpenstackLog: match the envelope, then take out the timestamp and the payload and add the severity rank. */
  method ProcessOpenstackLog(p: Plugin, data: string) returns (r: Result<Envelope, LogError>)
    ensures r == OpenstackLog(p, data)
  {
    var parsed := Parse(data, p.logRgx);
    if parsed.Failure? {
      return Failure(ParseFailed(parsed.error));
    }
    var fields := parsed.value;
    if "timestamp" !in fields {
      return Failure(NoTimestamp);
    }
    var timestampStr := fields["timestamp"];
    fields := fields - {"timestamp"};
    var timestamp := p.parseTime(timestampStr + " " + p.timezone);
    if timestamp.None? {
      return Failure(TimeParseFailed);
    }
    if "payload" !in fields {
      return Failure(NoPayload);
    }
    var msg := fields["payload"];
    fields := fields - {"payload"};
    if "severity_label" in fields {
      fields := fields["severity" := Severity.SeverityField(fields["severity_label"])];
    }
    return Success(Envelope(timestamp.value, msg, fields));
  }

  // ---------------------------------------------------------------------------
  // getRequestContext, getHTTPRequestContext
  // ---------------------------------------------------------------------------

  /** What getRequestContext(msg) returns: None for Go's nil map. */
  function RequestContext(p: Plugin, msg: string): Option<map<string, string>> {
    match ParseOf(msg, p.requestContextRgx)
    case Failure(_) => None
    case Success(fields) => Some(fields)
  }

  method GetRequestContext(p: Plugin, msg: string) returns (ctx: Option<map<string, string>>)
    ensures ctx == RequestContext(p, msg)
  {
    var requestContext := Parse(msg, p.requestContextRgx);
    if requestContext.Failure? {
      return None;
    }
    return Some(requestContext.value);
  }

  /** What getHTTPRequestContext(msg) returns: the addresses, when found, merged over the HTTP fields. */
  function HTTPRequestContext(p: Plugin, msg: string): Option<map<string, string>> {
    match ParseOf(msg, p.httpRequestContextRgx)
    case Failure(_) => None
    case Success(fields) =>
      match ParseOf(msg, p.httpRequestAddressesRgx)
      case Success(addresses) => Some(fields + addresses)
      case Failure(_) => Some(fields)
  }

  method GetHTTPRequestContext(p: Plugin, msg: string) returns (ctx: Option<map<string, string>>)
    ensures ctx == HTTPRequestContext(p, msg)
  {
    var httpRequestContext := Parse(msg, p.httpRequestContextRgx);
    if httpRequestContext.Failure? {
      return None;
    }
    var fields := httpRequestContext.value;
    var httpRequestAddresses := Parse(msg, p.httpRequestAddressesRgx);
    if httpRequestAddresses.Success? {
      fields := MergeMaps(fields, httpRequestAddresses.value);
    }
    return Some(fields);
  }

  // ---------------------------------------------------------------------------
  // getLoggerInfo
  // ---------------------------------------------------------------------------

  /** One element of a metric's namespace; `dynamic` marks the elements the collector fills in. */
  datatype NamespaceElement = NamespaceElement(name: string, value: string, dynamic: bool)

  type Namespace = seq<NamespaceElement>

  /** As the snap library builds them: an element is dynamic exactly when it has a name. */
  predicate WellFormed(ns: Namespace) {
    forall i :: 0 <= i < |ns| ==> (ns[i].dynamic <==> ns[i].name != "")
  }

  datatype LoggerError = NoDynamicElement | NoLogFileElement

  /** Element `i` is the last dynamic element of `ns`. */
  predicate IsLastDynamic(ns: Namespace, i: int) {
    0 <= i < |ns| && ns[i].dynamic && forall j :: i < j < |ns| ==> !ns[j].dynamic
  }

  /** The index of the last dynamic element, as `indexes[len(indexes)-1]` after ns.IsDynamic(). */
  function LastDynamic(ns: Namespace): (r: Option<nat>)
    ensures r.None? <==> forall j :: 0 <= j < |ns| ==> !ns[j].dynamic
    ensures r.Some? ==> IsLastDynamic(ns, r.value)
  {
    if ns == [] then None
    else if ns[|ns| - 1].dynamic then Some(|ns| - 1)
    else LastDynamic(ns[..|ns| - 1])
  }

  /** The service a log file belongs to: the file name without one ".log", up to its first '-'. */
  function ServiceName(logFile: string): (service: string)
    ensures '-' !in service
    ensures service <= TrimSuffix(logFile, ".log")
    ensures |service| < |TrimSuffix(logFile, ".log")| ==> TrimSuffix(logFile, ".log")[|service|] == '-'
  {
    FirstField(TrimSuffix(logFile, ".log"), '-')
  }

  /**
   * getLoggerInfo: "openstack.<service>" from the last dynamic element, which must be
   * named "log_file"; an error when there is no dynamic element or it has another name.
   */
  function GetLoggerInfo(ns: Namespace): (r: Result<string, LoggerError>)
    ensures (forall j :: 0 <= j < |ns| ==> !ns[j].dynamic) ==> r == Failure(NoDynamicElement)
    ensures forall i :: IsLastDynamic(ns, i) ==>
      r == if ns[i].name == "log_file" then Success("openstack." + ServiceName(ns[i].value))
           else Failure(NoLogFileElement)
  {
    match LastDynamic(ns)
    case None => Failure(NoDynamicElement)
    case Some(i) =>
      var lde := ns[i];
      if lde.name != "log_file" then Failure(NoLogFileElement)
      else Success("openstack." + ServiceName(lde.value))
  }

  // ---------------------------------------------------------------------------
  // Process
  // ---------------------------------------------------------------------------

  /** A metric's Data: a string, or a value of some other type. */
  datatype Data = Text(text: string) | NonText

  datatype Metric = Metric(namespace: Namespace, data: Data, timestamp: Instant, tags: map<string, string>)

  /** The fields Process writes for a record with envelope `env`: envelope, then request, then HTTP context. */
  function ExtractedFields(p: Plugin, env: Envelope): map<string, string> {
    if env.msg != "" then
      env.fields + OrEmpty(RequestContext(p, env.msg)) + OrEmpty(HTTPRequestContext(p, env.msg))
    else env.fields
  }

  /** One iteration of Process: the metric as it is afterwards. */
  function ProcessedMetric(p: Plugin, m: Metric): Metric {
    match GetLoggerInfo(m.namespace)
    case Failure(_) => m
    case Success(logger) =>
      if !m.data.Text? then m
      else
        match OpenstackLog(p, m.data.text)
        case Failure(_) => m
        case Success(env) =>
          m.(timestamp := env.timestamp, data := Text(env.msg),
             tags := m.tags["logger" := logger] + ExtractedFields(p, env))
  }

  /**
   * The body of Process's loop for one metric. Where the loop `continue`s (logger
   * info, data type or envelope failing) the metric comes back as it was.
   */
  method ProcessMetric(p: Plugin, m: Metric) returns (r: Metric)
    ensures r == ProcessedMetric(p, m)
  {
    var logger := GetLoggerInfo(m.namespace);
    if logger.Failure? {
      return m;
    }
    if !m.data.Text? {
      return m;
    }
    var envelope := ProcessOpenstackLog(p, m.data.text);
    if envelope.Failure? {
      return m;
    }
    var msg := envelope.value.msg;
    var fields := envelope.value.fields;
    if msg != "" {
      var requestContext := GetRequestContext(p, msg);
      fields := MergeMaps(fields, OrEmpty(requestContext));
      var httpRequestContext := GetHTTPRequestContext(p, msg);
      fields := MergeMaps(fields, OrEmpty(httpRequestContext));
    }
    var tags := m.tags["logger" := logger.value];
    tags := MergeMaps(tags, fields);
    return m.(timestamp := envelope.value.timestamp, data := Text(msg), tags := tags);
  }

  /** The whole batch after Process: each metric as one iteration leaves it, in order. */
  function ProcessedBatch(p: Plugin, ms: seq<Metric>): (r: seq<Metric>)
    ensures |r| == |ms|
  {
    if ms == [] then [] else ProcessedBatch(p, ms[..|ms| - 1]) + [ProcessedMetric(p, ms[|ms| - 1])]
  }

  /**
   * Process: every metric is rewritten in place, one after the other; a metric that
   * fails a step keeps its value and the loop goes on. The error result is always nil.
   */
  method Process(p: Plugin, metrics: array<Metric>) returns (out: array<Metric>, err: Option<string>)
    modifies metrics
    ensures out == metrics && err == None
    ensures metrics[..] == ProcessedBatch(p, old(metrics[..]))
  {
    ghost var before := metrics[..];
    for i := 0 to metrics.Length
      invariant metrics[..i] == ProcessedBatch(p, before[..i])
      invariant metrics[i..] == before[i..]
    {
      metrics[i] := ProcessMetric(p, metrics[i]);
      assert before[..i + 1][..i] == before[..i];
      assert metrics[..i + 1] == metrics[..i] + [metrics[i]];
    }
    assert before[..metrics.Length] == before;
    return metrics, None;
  }
}
