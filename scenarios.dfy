/**
 * Worked records of the Nova API log, followed through Process's per-metric step with
 * the submatches RE2 produces for them supplied as the matcher's answers.
 */
module NovaScenarios {
  import opened Wrappers
  import opened GoStrings
  import opened Fields
  import opened Patterns
  import opened Processor
  import opened ProcessorProperties

  const Timestamp := "2016-12-07 03:53:55.873"
  const RequestId := "0c0b761c-47b0-4bf5-832c-89ef048fa56a"
  const UserId := "fa2b2986c200431b8119035d4a47d420"
  const TenantId := "b1ad1df9062a4fc682904c6c9b0f4e98"
  const Url := "/v2.1/b1ad1df9062a4fc682904c6c9b0f4e98/extensions"
  const Bracket := "[req-" + RequestId + " " + UserId + " " + TenantId + " - default default]"
  const Request := "\"GET " + Url + " HTTP/1.1\" status: 200 len: 23011 time: 0.4711170"
  const Payload := Bracket + " 10.91.126.38,10.0.0.1 " + Request
  const Record := Timestamp + " 24 INFO nova.osapi_compute.wsgi.server " + Payload

  const LogSubmatches: seq<string> :=
    [Record, Timestamp, "2016", "12", "07", "03", "53", "55", "873",
     "24", "INFO", "nova.osapi_compute.wsgi.server", Payload, "0"]
  const RequestSubmatches: seq<string> :=
    [Bracket, "req-", RequestId, " " + UserId + " " + TenantId, UserId, TenantId]
  const HttpSubmatches: seq<string> :=
    [Request, "GET", Url, "1.1", "status: ", "200", "len: ", "23011", "time: ", "0.4711170"]
  const AddressSubmatches: seq<string> :=
    ["10.91.126.38,10.0.0.1", "10.91.126.38", ",", "10.0.0.1"]

  const ExpectedEnvelopeFields: map<string, string> := map[
    "pid" := "24", "severity_label" := "INFO", "python_module" := "nova.osapi_compute.wsgi.server",
    "severity" := "6"]
  const ExpectedRequestContext: map<string, string> :=
    map["request_id" := RequestId, "user_id" := UserId, "tenant_id" := TenantId]
  const ExpectedHttpContext: map<string, string> := map[
    "http_method" := "GET", "http_url" := Url, "http_version" := "1.1", "http_status" := "200",
    "http_response_size" := "23011", "http_response_time" := "0.4711170",
    "http_client_ip_address" := "10.91.126.38", "http_server_ip_address" := "10.0.0.1"]

  /** The log file of the Nova API, written as service, separator, rest and extension. */
  const NovaApiLog := "nova" + "-" + "api" + ".log"

  /** The logger of a metric read from nova-api.log. */
  lemma NovaApiLogger()
    ensures GetLoggerInfo(CollectorNamespace("mock", NovaApiLog)) == Success("openstack.nova")
  {
    LoggerOfServiceLog("mock", "nova", "api");
    NovaLoggerName();
  }

  /** The logger name spelled out; kept apart so the literal comparison is proved on its own, cheaply. */
  lemma NovaLoggerName()
    ensures "openstack." + "nova" == "openstack.nova"
  {
    LiteralJoin("openstack.", "nova", "openstack.nova");
  }

  /** Joining two literals gives the literal they spell together: a helper for the literal comparisons above. */
  lemma LiteralJoin(a: string, b: string, ab: string)
    requires |ab| == |a| + |b|
    requires forall i :: 0 <= i < |a| ==> ab[i] == a[i]
    requires forall i :: 0 <= i < |b| ==> ab[|a| + i] == b[i]
    ensures a + b == ab
  {
  }

  /** What parse returns for the record: the five named envelope captures. */
  lemma NovaLogFields(p: Plugin)
    requires p.logRgx.subexpNames == LogNames
    requires p.logRgx.findStringSubmatch(Record) == Some(LogSubmatches)
    ensures ParseOf(Record, p.logRgx) == Success(map[
      "timestamp" := Timestamp, "pid" := "24", "severity_label" := "INFO",
      "python_module" := "nova.osapi_compute.wsgi.server", "payload" := Payload])
  {
    LogCaptures(LogSubmatches);
  }

  /** The envelope step on the record: the payload, the parsed instant and the INFO rank 6. */
  lemma NovaEnvelope(p: Plugin, t: Instant)
    requires p.logRgx.subexpNames == LogNames
    requires p.logRgx.findStringSubmatch(Record) == Some(LogSubmatches)
    requires p.parseTime(Timestamp + " " + p.timezone) == Some(t)
    ensures OpenstackLog(p, Record) == Success(Envelope(t, Payload, ExpectedEnvelopeFields))
  {
    NovaLogFields(p);
    NovaEnvelopeFields();
  }

  /** Taking the timestamp and payload out of the record's captures and ranking INFO. */
  lemma NovaEnvelopeFields()
    ensures
      var captured := map[
        "timestamp" := Timestamp, "pid" := "24", "severity_label" := "INFO",
        "python_module" := "nova.osapi_compute.wsgi.server", "payload" := Payload];
      && "timestamp" in captured && captured["timestamp"] == Timestamp
      && "payload" in captured - {"timestamp"} && (captured - {"timestamp"})["payload"] == Payload
      && WithSeverity(captured - {"timestamp"} - {"payload"}) == ExpectedEnvelopeFields
  {
    Severity.KnownSeverities();
    var captured := map[
      "timestamp" := Timestamp, "pid" := "24", "severity_label" := "INFO",
      "python_module" := "nova.osapi_compute.wsgi.server", "payload" := Payload];
    assert captured - {"timestamp"} - {"payload"} ==
      map["pid" := "24", "severity_label" := "INFO", "python_module" := "nova.osapi_compute.wsgi.server"];
  }

  /** The request context of the payload: request, user and tenant ids. */
  lemma NovaRequestContext(p: Plugin)
    requires p.requestContextRgx.subexpNames == RequestContextNames
    requires p.requestContextRgx.findStringSubmatch(Payload) == Some(RequestSubmatches)
    ensures RequestContext(p, Payload) == Some(ExpectedRequestContext)
  {
    RequestContextCaptures(RequestSubmatches);
  }

  /** The HTTP context of the payload: the request line, the status line and both addresses. */
  lemma NovaHttpContext(p: Plugin)
    requires p.httpRequestContextRgx.subexpNames == HttpRequestContextNames
    requires p.httpRequestAddressesRgx.subexpNames == HttpRequestAddressesNames
    requires p.httpRequestContextRgx.findStringSubmatch(Payload) == Some(HttpSubmatches)
    requires p.httpRequestAddressesRgx.findStringSubmatch(Payload) == Some(AddressSubmatches)
    ensures HTTPRequestContext(p, Payload) == Some(ExpectedHttpContext)
  {
    HttpRequestContextCaptures(HttpSubmatches);
    HttpRequestAddressesCaptures(AddressSubmatches);
    var request := map[
      "http_method" := "GET", "http_url" := Url, "http_version" := "1.1", "http_status" := "200",
      "http_response_size" := "23011", "http_response_time" := "0.4711170"];
    var addresses := map["http_client_ip_address" := "10.91.126.38", "http_server_ip_address" := "10.0.0.1"];
    assert ParseOf(Payload, p.httpRequestContextRgx) == Success(request);
    assert ParseOf(Payload, p.httpRequestAddressesRgx) == Success(addresses);
    NovaHttpKeysJoin();
  }

  /** The request-line and address fields of the payload, joined; a map-literal fact kept apart so it is proved cheaply. */
  lemma NovaHttpKeysJoin()
    ensures
      map["http_method" := "GET", "http_url" := Url, "http_version" := "1.1", "http_status" := "200",
          "http_response_size" := "23011", "http_response_time" := "0.4711170"] +
      map["http_client_ip_address" := "10.91.126.38", "http_server_ip_address" := "10.0.0.1"]
      == ExpectedHttpContext
  {
  }

  /**
   * A record with a full request context, an HTTP request line and two addresses: the
   * metric's data becomes the payload, its timestamp the record's, and its (empty) tags
   * gain the logger, then the envelope fields, then both contexts (whose keys are
   * disjoint, see ProcessorProperties.KeySetsDisjoint).
   */
  lemma NovaApiRequestWithHttpContext(p: Plugin, t: Instant, arrival: Instant)
    requires p.HasGroupNames()
    requires p.logRgx.findStringSubmatch(Record) == Some(LogSubmatches)
    requires p.parseTime(Timestamp + " " + p.timezone) == Some(t)
    requires p.requestContextRgx.findStringSubmatch(Payload) == Some(RequestSubmatches)
    requires p.httpRequestContextRgx.findStringSubmatch(Payload) == Some(HttpSubmatches)
    requires p.httpRequestAddressesRgx.findStringSubmatch(Payload) == Some(AddressSubmatches)
    ensures
      var ns := CollectorNamespace("mock", NovaApiLog);
      ProcessedMetric(p, Metric(ns, Text(Record), arrival, map[])) == Metric(ns, Text(Payload), t,
        map["logger" := "openstack.nova"] + (ExpectedEnvelopeFields + ExpectedRequestContext + ExpectedHttpContext))
  {
    var env := Envelope(t, Payload, ExpectedEnvelopeFields);
    NovaApiLogger();
    NovaEnvelope(p, t);
    NovaExtractedFields(p, t);
    MetricOfEnvelope(p, Metric(CollectorNamespace("mock", NovaApiLog), Text(Record), arrival, map[]),
      "openstack.nova", env);
  }

  /** Everything extracted from the record: envelope fields, then request and HTTP context. */
  lemma NovaExtractedFields(p: Plugin, t: Instant)
    requires p.HasGroupNames()
    requires p.requestContextRgx.findStringSubmatch(Payload) == Some(RequestSubmatches)
    requires p.httpRequestContextRgx.findStringSubmatch(Payload) == Some(HttpSubmatches)
    requires p.httpRequestAddressesRgx.findStringSubmatch(Payload) == Some(AddressSubmatches)
    ensures ExtractedFields(p, Envelope(t, Payload, ExpectedEnvelopeFields)) ==
      ExpectedEnvelopeFields + ExpectedRequestContext + ExpectedHttpContext
  {
    NovaRequestContext(p);
    NovaHttpContext(p);
    assert Payload != "";
  }

  /** One iteration on a metric whose logger and envelope are known. */
  lemma MetricOfEnvelope(p: Plugin, m: Metric, logger: string, env: Envelope)
    requires GetLoggerInfo(m.namespace) == Success(logger)
    requires m.data.Text? && OpenstackLog(p, m.data.text) == Success(env)
    ensures ProcessedMetric(p, m) ==
      m.(timestamp := env.timestamp, data := Text(env.msg), tags := m.tags["logger" := logger] + ExtractedFields(p, env))
  {
  }

  /** The message of a record whose request context carries only a request id. */
  const StoppedServer := "[req-cb760354-bbb0" + "-4968-92e6-3312b8a7d223" + " - - - - -] WSGI" + " server has stopped."

  /** A message with a request context but no quoted request line has no HTTP context. */
  lemma StoppedServerHasNoHttpContext(p: Plugin)
    requires HttpRequestContextPattern(p.httpRequestContextRgx)
    ensures HTTPRequestContext(p, StoppedServer).None?
  {
    assert '"' !in "[req-cb760354-bbb0" && '"' !in "-4968-92e6-3312b8a7d223";
    assert '"' !in " - - - - -] WSGI" && '"' !in " server has stopped.";
    HTTPContextNeedsQuote(p, StoppedServer);
  }
}
