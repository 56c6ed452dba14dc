/** What the processor's steps promise, stated over the specification functions of Processor. */
module ProcessorProperties {
  import opened Wrappers
  import opened GoStrings
  import opened Fields
  import opened Patterns
  import opened Processor
  import Severity

  const EnvelopeKeys: set<string> := {"pid", "severity_label", "python_module", "severity"}
  const RequestContextKeys: set<string> := {"request_id", "user_id", "tenant_id"}
  const HttpKeys: set<string> :=
    {"http_method", "http_url", "http_version", "http_status", "http_response_size", "http_response_time"}
  const AddressKeys: set<string> := {"http_client_ip_address", "http_server_ip_address"}

  // ---------------------------------------------------------------------------
  // processOpenstackLog
  // ---------------------------------------------------------------------------

  /**
   * Whatever the pattern: on success neither "timestamp" nor "payload" is left among
   * the fields, the message is the (necessarily non-empty) payload capture, the instant
   * is the parsed timestamp capture, "severity" accompanies "severity_label", and every
   * other captured field is passed on unchanged.
   */
  lemma EnvelopeOnSuccess(p: Plugin, data: string)
    requires OpenstackLog(p, data).Success?
    ensures ParseOf(data, p.logRgx).Success?
    ensures
      var env := OpenstackLog(p, data).value;
      var captured := ParseOf(data, p.logRgx).value;
      && "timestamp" in captured && "payload" in captured
      && "timestamp" !in env.fields && "payload" !in env.fields
      && env.msg == captured["payload"] && env.msg != ""
      && p.parseTime(captured["timestamp"] + " " + p.timezone) == Some(env.timestamp)
      && ("severity" in env.fields <==> "severity_label" in captured || "severity" in captured)
      && ("severity_label" in captured ==>
            env.fields["severity_label"] == captured["severity_label"]
            && env.fields["severity"] == Severity.SeverityField(captured["severity_label"]))
      && (forall k :: k in captured && k !in {"timestamp", "payload", "severity"} ==>
            k in env.fields && env.fields[k] == captured[k])
      && (forall k :: k in env.fields && k != "severity" ==> k in captured)
  {
    ParseSpec(data, p.logRgx);
  }

  /**
   * With the envelope pattern: the outcome is decided by the match, the timestamp
   * parse and the payload capture, in that order. No match gives the parse error; the
   * timestamp is never missing; an empty payload capture gives "No payload in log".
   */
  lemma EnvelopeOutcome(p: Plugin, data: string)
    requires LogPattern(p.logRgx)
    ensures
      var sm := p.logRgx.findStringSubmatch(data);
      var r := OpenstackLog(p, data);
      && (r == Failure(ParseFailed(NoStringMatch)) <==> sm.None?)
      && r != Failure(NoTimestamp)
      && (sm.Some? ==>
            var m := sm.value;
            var t := p.parseTime(m[1] + " " + p.timezone);
            && (r == Failure(TimeParseFailed) <==> t.None?)
            && (r == Failure(NoPayload) <==> t.Some? && m[12] == "")
            && (r.Success? <==> t.Some? && m[12] != ""))
  {
    var sm := p.logRgx.findStringSubmatch(data);
    LogFieldsOutcome(p, data);
    if sm.Some? {
      var captured := ParseOf(data, p.logRgx).value;
      assert "timestamp" in captured;
      assert "payload" in captured - {"timestamp"} <==> sm.value[12] != "";
    }
  }

  /**
   * With the envelope pattern, a success carries the parsed timestamp, the payload as
   * message and exactly pid, severity_label, python_module and severity.
   */
  lemma EnvelopeValue(p: Plugin, data: string)
    requires LogPattern(p.logRgx)
    requires OpenstackLog(p, data).Success?
    ensures
      var m := p.logRgx.findStringSubmatch(data).value;
      var t := p.parseTime(m[1] + " " + p.timezone);
      t.Some? && OpenstackLog(p, data).value ==
        Envelope(t.value, m[12],
          map["pid" := m[9], "severity_label" := m[10], "python_module" := m[11],
              "severity" := Severity.SeverityField(m[10])])
  {
    LogFieldsOutcome(p, data);
    var m := p.logRgx.findStringSubmatch(data).value;
    var captured := ParseOf(data, p.logRgx).value;
    var rest := captured - {"timestamp"};
    assert m[12] != "";
    assert rest - {"payload"} == map["pid" := m[9], "severity_label" := m[10], "python_module" := m[11]];
  }

  /** What parse returns for the envelope pattern: timestamp, pid, label and module always, the payload when non-empty. */
  lemma LogFieldsOutcome(p: Plugin, data: string)
    requires LogPattern(p.logRgx)
    ensures ParseOf(data, p.logRgx).Success? <==> p.logRgx.findStringSubmatch(data).Some?
    ensures ParseOf(data, p.logRgx).Success? ==>
      var m := p.logRgx.findStringSubmatch(data).value;
      ParseOf(data, p.logRgx).value ==
        Put(map["timestamp" := m[1], "pid" := m[9], "severity_label" := m[10], "python_module" := m[11]], "payload", m[12])
  {
    var sm := p.logRgx.findStringSubmatch(data);
    if sm.Some? {
      var m := sm.value;
      assert LogMatch(data, m);
      LogCaptures(m);
      assert m[1] != "" && m[9] != "" && m[10] != "" && m[11] != "";
    }
  }

  /**
   * Any text shorter than the shortest envelope (a 19-character timestamp, four
   * separating spaces and one character each of pid, label and module) fails to match.
   */
  lemma ShortRecordFails(p: Plugin, data: string)
    requires LogPattern(p.logRgx)
    requires |data| < 26
    ensures OpenstackLog(p, data) == Failure(ParseFailed(NoStringMatch))
  {
  }

  /** An empty record and one without the envelope shape are rejected. */
  lemma EmptyAndInvalidRecordsFail(p: Plugin)
    requires LogPattern(p.logRgx)
    ensures OpenstackLog(p, "").Failure?
    ensures OpenstackLog(p, "invalid").Failure?
  {
    ShortRecordFails(p, "");
    ShortRecordFails(p, "invalid");
  }

  /** With the envelope's group names, a success carries only the four envelope keys. */
  lemma EnvelopeKeysOnly(p: Plugin, data: string)
    requires p.logRgx.subexpNames == LogNames
    requires OpenstackLog(p, data).Success?
    ensures OpenstackLog(p, data).value.fields.Keys <= EnvelopeKeys
  {
    LogCaptures(p.logRgx.findStringSubmatch(data).value);
  }

  // ---------------------------------------------------------------------------
  // getRequestContext
  // ---------------------------------------------------------------------------

  /**
   * With the request-context pattern: nil exactly when it does not match; on a match
   * "request_id" is always there and is the id after the optional "req-" (which an
   * unnamed group consumes), and "user_id" and "tenant_id" come both or neither.
   */
  lemma RequestContextOutcome(p: Plugin, msg: string)
    requires RequestContextPattern(p.requestContextRgx)
    ensures RequestContext(p, msg).None? <==> p.requestContextRgx.findStringSubmatch(msg).None?
    ensures RequestContext(p, msg).Some? ==>
      var m := p.requestContextRgx.findStringSubmatch(msg).value;
      var ctx := RequestContext(p, msg).value;
      && ctx.Keys <= RequestContextKeys
      && "request_id" in ctx && ctx["request_id"] == m[2] && UuidShaped(ctx["request_id"])
      && (m[1] == "" || m[1] == "req-")
      && ("user_id" in ctx <==> "tenant_id" in ctx)
      && ("user_id" in ctx ==>
            ctx["user_id"] == m[4] && ctx["tenant_id"] == m[5] && m[3] == " " + m[4] + " " + m[5])
  {
    var sm := p.requestContextRgx.findStringSubmatch(msg);
    if sm.Some? {
      var m := sm.value;
      assert RequestContextMatch(msg, m);
      RequestContextCaptures(m);
      UuidBounds(m[2]);
      if m[4] != "" {
        UuidBounds(m[5]);
      }
      if m[5] != "" {
        UuidBounds(m[4]);
      }
    }
  }

  /** A request context is at least 34 characters long: "[", an id of 32 or more, and "]". */
  lemma ShortTextHasNoRequestContext(p: Plugin, msg: string)
    requires RequestContextPattern(p.requestContextRgx)
    requires |msg| < 34
    ensures RequestContext(p, msg).None?
  {
    var sm := p.requestContextRgx.findStringSubmatch(msg);
    if sm.Some? {
      var m := sm.value;
      assert RequestContextMatch(msg, m);
      OccursBounds(m[0], msg);
      UuidBounds(m[2]);
      assert false;
    }
  }

  /** A request context opens with "[": text without one yields nil. */
  lemma UnbracketedTextHasNoRequestContext(p: Plugin, msg: string)
    requires RequestContextPattern(p.requestContextRgx)
    requires '[' !in msg
    ensures RequestContext(p, msg).None?
  {
    var sm := p.requestContextRgx.findStringSubmatch(msg);
    if sm.Some? {
      var m := sm.value;
      assert RequestContextMatch(msg, m);
      OccursBounds(m[0], msg);
      assert false;
    }
  }

  /** The two failing cases the request-context extraction is documented with. */
  lemma RequestContextNilExamples(p: Plugin)
    requires RequestContextPattern(p.requestContextRgx)
    ensures RequestContext(p, "").None?
    ensures RequestContext(p, "[-]").None?
  {
    ShortTextHasNoRequestContext(p, "");
    ShortTextHasNoRequestContext(p, "[-]");
  }

  // ---------------------------------------------------------------------------
  // getHTTPRequestContext
  // ---------------------------------------------------------------------------

  /** What parse returns for the HTTP pattern: a success exactly on a match, holding only HTTP keys. */
  lemma HttpFieldsOutcome(p: Plugin, msg: string)
    requires HttpRequestContextPattern(p.httpRequestContextRgx)
    ensures ParseOf(msg, p.httpRequestContextRgx).Success? <==> p.httpRequestContextRgx.findStringSubmatch(msg).Some?
    ensures ParseOf(msg, p.httpRequestContextRgx).Success? ==> ParseOf(msg, p.httpRequestContextRgx).value.Keys <= HttpKeys
  {
    var sm := p.httpRequestContextRgx.findStringSubmatch(msg);
    if sm.Some? {
      assert HttpRequestContextMatch(msg, sm.value);
      HttpRequestContextCaptures(sm.value);
    }
  }

  /** The request line of an HTTP match: method and version always, the URL when non-empty. */
  lemma HttpRequestLineFields(p: Plugin, msg: string)
    requires HttpRequestContextPattern(p.httpRequestContextRgx)
    requires p.httpRequestContextRgx.findStringSubmatch(msg).Some?
    ensures
      var h := p.httpRequestContextRgx.findStringSubmatch(msg).value;
      var f := ParseOf(msg, p.httpRequestContextRgx).value;
      && ParseOf(msg, p.httpRequestContextRgx).Success?
      && "http_method" in f && f["http_method"] == h[1]
      && "http_version" in f && f["http_version"] == h[3]
      && ("http_url" in f <==> h[2] != "")
      && ("http_url" in f ==> f["http_url"] == h[2])
  {
    var h := p.httpRequestContextRgx.findStringSubmatch(msg).value;
    assert HttpRequestContextMatch(msg, h);
    assert h[1] != "" && h[3] != "";
    HttpRequestContextCaptures(h);
  }

  /** The status line of an HTTP match: status, response size and response time, always. */
  lemma HttpStatusFields(p: Plugin, msg: string)
    requires HttpRequestContextPattern(p.httpRequestContextRgx)
    requires p.httpRequestContextRgx.findStringSubmatch(msg).Some?
    ensures
      var h := p.httpRequestContextRgx.findStringSubmatch(msg).value;
      var f := ParseOf(msg, p.httpRequestContextRgx).value;
      && ParseOf(msg, p.httpRequestContextRgx).Success?
      && "http_status" in f && f["http_status"] == h[5]
      && "http_response_size" in f && f["http_response_size"] == h[7]
      && "http_response_time" in f && f["http_response_time"] == h[9]
  {
    var h := p.httpRequestContextRgx.findStringSubmatch(msg).value;
    assert HttpRequestContextMatch(msg, h);
    var j :| 0 < j < |h[9]| - 1 && DigitRun(h[9][..j]) && h[9][j] != '\n' && DigitRun(h[9][j + 1..]);
    assert h[5] != "" && h[7] != "" && h[9] != "";
    HttpRequestContextCaptures(h);
  }

  /** What parse returns for the address pattern: the client always, the server when present. */
  lemma AddressFieldsOutcome(p: Plugin, msg: string)
    requires HttpRequestAddressesPattern(p.httpRequestAddressesRgx)
    ensures ParseOf(msg, p.httpRequestAddressesRgx).Success? <==> p.httpRequestAddressesRgx.findStringSubmatch(msg).Some?
    ensures ParseOf(msg, p.httpRequestAddressesRgx).Success? ==>
      var a := p.httpRequestAddressesRgx.findStringSubmatch(msg).value;
      var f := ParseOf(msg, p.httpRequestAddressesRgx).value;
      && f.Keys <= AddressKeys
      && "http_client_ip_address" in f && f["http_client_ip_address"] == a[1]
      && ("http_server_ip_address" in f <==> a[3] != "")
      && ("http_server_ip_address" in f ==> f["http_server_ip_address"] == a[3])
  {
    var sm := p.httpRequestAddressesRgx.findStringSubmatch(msg);
    if sm.Some? {
      var a := sm.value;
      assert HttpRequestAddressesMatch(msg, a);
      HttpRequestAddressesCaptures(a);
      assert a[1] != "";
    }
  }

  /**
   * With the HTTP and address patterns: nil exactly when the HTTP pattern fails, whatever
   * addresses the text holds. On a match, method, version, status, size and time are
   * always there and the URL whenever its capture is non-empty; without an address match
   * no address key appears; the server address never appears without the client address.
   */
  lemma HTTPRequestContextOutcome(p: Plugin, msg: string)
    requires HttpRequestContextPattern(p.httpRequestContextRgx)
    requires HttpRequestAddressesPattern(p.httpRequestAddressesRgx)
    ensures HTTPRequestContext(p, msg).None? <==> p.httpRequestContextRgx.findStringSubmatch(msg).None?
    ensures HTTPRequestContext(p, msg).Some? ==>
      var h := p.httpRequestContextRgx.findStringSubmatch(msg).value;
      var addresses := p.httpRequestAddressesRgx.findStringSubmatch(msg);
      var ctx := HTTPRequestContext(p, msg).value;
      && ctx.Keys <= HttpKeys + AddressKeys
      && "http_method" in ctx && ctx["http_method"] == h[1]
      && "http_version" in ctx && ctx["http_version"] == h[3]
      && "http_status" in ctx && ctx["http_status"] == h[5]
      && "http_response_size" in ctx && ctx["http_response_size"] == h[7]
      && "http_response_time" in ctx && ctx["http_response_time"] == h[9]
      && ("http_url" in ctx <==> h[2] != "")
      && ("http_url" in ctx ==> ctx["http_url"] == h[2])
      && (addresses.None? ==> ctx.Keys * AddressKeys == {})
      && (addresses.Some? ==>
            && "http_client_ip_address" in ctx && ctx["http_client_ip_address"] == addresses.value[1]
            && ("http_server_ip_address" in ctx <==> addresses.value[3] != "")
            && ("http_server_ip_address" in ctx ==> ctx["http_server_ip_address"] == addresses.value[3]))
      && ("http_server_ip_address" in ctx ==> "http_client_ip_address" in ctx)
  {
    HttpFieldsOutcome(p, msg);
    AddressFieldsOutcome(p, msg);
    if p.httpRequestContextRgx.findStringSubmatch(msg).Some? {
      HttpRequestLineFields(p, msg);
      HttpStatusFields(p, msg);
    }
  }

  /** The HTTP request line is quoted: text without a '"' has no HTTP context. */
  lemma HTTPContextNeedsQuote(p: Plugin, msg: string)
    requires HttpRequestContextPattern(p.httpRequestContextRgx)
    requires '"' !in msg
    ensures HTTPRequestContext(p, msg).None?
  {
    var sm := p.httpRequestContextRgx.findStringSubmatch(msg);
    if sm.Some? {
      var h := sm.value;
      assert HttpRequestContextMatch(msg, h);
      OccursBounds(h[0], msg);
      assert false;
    }
  }

  /** The two failing cases the HTTP extraction is documented with. */
  lemma HTTPContextNilExamples(p: Plugin)
    requires HttpRequestContextPattern(p.httpRequestContextRgx)
    ensures HTTPRequestContext(p, "").None?
    ensures HTTPRequestContext(p, "[-]").None?
  {
    HTTPContextNeedsQuote(p, "");
    HTTPContextNeedsQuote(p, "[-]");
  }

  /** With the request-context group names, only the three id keys can appear. */
  lemma RequestContextKeysOnly(p: Plugin, msg: string)
    requires p.requestContextRgx.subexpNames == RequestContextNames
    ensures OrEmpty(RequestContext(p, msg)).Keys <= RequestContextKeys
  {
    var sm := p.requestContextRgx.findStringSubmatch(msg);
    if Matched(sm) {
      RequestContextCaptures(sm.value);
    }
  }

  /** With the HTTP and address group names, only HTTP and address keys can appear. */
  lemma HTTPContextKeysOnly(p: Plugin, msg: string)
    requires p.httpRequestContextRgx.subexpNames == HttpRequestContextNames
    requires p.httpRequestAddressesRgx.subexpNames == HttpRequestAddressesNames
    ensures OrEmpty(HTTPRequestContext(p, msg)).Keys <= HttpKeys + AddressKeys
  {
    var f := ParseOf(msg, p.httpRequestContextRgx);
    if f.Success? {
      HttpRequestContextCaptures(p.httpRequestContextRgx.findStringSubmatch(msg).value);
      assert f.value.Keys <= HttpKeys;
      var a := ParseOf(msg, p.httpRequestAddressesRgx);
      if a.Success? {
        HttpRequestAddressesCaptures(p.httpRequestAddressesRgx.findStringSubmatch(msg).value);
        assert a.value.Keys <= AddressKeys;
      }
    }
  }

  /**
   * The severity step: with a label, "severity" is added as one digit whose value is the
   * label's rank (0 for a label outside the table) and the label is kept; without a
   * label nothing changes; no other field is touched either way.
   */
  lemma WithSeverityOutcome(fields: map<string, string>)
    ensures "severity_label" in fields ==>
      var r := WithSeverity(fields);
      && r.Keys == fields.Keys + {"severity"}
      && |r["severity"]| == 1 && DecimalValue(r["severity"]) == Severity.Rank(fields["severity_label"])
      && r["severity_label"] == fields["severity_label"]
    ensures "severity_label" !in fields ==> WithSeverity(fields) == fields
    ensures forall k :: k in fields && k != "severity" ==> k in WithSeverity(fields) && WithSeverity(fields)[k] == fields[k]
  {
  }

  // ---------------------------------------------------------------------------
  // Process, one metric
  // ---------------------------------------------------------------------------

  /**
   * A metric whose logger, data type or envelope fails is left as it was. Otherwise its
   * data becomes the message, its timestamp the record's instant, and its tags gain
   * "logger" and every extracted field; the envelope, request and HTTP keys are
   * disjoint, so no extracted value hides another, and every other tag is kept.
   */
  lemma ProcessedMetricOutcome(p: Plugin, m: Metric)
    requires p.HasGroupNames()
    ensures GetLoggerInfo(m.namespace).Failure? || !m.data.Text? || OpenstackLog(p, m.data.text).Failure? ==>
      ProcessedMetric(p, m) == m
    ensures GetLoggerInfo(m.namespace).Success? && m.data.Text? && OpenstackLog(p, m.data.text).Success? ==>
      var logger := GetLoggerInfo(m.namespace).value;
      var env := OpenstackLog(p, m.data.text).value;
      var rc := OrEmpty(RequestContext(p, env.msg));
      var hc := OrEmpty(HTTPRequestContext(p, env.msg));
      var r := ProcessedMetric(p, m);
      && r.namespace == m.namespace && r.timestamp == env.timestamp && r.data == Text(env.msg)
      && r.tags.Keys == m.tags.Keys + {"logger"} + env.fields.Keys + rc.Keys + hc.Keys
      && r.tags["logger"] == logger
      && (forall k :: k in env.fields ==> r.tags[k] == env.fields[k])
      && (forall k :: k in rc ==> r.tags[k] == rc[k])
      && (forall k :: k in hc ==> r.tags[k] == hc[k])
      && (forall k :: k in m.tags && k != "logger" && k !in env.fields && k !in rc && k !in hc ==>
            r.tags[k] == m.tags[k])
  {
    if GetLoggerInfo(m.namespace).Success? && m.data.Text? && OpenstackLog(p, m.data.text).Success? {
      var logger := GetLoggerInfo(m.namespace).value;
      var env := OpenstackLog(p, m.data.text).value;
      var rc := OrEmpty(RequestContext(p, env.msg));
      var hc := OrEmpty(HTTPRequestContext(p, env.msg));
      EnvelopeOnSuccess(p, m.data.text);
      EnvelopeKeysOnly(p, m.data.text);
      RequestContextKeysOnly(p, env.msg);
      HTTPContextKeysOnly(p, env.msg);
      assert ProcessedMetric(p, m).tags == m.tags["logger" := logger] + (env.fields + rc + hc);
      KeySetsDisjoint();
      TagsAfterMerge(m.tags, logger, env.fields, rc, hc);
    }
  }

  /**
   * The order of the merges: an empty message keeps only the envelope fields; otherwise
   * the request context is merged over them and the HTTP context over that, so for a
   * key held by several the HTTP value wins, then the request value.
   */
  lemma ExtractedFieldsOrder(p: Plugin, env: Envelope)
    ensures env.msg == "" ==> ExtractedFields(p, env) == env.fields
    ensures env.msg != "" ==>
      var rc := OrEmpty(RequestContext(p, env.msg));
      var hc := OrEmpty(HTTPRequestContext(p, env.msg));
      var r := ExtractedFields(p, env);
      && r.Keys == env.fields.Keys + rc.Keys + hc.Keys
      && forall k :: k in r ==> r[k] == (if k in hc then hc[k] else if k in rc then rc[k] else env.fields[k])
  {
  }

  /** The envelope, request-context and HTTP keys are pairwise distinct and none is "logger". */
  lemma KeySetsDisjoint()
    ensures EnvelopeKeys !! RequestContextKeys && EnvelopeKeys !! HttpKeys + AddressKeys
    ensures RequestContextKeys !! HttpKeys + AddressKeys
    ensures "logger" !in EnvelopeKeys + RequestContextKeys + HttpKeys + AddressKeys
  {
  }

  /** Writing "logger" and then three key-disjoint maps that avoid "logger" into a tag map. */
  lemma TagsAfterMerge(tags: map<string, string>, logger: string, a: map<string, string>,
                       b: map<string, string>, c: map<string, string>)
    requires a.Keys !! b.Keys && a.Keys !! c.Keys && b.Keys !! c.Keys
    requires "logger" !in a && "logger" !in b && "logger" !in c
    ensures
      var t := tags["logger" := logger] + (a + b + c);
      && t.Keys == tags.Keys + {"logger"} + a.Keys + b.Keys + c.Keys
      && t["logger"] == logger
      && (forall k :: k in a ==> t[k] == a[k])
      && (forall k :: k in b ==> t[k] == b[k])
      && (forall k :: k in c ==> t[k] == c[k])
      && (forall k :: k in tags && k != "logger" && k !in a && k !in b && k !in c ==> t[k] == tags[k])
  {
  }

  /**
   * Process over a batch acts metric by metric: the i-th metric afterwards is the
   * i-th metric as one iteration leaves it, so no metric affects another.
   */
  lemma {:induction false} ProcessedBatchPointwise(p: Plugin, ms: seq<Metric>)
    ensures |ProcessedBatch(p, ms)| == |ms|
    ensures forall i :: 0 <= i < |ms| ==> ProcessedBatch(p, ms)[i] == ProcessedMetric(p, ms[i])
  {
    if ms != [] {
      var init := ms[..|ms| - 1];
      ProcessedBatchPointwise(p, init);
      forall i | 0 <= i < |ms|
        ensures ProcessedBatch(p, ms)[i] == ProcessedMetric(p, ms[i])
      {
        if i < |ms| - 1 {
          assert ProcessedBatch(p, ms)[i] == ProcessedBatch(p, init)[i];
          assert init[i] == ms[i];
        }
      }
    }
  }

  /** A batch in which no metric carries a logger-bearing namespace is left as it was. */
  lemma BatchWithoutLoggersUnchanged(p: Plugin, ms: seq<Metric>)
    requires forall i :: 0 <= i < |ms| ==> GetLoggerInfo(ms[i].namespace).Failure?
    ensures ProcessedBatch(p, ms) == ms
  {
    ProcessedBatchPointwise(p, ms);
    forall i | 0 <= i < |ms|
      ensures ProcessedBatch(p, ms)[i] == ms[i]
    {
      assert GetLoggerInfo(ms[i].namespace).Failure?;
    }
  }

  // ---------------------------------------------------------------------------
  // getLoggerInfo
  // ---------------------------------------------------------------------------

  /**
   * The namespace the log collector gives a metric: intel/logs/<metric_name>/<log_file>/metric,
   * with the two middle elements dynamic.
   */
  function CollectorNamespace(metricName: string, logFile: string): (ns: Namespace)
    ensures |ns| == 5 && WellFormed(ns)
    ensures IsLastDynamic(ns, 3) && ns[3].name == "log_file" && ns[3].value == logFile
  {
    [NamespaceElement("", "intel", false), NamespaceElement("", "logs", false),
     NamespaceElement("metric_name", metricName, true), NamespaceElement("log_file", logFile, true),
     NamespaceElement("", "metric", false)]
  }

  /** The logger is named after the service before the first '-' of the log file's name. */
  lemma LoggerOfServiceLog(metricName: string, service: string, rest: string)
    requires '-' !in service
    ensures GetLoggerInfo(CollectorNamespace(metricName, service + "-" + rest + ".log"))
      == Success("openstack." + service)
    ensures GetLoggerInfo(CollectorNamespace(metricName, service + ".log")) == Success("openstack." + service)
  {
    var file := service + "-" + rest + ".log";
    assert TrimSuffix(file, ".log") == service + "-" + rest by {
      assert file == (service + "-" + rest) + ".log";
    }
    FirstFieldOfJoin(service, '-', rest);
    assert service + "-" + rest == service + ['-'] + rest;
    assert TrimSuffix(service + ".log", ".log") == service by {
      assert (service + ".log")[..|service|] == service;
    }
    FirstFieldNoSep(service, '-');
  }

  /** Without a dynamic "log_file" element there is no logger. */
  lemma LoggerNeedsLogFileElement(metricName: string, logFile: string)
    ensures GetLoggerInfo(CollectorNamespace(metricName, logFile)[3 := NamespaceElement("file", logFile, true)])
      == Failure(NoLogFileElement)
    ensures GetLoggerInfo([NamespaceElement("", "intel", false), NamespaceElement("", "logs", false)])
      == Failure(NoDynamicElement)
  {
    var ns := CollectorNamespace(metricName, logFile)[3 := NamespaceElement("file", logFile, true)];
    assert IsLastDynamic(ns, 3);
  }
}
