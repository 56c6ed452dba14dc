# logs-openstack processor, modelled in Dafny

This project models the snap processor plugin `logs-openstack`. The plugin takes metrics whose data is one OpenStack
log record, e.g. `2016-12-07 03:53:55.873 24 INFO nova.osapi_compute.wsgi.server [req-…] …`.
For each such metric it:

- splits the record into a timestamp, a message (the payload) and envelope fields
  (`pid`, `severity_label`, `python_module`, plus a numeric `severity`);
- pulls the request context (`request_id`, `user_id`, `tenant_id`) out of the message;
- pulls the HTTP request context out of the message: method, URL, version, status, size, time and the client/server addresses;
- labels the metric with a logger `openstack.<service>`, taken from the log file's name;
- writes all of this back into the metric: data, timestamp and tags.

Modules:

- `Wrappers`: `Option`, `Result`, and `OrEmpty`, which merges a nil map as an empty one.
- `GoStrings`: the Go library string operations used: `strings.TrimSuffix`, the first element of `strings.Split`, and `%d` formatting.
- `Severity`: the eight-entry severity table and the value stored under `severity`.
- `Fields`:
  - the abstract compiled pattern `Regexp`, i.e. its group names and its `FindStringSubmatch`;
  - `parse` as a method with a loop, proved against the function `ParseOf`;
  - `mergeMaps` as a method with a loop, proved against map union.
- `Patterns`: the group names of the four patterns, and what a submatch vector from each pattern must look like (the pattern's shape, written as predicates). It also proves which fields `parse` produces from such a vector.
- `Processor`: the plugin state and `processOpenstackLog`, `getRequestContext`, `getHTTPRequestContext`, `getLoggerInfo` and `Process`. `processOpenstackLog`, `getRequestContext`, `getHTTPRequestContext` and `Process` (with its loop body) are methods proved equal to specification functions; `getLoggerInfo` and its two helpers have no loop or state and are functions.
- `ProcessorProperties`: what the steps promise, as lemmas over the specification functions.
- `NovaScenarios`: a Nova API record followed through one iteration of `Process`. The submatches RE2 gives for that record are supplied as the matcher's answers.

A compiled pattern is a function from text to `Option<seq<string>>`: `None` is a nil `FindStringSubmatch`, and slot 0 is the whole match. The shape predicates (`LogPattern`, `RequestContextPattern`, `HttpRequestContextPattern`, `HttpRequestAddressesPattern`) state only soundness: any vector the matcher returns fits the pattern's structure. They encode these features of the patterns:

- every pattern is unanchored;
- the date/time separator `[( |T)]` is a character class;
- ids match `\S`, not hex digits;
- the `.` in `\d.\d` and `\d+.\d+` is unescaped, so any character but newline fits;
- `user_id` and `tenant_id` sit in one optional group;
- the server address follows an optional comma.

Properties that need a pattern's shape take it as a precondition. Everything else needs only the group names (`Plugin.HasGroupNames`).

## Model

| member | source | states |
|---|---|---|
| GoStrings.TrimSuffix | processor/processor.go:343 | with the suffix present, the result followed by the suffix is the input; otherwise the input is returned unchanged |
| GoStrings.FirstField | processor/processor.go:346 | the result is a prefix of the input without the separator, and it ends at the first separator or at the end of the input |
| GoStrings.FirstFieldOfJoin | processor/processor.go:346 | when `a` has no separator, the first field of `a + sep + b` is exactly `a` |
| GoStrings.FirstFieldNoSep | processor/processor.go:346 | a text without the separator is its own first field |
| GoStrings.FormatDecimal | processor/processor.go:284 | `%d` of a natural number is a non-empty run of decimal digits with no leading zero (except "0") |
| GoStrings.DecimalRoundTrip | processor/processor.go:284 | reading the formatted digits back yields the number: formatting loses nothing |
| Severity.Label | processor/processor.go:88-97 | every rank 0..7 has a label in the table, and the table maps that label back to the rank |
| Severity.Rank | processor/processor.go:88-97 | the looked-up rank is below 8; a known label is the label of its rank; an unknown label gets Go's zero value 0 |
| Severity.SeverityField | processor/processor.go:283-285 | the stored severity is one decimal digit whose value is the label's rank |
| Severity.RankLabelBijection | processor/processor.go:88-97 | the table is a bijection between the eight labels and the ranks 0..7 |
| Severity.UnknownLabelDefaultsToZero | processor/processor.go:284 | a label outside the table yields "0", the same text as EMERGENCY |
| Severity.KnownSeverities | processor/processor.go:88-97 | INFO gives "6", WARNING "4", ERROR "3", EMERGENCY "0", DEBUG "7" |
| Fields.CapturesStep | processor/processor.go:234-245 | visiting one slot stores its capture exactly when the slot is named, is not slot 0, lies within the match and is non-empty |
| Fields.SkipUnnamed | processor/processor.go:236-238 | a run of unnamed slots adds nothing to the fields |
| Fields.CapturesSpec | processor/processor.go:234-245 | a key is present iff some named, non-zero, non-empty slot carries it; no key or value is empty; with distinct names each value is its slot's capture |
| Fields.ParseSpec | processor/processor.go:226-247 | parse fails exactly when there is no match; on a match the fields are exactly the named non-empty captures, never slot 0, an unnamed group or an empty string |
| Fields.Parse | processor/processor.go:226-247 | the loop over the group names returns what ParseOf specifies (error iff no match, else the named non-empty captures) |
| Fields.MergeMaps | processor/processor.go:353-357 | the result holds the keys of both maps; every source key has the source value; every other destination key keeps its value; it is the union with the source winning |
| Patterns.OccursBounds | processor/processor.go:229 | a match found anywhere in a text is no longer than the text, and its first character occurs in the text |
| Patterns.GroupedBounds | processor/processor.go:59 | a text made of `\S` groups of given widths with optional dashes has at least their total length and holds no white space |
| Patterns.UuidBounds | processor/processor.go:59 | an id of the uuid shape has at least 32 characters and no white space |
| Patterns.TimestampShaped | processor/processor.go:48 | the timestamp group: four, two and two digits with dashes, one character of the class `( \|T)`, three two-digit time parts with colons, then optional `.` and optional digits, with the seven inner groups as its parts |
| Patterns.LogMatch | processor/processor.go:48-49 | an envelope match occurs in the text and is the timestamp, pid digits, a non-space label and a non-space module, separated by single spaces, then the payload; the last group is the payload's last character |
| Patterns.LogPattern | processor/processor.go:48-49 | the compiled envelope pattern has the envelope's group names and returns only envelope matches |
| Patterns.Grouped | processor/processor.go:59 | non-space runs of the given widths, each pair separated by an optional '-' |
| Patterns.UuidShaped | processor/processor.go:59 | the id shape `\S{8}[-]?\S{4}[-]?\S{4}[-]?\S{4}[-]?\S{12}` |
| Patterns.RequestContextMatch | processor/processor.go:59-60 | a request-context match occurs in the text: '[', an optional "req-", an id, optionally a space-separated user and tenant id in one group, then any characters but newline up to ']' |
| Patterns.RequestContextPattern | processor/processor.go:60 | the compiled request-context pattern has its group names and returns only request-context matches |
| Patterns.HttpRequestContextMatch | processor/processor.go:69 | an HTTP match occurs in the text: a quoted "method url HTTP/d.d", then status, size and time, each after an optional label; the dots of the version and time are unescaped, so any character but newline fits |
| Patterns.HttpRequestContextPattern | processor/processor.go:69 | the compiled HTTP pattern has its group names and returns only HTTP matches |
| Patterns.DottedOctets | processor/processor.go:75 | `n` runs of one to three digits separated by '.', four for an address |
| Patterns.HttpRequestAddressesMatch | processor/processor.go:75-76 | an address match occurs in the text: a client address, an optional comma, then an optional server address |
| Patterns.HttpRequestAddressesPattern | processor/processor.go:75-76 | the compiled address pattern has its group names and returns only address matches |
| Patterns.LogCaptures | processor/processor.go:48-49 | parse on an envelope match yields timestamp, pid, severity_label, python_module and payload from their slots, with empty captures dropped |
| Patterns.RequestContextCaptures | processor/processor.go:60 | parse on a request-context match yields request_id, user_id and tenant_id from slots 2, 4 and 5; the "req-" slot is unnamed |
| Patterns.HttpRequestContextCaptures | processor/processor.go:69 | parse on an HTTP match yields the six HTTP fields from their slots; the "status: ", "len: " and "time: " slots are unnamed |
| Patterns.HttpRequestAddressesCaptures | processor/processor.go:76 | parse on an address match yields the client and server addresses; the comma slot is unnamed |
| Processor.ProcessOpenstackLog | processor/processor.go:252-288 | the method (parse, delete, time parse, delete, severity) returns what OpenstackLog specifies; see EnvelopeOutcome for what that is |
| Processor.GetRequestContext | processor/processor.go:292-304 | returns nil when parse fails and the parsed fields otherwise, as RequestContext specifies |
| Processor.GetHTTPRequestContext | processor/processor.go:308-330 | returns nil when the HTTP pattern fails; otherwise the HTTP fields, with the address fields merged in when that pattern matches |
| Processor.LastDynamic | processor/processor.go:334-339 | none exactly when no element is dynamic; otherwise the index of a dynamic element with no dynamic element after it |
| Processor.ServiceName | processor/processor.go:343-346 | the service is the part before the first '-' of the file name with one ".log" removed, and it contains no '-' |
| Processor.GetLoggerInfo | processor/processor.go:333-349 | no dynamic element is an error; when the last dynamic element is named log_file the result is "openstack." + its service; otherwise it is an error |
| Processor.ProcessMetric | processor/processor.go:169-219 | one iteration of the loop yields the metric ProcessedMetric specifies; where the source `continue`s, the metric comes back unchanged |
| Processor.ProcessedBatch | processor/processor.go:168-223 | the batch after Process has as many metrics as before |
| Processor.Process | processor/processor.go:168-223 | returns the same array and a nil error; the array's contents become ProcessedBatch of the old contents, each metric rewritten in place in order |
| ProcessorProperties.EnvelopeOnSuccess | processor/processor.go:259-285 | on success neither "timestamp" nor "payload" is left; the message is the payload capture and is never empty, so Process's `msg != ""` test always holds; the instant is the parsed timestamp; "severity" is added next to the kept label; other fields pass through |
| ProcessorProperties.EnvelopeOutcome | processor/processor.go:252-288 | with the envelope pattern: no match iff "No string match"; "No timestamp" never happens; time-parse failure iff the time text does not parse; "No payload in log" iff the payload capture is empty; success iff the time parses and the payload is non-empty |
| ProcessorProperties.EnvelopeValue | processor/processor.go:264-285 | with the envelope pattern, a success is exactly the parsed timestamp, the payload capture as message, and pid, severity_label, python_module and the label's severity |
| ProcessorProperties.LogFieldsOutcome | processor/processor.go:226-247 | with the envelope pattern, parse succeeds iff it matches, and then yields timestamp, pid, severity_label and python_module, plus payload when its capture is non-empty |
| ProcessorProperties.ShortRecordFails | processor/processor.go:49 | any text shorter than 26 characters, the shortest possible envelope, fails to match |
| ProcessorProperties.EmptyAndInvalidRecordsFail | processor/processor_small_test.go:143-150 | the empty record and "invalid" are rejected |
| ProcessorProperties.WithSeverityOutcome | processor/processor.go:280-285 | with a label, "severity" is added as one digit whose value is the label's table rank (0 for an unknown label) and the label is kept; without a label nothing changes; no other field changes |
| ProcessorProperties.EnvelopeKeysOnly | processor/processor.go:264-285 | the envelope fields are among pid, severity_label, python_module and severity |
| ProcessorProperties.RequestContextOutcome | processor/processor.go:59-60 | with the pattern: nil iff no match; request_id is always present, is the id without the optional "req-" and has the uuid shape; user_id is present iff tenant_id is, and then both come from the optional group |
| ProcessorProperties.ShortTextHasNoRequestContext | processor/processor.go:60 | a message shorter than 34 characters has no request context |
| ProcessorProperties.UnbracketedTextHasNoRequestContext | processor/processor.go:60 | a message without '[' has no request context |
| ProcessorProperties.RequestContextNilExamples | processor/processor_small_test.go:183-191 | "" and "[-]" give a nil request context |
| ProcessorProperties.HttpFieldsOutcome | processor/processor.go:69 | with the HTTP pattern: parse succeeds iff it matches, and then yields only HTTP keys |
| ProcessorProperties.HttpRequestLineFields | processor/processor.go:69 | on an HTTP match, method and version are present with their captures, and http_url is present iff its capture is non-empty |
| ProcessorProperties.HttpStatusFields | processor/processor.go:69 | on an HTTP match, status, response size and response time are present with their captures |
| ProcessorProperties.AddressFieldsOutcome | processor/processor.go:76 | with the address pattern: parse succeeds iff it matches; the client address is then present, and the server address is present iff its capture is non-empty |
| ProcessorProperties.HTTPRequestContextOutcome | processor/processor.go:308-330 | nil iff the HTTP pattern fails, whatever addresses the text holds; with no address match there are no address keys; the server address never appears without the client address |
| ProcessorProperties.HTTPContextNeedsQuote | processor/processor.go:69 | a message without '"' has no HTTP context |
| ProcessorProperties.HTTPContextNilExamples | processor/processor_small_test.go:238-245 | "" and "[-]" give a nil HTTP context |
| ProcessorProperties.RequestContextKeysOnly | processor/processor.go:292-304 | a request context holds only request_id, user_id and tenant_id |
| ProcessorProperties.HTTPContextKeysOnly | processor/processor.go:308-330 | an HTTP context holds only the six HTTP keys and the two address keys |
| ProcessorProperties.ProcessedMetricOutcome | processor/processor.go:169-219 | a metric failing logger info, the string check or the envelope is left as it was; otherwise data is the message, the timestamp the record's, and the tags gain "logger" and every envelope, request and HTTP field with its own value, with other tags kept |
| ProcessorProperties.ExtractedFieldsOrder | processor/processor.go:204-208 | an empty message leaves the envelope fields alone; otherwise the keys are the union of the three maps, and a key's value comes from the HTTP context, else the request context, else the envelope |
| ProcessorProperties.KeySetsDisjoint | processor/processor.go:204-219 | envelope, request-context and HTTP keys are pairwise distinct and none is "logger", so merge order cannot hide a value |
| ProcessorProperties.TagsAfterMerge | processor/processor.go:215-219 | writing "logger" and then disjoint field maps into the tags yields every written value and keeps the untouched tags |
| ProcessorProperties.ProcessedBatchPointwise | processor/processor.go:168-223 | the i-th metric after Process is the i-th metric processed alone, so no metric affects another |
| ProcessorProperties.BatchWithoutLoggersUnchanged | processor/processor.go:168-179 | a batch in which no metric has a log-file logger comes back unchanged |
| ProcessorProperties.CollectorNamespace | processor/processor_medium_test.go:142-158 | the collector's namespace has five elements, is well formed (dynamic exactly when named, static elements unnamed), and its last dynamic element is log_file, holding the file name |
| ProcessorProperties.LoggerOfServiceLog | processor/processor.go:343-348 | "<service>-<rest>.log" and "<service>.log" both give "openstack.<service>" |
| ProcessorProperties.LoggerNeedsLogFileElement | processor/processor.go:335-342 | a last dynamic element with another name is an error, and so is a namespace without a dynamic element |
| NovaScenarios.NovaApiLogger | processor/processor_medium_test.go:196 | nova-api.log gives "openstack.nova" |
| NovaScenarios.NovaLogFields | processor/processor_medium_test.go:211-238 | parse of the record yields its timestamp, pid 24, label INFO, the module and the payload |
| NovaScenarios.NovaEnvelope | processor/processor_medium_test.go:211-238 | the record's envelope is the payload, the parsed instant, pid 24, label INFO with severity "6", and the module |
| NovaScenarios.NovaRequestContext | processor/processor_medium_test.go:211-238 | the payload's request context is its request, user and tenant ids |
| NovaScenarios.NovaHttpContext | processor/processor_medium_test.go:211-238 | the payload's HTTP context is GET, the URL, 1.1, 200, 23011, 0.4711170, and both addresses |
| NovaScenarios.NovaExtractedFields | processor/processor_medium_test.go:211-238 | the fields extracted from the record are the envelope fields, then the request and HTTP contexts |
| NovaScenarios.NovaApiRequestWithHttpContext | processor/processor_medium_test.go:211-238 | the metric's data becomes the payload, its timestamp the record's, and its tags the logger plus the envelope, request and HTTP fields |
| NovaScenarios.StoppedServerHasNoHttpContext | processor/processor_small_test.go:246-249 | a message with only a request context has no HTTP context |

## Left out

- The RE2 engine and its leftmost-first choice of match are not modelled. Each compiled pattern is an abstract matcher. Its shape is stated only as soundness, so properties that need the engine to find a match are not stated. Among them:
  - that a given text does match;
  - where in the text the match starts;
  - how greedy `.*` and `(\n|.)*` are;
  - the multi-line Nova record.
- `time.Parse` with the layout "2006-01-02 15:04:05 MST" and `time.Now().Zone()` are foreign, clock- and zone-dependent calls. They are the plugin's `parseTime` partial function and its `timezone` string.
- `New`, `init` and `GetConfigPolicy` only compile constant patterns or return an empty policy; they are not modelled. `HasGroupNames` and `Compiled` stand for a successful `init`.
- Logging through logrus has no effect on results and is left out, and so are the texts of the Go error values. Errors are datatype constructors.
- Fields.MergeMaps: returns the merged map instead of updating `dst` in place. Every caller owns its `dst`, so no aliasing is lost.
- Processor.Process: tag maps are values. Two metrics sharing one Go tag map, and a nil tag map, on which the source's write panics, are not modelled.
- ProcessorProperties.HTTPRequestContextOutcome: "http_url" is absent when the URL capture is empty. The `.*` URL group can match nothing, and parse drops empty captures. So a match does not always carry six HTTP keys.
- ProcessorProperties.RequestContextOutcome: that request_id excludes "req-" is stated only as far as the shape goes. The prefix sits in its own unnamed group, and the id has the uuid shape. The id text itself could still begin with "req-" if RE2 chose the empty prefix, which only the engine decides.
- Processor.GetLoggerInfo: takes each element's dynamic flag as given. The snap library makes an element dynamic exactly when it has a name; that rule is the predicate `WellFormed`, which the collector's namespace satisfies, but getLoggerInfo does not rely on it.
- Go strings are byte sequences; here text is a sequence of characters. Invalid UTF-8 and its effect on RE2's matches and captures are not modelled.
- The snap library's Metric and Namespace are reduced to what the processor reads and writes. Data is either text or something else. Namespace elements keep a name, a value and a dynamic flag.
