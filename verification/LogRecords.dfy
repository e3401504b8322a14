/**
  The records that are made of function logs and platform reports
  (logsapi/functionlogs.go, logsapi/metrics.go).
 */
module LogRecords {
  import opened ByteStrings
  import opened Json
  import opened Iteration
  import opened LogModel
  import opened Invocations

  datatype Kind =
    | PlatformStart
    | PlatformRuntimeDone
    | PlatformReport
    | PlatformFault
    | PlatformLogsDropped
    | PlatformEnd
    | FunctionLog
    | UnknownKind

  datatype PlatformMetrics = PlatformMetrics(
    durationMs: Float, billedDurationMs: int, memorySizeMB: int, maxMemoryUsedMB: int, initDurationMs: Float)

  datatype LogEvent = LogEvent(
    time: int, kind: Kind, stringRecord: string, requestID: string, status: string, metrics: PlatformMetrics)

  // ---------------------------------------------------------------- records

  function LogRecord(requestID: string, invokedFnArn: string, event: LogEvent): LogLine {
    LogLine(event.stringRecord, event.time, Some(FAAS(invokedFnArn, requestID)))
  }

  const BYTES_PER_MB := 1024 * 1024

  /** time.Time's UnixMilli. */
  function UnixMilli(nanos: int): (ms: int)
    ensures ms * NANOS_PER_MILLI <= nanos < (ms + 1) * NANOS_PER_MILLI
  {
    nanos / NANOS_PER_MILLI
  }

  /** The function's timeout is a whole number of seconds, so the time to the deadline is rounded up to one. */
  function TimeoutMs(deadlineMs: int, timestamp: int): (ms: int)
    ensures ms % 1000 == 0 && ms - 1000 < deadlineMs - UnixMilli(timestamp) <= ms
  {
    -((UnixMilli(timestamp) - deadlineMs) / 1000) * 1000
  }

  function ReportRecord(functionARN: string, deadlineMs: int, timestamp: int, event: LogEvent): Metrics {
    var m := event.metrics;
    Metrics(
      event.time,
      Some(ExtendedFAAS(functionARN, event.requestID, m.initDurationMs > 0.0)),
      Some(map[
        "system.memory.total" := ToFloat(m.memorySizeMB * BYTES_PER_MB),
        "system.memory.actual.free" := ToFloat((m.memorySizeMB - m.maxMemoryUsedMB) * BYTES_PER_MB),
        "faas.duration" := m.durationMs,
        "faas.billed_duration" := ToFloat(m.billedDurationMs),
        "faas.coldstart_duration" := m.initDurationMs,
        "faas.timeout" := ToFloat(TimeoutMs(deadlineMs, timestamp))]))
  }

  /**
    The reported timeout is the configured one exactly if the event was received within a
    second of the invocation's start, and not before it.
   */
  lemma TimeoutIsConfigured(deadlineMs: int, timestamp: int, seconds: int)
    ensures TimeoutMs(deadlineMs, timestamp) == seconds * 1000
      <==> 0 <= UnixMilli(timestamp) - (deadlineMs - seconds * 1000) < 1000
  {
  }

  /** `b` is well-formed JSON that reads as this log line, to the microsecond. */
  ghost predicate ReadsAsLog(c: Codec, b: Bytes, line: LogLine) {
    var parsed := Parse(c, b);
    && parsed.Some? && parsed.value.1 == []
    && LogContainerOf(parsed.value.0) == LogContainer(Some(line.(timestamp := Rounded(line.timestamp))))
  }

  ghost predicate ReadsAsMetrics(c: Codec, b: Bytes, metrics: Metrics) {
    var parsed := Parse(c, b);
    && parsed.Some? && parsed.value.1 == []
    && MetricsContainerOf(parsed.value.0)
       == MetricsContainer(Some(metrics.(timestamp := Rounded(metrics.timestamp))))
  }

  /** `b` is well-formed JSON that has this message and time, for this request of this function. */
  ghost predicate LogSays(c: Codec, b: Bytes, requestID: string, functionARN: string, event: LogEvent) {
    var parsed := Parse(c, b);
    && parsed.Some? && parsed.value.1 == []
    && var log := In(Some(parsed.value.0), "log");
       && In(In(log, "faas"), "execution") == Written(requestID)
       && In(In(log, "faas"), "id") == Written(functionARN)
       && In(log, "message") == Some(Str(event.stringRecord))
       && TimeIs(In(log, "@timestamp"), event.time)
  }

  lemma LogRecordSays(c: Codec, requestID: string, functionARN: string, event: LogEvent)
    requires Lawful(c)
    ensures
      var line := LogRecord(requestID, functionARN, event);
      LogSays(c, Print(c, LogContainerJson(LogContainer(Some(line)))), requestID, functionARN, event)
  {
    var line := LogRecord(requestID, functionARN, event);
    ContainerAt(c, "log", LogLineJson(line));
    LogLineAt(line);
    FAASAt(line.faas.value);
  }

  /** The sample of this name is this number. */
  ghost predicate SampleIs(samples: Option<Json>, name: string, x: real) {
    var found := In(In(samples, name), "value");
    found.Some? && found.value.Num? && found.value.x == x
  }

  /** The six metrics of the report; the timeout is that of the registered deadline and time. */
  ghost predicate SamplesSay(samples: Option<Json>, deadlineMs: int, timestamp: int, m: PlatformMetrics) {
    && SampleIs(samples, "system.memory.total", (m.memorySizeMB * 1048576) as real)
    && SampleIs(samples, "system.memory.actual.free", ((m.memorySizeMB - m.maxMemoryUsedMB) * 1048576) as real)
    && SampleIs(samples, "faas.duration", m.durationMs)
    && SampleIs(samples, "faas.billed_duration", m.billedDurationMs as real)
    && SampleIs(samples, "faas.coldstart_duration", m.initDurationMs)
    && SampleIs(samples, "faas.timeout", TimeoutMs(deadlineMs, timestamp) as real)
  }

  /** A sample of this record is this number. */
  predicate Has(samples: map<string, Float>, name: string, x: real) {
    name in samples && samples[name] == x
  }

  lemma ReportHas(functionARN: string, deadlineMs: int, timestamp: int, event: LogEvent)
    ensures
      var samples, m := ReportRecord(functionARN, deadlineMs, timestamp, event).samples.value, event.metrics;
      && Has(samples, "system.memory.total", (m.memorySizeMB * 1048576) as real)
      && Has(samples, "system.memory.actual.free", ((m.memorySizeMB - m.maxMemoryUsedMB) * 1048576) as real)
      && Has(samples, "faas.duration", m.durationMs)
      && Has(samples, "faas.billed_duration", m.billedDurationMs as real)
      && Has(samples, "faas.coldstart_duration", m.initDurationMs)
      && Has(samples, "faas.timeout", TimeoutMs(deadlineMs, timestamp) as real)
  {
  }

  lemma SampleSays(samples: map<string, Float>, order: seq<string>, name: string, x: real)
    requires IsIterationOrder(order, samples.Keys) && Has(samples, name, x)
    ensures SampleIs(Some(Obj(EraseMembers(SampleMembers(samples, order)))), name, x)
  {
    SampleAt(samples, order, name);
  }

  lemma ReportSamplesSay(
    samples: map<string, Float>, order: seq<string>,
    functionARN: string, deadlineMs: int, timestamp: int, event: LogEvent)
    requires ReportRecord(functionARN, deadlineMs, timestamp, event).samples == Some(samples)
    requires IsIterationOrder(order, samples.Keys)
    ensures SamplesSay(Some(Obj(EraseMembers(SampleMembers(samples, order)))), deadlineMs, timestamp, event.metrics)
  {
    var m := event.metrics;
    ReportHas(functionARN, deadlineMs, timestamp, event);
    forall name, x | Has(samples, name, x)
      ensures SampleIs(Some(Obj(EraseMembers(SampleMembers(samples, order)))), name, x)
    {
      SampleSays(samples, order, name, x);
    }
  }

  /**
    `b` is well-formed JSON that has the metrics of the report and its time, for its
    request and this function.
   */
  ghost predicate ReportSays(
    c: Codec, b: Bytes, functionARN: string, deadlineMs: int, timestamp: int, event: LogEvent)
  {
    var parsed, m := Parse(c, b), event.metrics;
    && parsed.Some? && parsed.value.1 == []
    && var metricset := In(Some(parsed.value.0), "metricset");
       var faas, samples := In(metricset, "faas"), In(metricset, "samples");
       && In(faas, "execution") == Written(event.requestID)
       && In(faas, "id") == Written(functionARN)
       && In(faas, "coldstart") == Some(Bool(m.initDurationMs > 0.0))
       && TimeIs(In(metricset, "timestamp"), event.time)
       && SamplesSay(samples, deadlineMs, timestamp, m)
  }

  lemma ReportRecordSays(
    c: Codec, functionARN: string, deadlineMs: int, timestamp: int, event: LogEvent, order: seq<string>)
    requires Lawful(c)
    requires SamplesInOrder(ReportRecord(functionARN, deadlineMs, timestamp, event), order)
    ensures
      var metrics := ReportRecord(functionARN, deadlineMs, timestamp, event);
      ReportSays(c, Print(c, MetricsContainerJson(MetricsContainer(Some(metrics)), order)),
                 functionARN, deadlineMs, timestamp, event)
  {
    var metrics := ReportRecord(functionARN, deadlineMs, timestamp, event);
    ContainerAt(c, "metricset", MetricsJson(metrics, order));
    MetricsAt(metrics, order);
    ExtendedFAASAt(metrics.faas.value);
    ReportSamplesSay(metrics.samples.value, order, functionARN, deadlineMs, timestamp, event);
  }

  method ProcessFunctionLog(codec: Codec, requestID: string, invokedFnArn: string, log: LogEvent) returns (b: Bytes)
    requires Lawful(codec)
    ensures LogSays(codec, b, requestID, invokedFnArn, log)
    ensures ReadsAsLog(codec, b, LogRecord(requestID, invokedFnArn, log))
    ensures WritesNoNewline(codec) ==> NEWLINE !in b
  {
    var line := LogRecord(requestID, invokedFnArn, log);
    var jsonWriter := new Writer(codec);
    MarshalLogContainer(LogContainer(Some(line)), jsonWriter);
    b := jsonWriter.buf;
    LogRoundTrip(codec, line);
    LogRecordSays(codec, requestID, invokedFnArn, log);
    assert b == Print(codec, LogContainerJson(LogContainer(Some(line))));
    if WritesNoNewline(codec) {
      PrintIsOneLine(codec, LogContainerJson(LogContainer(Some(line))));
    }
  }

  method ProcessPlatformReport(codec: Codec, functionARN: string, deadlineMs: int, timestamp: int, report: LogEvent)
    returns (b: Bytes)
    requires Lawful(codec)
    ensures ReportSays(codec, b, functionARN, deadlineMs, timestamp, report)
    ensures ReadsAsMetrics(codec, b, ReportRecord(functionARN, deadlineMs, timestamp, report))
    ensures WritesNoNewline(codec) ==> NEWLINE !in b
  {
    var m := report.metrics;
    var faas := ExtendedFAAS(functionARN, report.requestID, m.initDurationMs > 0.0);
    var metrics := Metrics(report.time, Some(faas), None);
    metrics := AddMetric(metrics, "system.memory.total", ToFloat(m.memorySizeMB * BYTES_PER_MB));
    metrics := AddMetric(metrics, "system.memory.actual.free",
                         ToFloat((m.memorySizeMB - m.maxMemoryUsedMB) * BYTES_PER_MB));
    metrics := AddMetric(metrics, "faas.duration", m.durationMs);
    metrics := AddMetric(metrics, "faas.billed_duration", ToFloat(m.billedDurationMs));
    metrics := AddMetric(metrics, "faas.coldstart_duration", m.initDurationMs);
    metrics := AddMetric(metrics, "faas.timeout", ToFloat(TimeoutMs(deadlineMs, timestamp)));
    assert metrics == ReportRecord(functionARN, deadlineMs, timestamp, report);
    var jsonWriter := new Writer(codec);
    ghost var order := MarshalMetricsContainer(MetricsContainer(Some(metrics)), jsonWriter);
    b := jsonWriter.buf;
    MetricsRoundTrip(codec, metrics, order);
    ReportRecordSays(codec, functionARN, deadlineMs, timestamp, report, order);
    assert b == Print(codec, MetricsContainerJson(MetricsContainer(Some(metrics)), order));
    if WritesNoNewline(codec) {
      PrintIsOneLine(codec, MetricsContainerJson(MetricsContainer(Some(metrics)), order));
    }
  }
}
