/**
  The records sent for log events (logsapi/model/model.go) and their hand-optimised
  printers (logsapi/model/model_json.go). Each printer appends to a writer; what it
  appends is the text of the record's JSON tree, which reads back as the record.
 */
module LogModel {
  import opened ByteStrings
  import opened Iteration
  import opened Json

  datatype FAAS = FAAS(id: string, execution: string)

  /** Times are nanoseconds; their text is in microseconds. */
  datatype LogLine = LogLine(message: string, timestamp: int, faas: Option<FAAS>)

  datatype LogContainer = LogContainer(log: Option<LogLine>)

  datatype ExtendedFAAS = ExtendedFAAS(id: string, execution: string, coldstart: bool)

  datatype Metrics = Metrics(timestamp: int, faas: Option<ExtendedFAAS>, samples: Option<map<string, Float>>)

  datatype MetricsContainer = MetricsContainer(metrics: Option<Metrics>)

  /** MetricsContainer.Add: the map is made for the first sample. */
  function AddMetric(m: Metrics, name: string, value: Float): Metrics {
    var samples := if m.samples.Some? then m.samples.value else map[];
    m.(samples := Some(samples[name := value]))
  }

  /** Go's integer division truncates toward zero. */
  function Micros(nanos: int): (us: int)
    ensures nanos >= 0 ==> us * 1000 <= nanos < us * 1000 + 1000
    ensures nanos <= 0 ==> us * 1000 - 1000 < nanos <= us * 1000
  {
    if nanos >= 0 then nanos / 1000 else -(-nanos / 1000)
  }

  // ---------------------------------------------------------------- records as trees

  function AddText(ms: Members, k: string, s: string): Members {
    if s == "" then ms else Add(ms, k, Str(s))
  }

  function FAASJson(v: FAAS): Json {
    Obj(AddText(AddText(Done, "execution", v.execution), "id", v.id))
  }

  function LogLineJson(v: LogLine): Json {
    var ms := Add(Add(Done, "@timestamp", Int(Micros(v.timestamp))), "message", Str(v.message));
    Obj(if v.faas.Some? then Add(ms, "faas", FAASJson(v.faas.value)) else ms)
  }

  function LogContainerJson(v: LogContainer): Json {
    Obj(if v.log.Some? then Add(Done, "log", LogLineJson(v.log.value)) else Done)
  }

  function ExtendedFAASJson(v: ExtendedFAAS): Json {
    Obj(AddText(AddText(Add(Done, "coldstart", Bool(v.coldstart)), "execution", v.execution), "id", v.id))
  }

  function MetricJson(x: Float): Json {
    Obj(Add(Done, "value", Num(x)))
  }

  function SampleMembers(samples: map<string, Float>, order: seq<string>): Members
    requires forall k | k in order :: k in samples
  {
    if order == [] then
      Done
    else
      var k := order[|order| - 1];
      Add(SampleMembers(samples, order[..|order| - 1]), k, MetricJson(samples[k]))
  }

  /** `order` is one in which the runtime can iterate the samples. */
  ghost predicate SamplesInOrder(v: Metrics, order: seq<string>) {
    v.samples.Some? ==> IsIterationOrder(order, v.samples.value.Keys)
  }

  function MetricsJson(v: Metrics, order: seq<string>): Json
    requires SamplesInOrder(v, order)
  {
    var ms := Add(Done, "timestamp", Int(Micros(v.timestamp)));
    var ms' := if v.faas.Some? then Add(ms, "faas", ExtendedFAASJson(v.faas.value)) else ms;
    Obj(if v.samples.Some? then Add(ms', "samples", Obj(SampleMembers(v.samples.value, order))) else ms')
  }

  function MetricsContainerJson(v: MetricsContainer, order: seq<string>): Json
    requires v.metrics.Some? ==> SamplesInOrder(v.metrics.value, order)
  {
    Obj(if v.metrics.Some? then Add(Done, "metricset", MetricsJson(v.metrics.value, order)) else Done)
  }

  // ---------------------------------------------------------------- trees as records

  function Member(j: Json, k: string): Option<Json> {
    if j.Obj? then Get(j.members, k) else None
  }

  function TextAt(j: Json, k: string): string {
    match Member(j, k)
    case Some(Str(s)) => s
    case _ => ""
  }

  function NumberAt(j: Json, k: string): Float {
    match Member(j, k)
    case Some(Num(x)) => x
    case _ => ToFloat(0)
  }

  function FAASOf(j: Json): FAAS {
    FAAS(TextAt(j, "id"), TextAt(j, "execution"))
  }

  /** Reading gives the time to the microsecond. */
  function LogLineOf(j: Json): LogLine {
    LogLine(TextAt(j, "message"), NumberAt(j, "@timestamp").Floor * 1000,
            match Member(j, "faas") case None => None case Some(f) => Some(FAASOf(f)))
  }

  function LogContainerOf(j: Json): LogContainer {
    LogContainer(match Member(j, "log") case None => None case Some(l) => Some(LogLineOf(l)))
  }

  function ExtendedFAASOf(j: Json): ExtendedFAAS {
    ExtendedFAAS(TextAt(j, "id"), TextAt(j, "execution"), Member(j, "coldstart") == Some(Bool(true)))
  }

  function SamplesOf(ms: Members): map<string, Float> {
    match ms
    case Done => map[]
    case Field(k, v, rest) => SamplesOf(rest)[k := NumberAt(v, "value")]
  }

  function MetricsOf(j: Json): Metrics {
    Metrics(NumberAt(j, "timestamp").Floor * 1000,
            match Member(j, "faas") case None => None case Some(f) => Some(ExtendedFAASOf(f)),
            match Member(j, "samples") case Some(Obj(ms)) => Some(SamplesOf(ms)) case _ => None)
  }

  function MetricsContainerOf(j: Json): MetricsContainer {
    MetricsContainer(match Member(j, "metricset") case None => None case Some(m) => Some(MetricsOf(m)))
  }

  /** Time to the microsecond, as in the text. */
  function Rounded(t: int): int { Micros(t) * 1000 }

  ghost function Found(before: Option<Json>, same: bool, v: Json): Option<Json> {
    if before.Some? then before else if same then Some(v) else None
  }

  /** What a reader finds among members to which one has been added. */
  lemma Lookup(ms: Members, k: string, v: Json)
    ensures forall x :: Get(EraseMembers(Add(ms, k, v)), x) == Found(Get(EraseMembers(ms), x), x == k, Erase(v))
  {
    EraseAdd(ms, k, v);
    forall x ensures Get(EraseMembers(Add(ms, k, v)), x) == Found(Get(EraseMembers(ms), x), x == k, Erase(v)) {
      GetAdd(EraseMembers(ms), k, Erase(v), x);
    }
  }

  lemma LookupText(ms: Members, k: string, s: string)
    ensures forall x ::
      Get(EraseMembers(AddText(ms, k, s)), x) == Found(Get(EraseMembers(ms), x), x == k && s != "", Str(s))
  {
    if s != "" {
      Lookup(ms, k, Str(s));
    }
  }

  lemma FAASReadBack(v: FAAS)
    ensures FAASOf(Erase(FAASJson(v))) == v
  {
    LookupText(Done, "execution", v.execution);
    LookupText(AddText(Done, "execution", v.execution), "id", v.id);
  }

  lemma LogLineReadBack(v: LogLine)
    ensures LogLineOf(Erase(LogLineJson(v))) == v.(timestamp := Rounded(v.timestamp))
  {
    var time := Add(Done, "@timestamp", Int(Micros(v.timestamp)));
    var message := Add(time, "message", Str(v.message));
    Lookup(Done, "@timestamp", Int(Micros(v.timestamp)));
    Lookup(time, "message", Str(v.message));
    if v.faas.Some? {
      Lookup(message, "faas", FAASJson(v.faas.value));
      FAASReadBack(v.faas.value);
    }
  }

  lemma ExtendedFAASReadBack(v: ExtendedFAAS)
    ensures ExtendedFAASOf(Erase(ExtendedFAASJson(v))) == v
  {
    var cold := Add(Done, "coldstart", Bool(v.coldstart));
    Lookup(Done, "coldstart", Bool(v.coldstart));
    LookupText(cold, "execution", v.execution);
    LookupText(AddText(cold, "execution", v.execution), "id", v.id);
  }

  lemma {:induction false} SamplesOfAdd(ms: Members, k: string, v: Json)
    requires Get(ms, k) == None
    ensures SamplesOf(Add(ms, k, v)) == SamplesOf(ms)[k := NumberAt(v, "value")]
  {
    if ms.Field? {
      SamplesOfAdd(ms.rest, k, v);
    }
  }

  lemma {:induction false} SamplesReadBack(samples: map<string, Float>, order: seq<string>)
    requires forall k | k in order :: k in samples
    requires forall i, j | 0 <= i < j < |order| :: order[i] != order[j]
    ensures SamplesOf(EraseMembers(SampleMembers(samples, order))) == (map k | k in order :: samples[k])
    ensures forall k | k !in order :: Get(EraseMembers(SampleMembers(samples, order)), k) == None
  {
    if order != [] {
      var init, k := order[..|order| - 1], order[|order| - 1];
      SamplesReadBack(samples, init);
      var ms := SampleMembers(samples, init);
      assert k !in init;
      Lookup(ms, k, MetricJson(samples[k]));
      EraseAdd(ms, k, MetricJson(samples[k]));
      SamplesOfAdd(EraseMembers(ms), k, Erase(MetricJson(samples[k])));
      Lookup(Done, "value", Num(samples[k]));
      assert forall x :: x in order <==> x in init || x == k;
    }
  }

  lemma MetricsReadBack(v: Metrics, order: seq<string>)
    requires SamplesInOrder(v, order)
    ensures MetricsOf(Erase(MetricsJson(v, order))) == v.(timestamp := Rounded(v.timestamp))
  {
    var time := Add(Done, "timestamp", Int(Micros(v.timestamp)));
    Lookup(Done, "timestamp", Int(Micros(v.timestamp)));
    var faas := if v.faas.Some? then Add(time, "faas", ExtendedFAASJson(v.faas.value)) else time;
    if v.faas.Some? {
      Lookup(time, "faas", ExtendedFAASJson(v.faas.value));
      ExtendedFAASReadBack(v.faas.value);
    }
    if v.samples.Some? {
      Lookup(faas, "samples", Obj(SampleMembers(v.samples.value, order)));
      SamplesReadBack(v.samples.value, order);
      assert (map k | k in order :: v.samples.value[k]) == v.samples.value;
    }
  }

  /** The text of a log record is well-formed JSON that reads back as the record. */
  lemma LogRoundTrip(c: Codec, v: LogLine)
    requires Lawful(c)
    ensures
      var parsed := Parse(c, Print(c, LogContainerJson(LogContainer(Some(v)))));
      && parsed.Some? && parsed.value.1 == []
      && LogContainerOf(parsed.value.0) == LogContainer(Some(v.(timestamp := Rounded(v.timestamp))))
  {
    var j := LogContainerJson(LogContainer(Some(v)));
    ParsePrint(c, j, []);
    assert Print(c, j) + [] == Print(c, j);
    LogLineReadBack(v);
  }

  /** So does that of a metrics record, whatever order its samples are written in. */
  lemma MetricsRoundTrip(c: Codec, v: Metrics, order: seq<string>)
    requires Lawful(c) && SamplesInOrder(v, order)
    ensures
      var parsed := Parse(c, Print(c, MetricsContainerJson(MetricsContainer(Some(v)), order)));
      && parsed.Some? && parsed.value.1 == []
      && MetricsContainerOf(parsed.value.0) == MetricsContainer(Some(v.(timestamp := Rounded(v.timestamp))))
  {
    var j := MetricsContainerJson(MetricsContainer(Some(v)), order);
    ParsePrint(c, j, []);
    assert Print(c, j) + [] == Print(c, j);
    MetricsReadBack(v, order);
  }

  // ---------------------------------------------------------------- what is at which key

  /** The member with this key, of an object that has been found. */
  function In(found: Option<Json>, k: string): Option<Json> {
    if found.Some? then Member(found.value, k) else None
  }

  /** What is written of a text: nothing if it is empty. */
  function Written(s: string): Option<Json> {
    if s == "" then None else Some(Str(s))
  }

  /** A time that is found is this one, in whole microseconds truncated toward zero. */
  predicate TimeIs(found: Option<Json>, nanos: int) {
    && found.Some? && found.value.Num?
    && var x := found.value.x;
       && x == x.Floor as real
       && (nanos >= 0 ==> x.Floor * 1000 <= nanos < x.Floor * 1000 + 1000)
       && (nanos <= 0 ==> x.Floor * 1000 - 1000 < nanos <= x.Floor * 1000)
  }

  lemma FAASAt(v: FAAS)
    ensures Member(Erase(FAASJson(v)), "execution") == Written(v.execution)
    ensures Member(Erase(FAASJson(v)), "id") == Written(v.id)
  {
    LookupText(Done, "execution", v.execution);
    LookupText(AddText(Done, "execution", v.execution), "id", v.id);
  }

  lemma LogLineAt(v: LogLine)
    requires v.faas.Some?
    ensures
      var j := Erase(LogLineJson(v));
      && TimeIs(Member(j, "@timestamp"), v.timestamp)
      && Member(j, "message") == Some(Str(v.message))
      && Member(j, "faas") == Some(Erase(FAASJson(v.faas.value)))
  {
    var time := Add(Done, "@timestamp", Int(Micros(v.timestamp)));
    var message := Add(time, "message", Str(v.message));
    Lookup(Done, "@timestamp", Int(Micros(v.timestamp)));
    Lookup(time, "message", Str(v.message));
    Lookup(message, "faas", FAASJson(v.faas.value));
  }

  lemma ExtendedFAASAt(v: ExtendedFAAS)
    ensures
      var j := Erase(ExtendedFAASJson(v));
      && Member(j, "execution") == Written(v.execution)
      && Member(j, "id") == Written(v.id)
      && Member(j, "coldstart") == Some(Bool(v.coldstart))
  {
    var cold := Add(Done, "coldstart", Bool(v.coldstart));
    Lookup(Done, "coldstart", Bool(v.coldstart));
    LookupText(cold, "execution", v.execution);
    LookupText(AddText(cold, "execution", v.execution), "id", v.id);
  }

  /** The value of each sample is at its name. */
  lemma {:induction false} SampleAt(samples: map<string, Float>, order: seq<string>, k: string)
    requires forall k | k in order :: k in samples
    ensures Get(EraseMembers(SampleMembers(samples, order)), k)
         == if k in order then Some(Obj(Field("value", Num(samples[k]), Done))) else None
  {
    if order != [] {
      var init, last := order[..|order| - 1], order[|order| - 1];
      SampleAt(samples, init, k);
      Lookup(SampleMembers(samples, init), last, MetricJson(samples[last]));
      EraseAdd(Done, "value", Num(samples[last]));
      assert forall x :: x in order <==> x in init || x == last;
    }
  }

  lemma MetricsAt(v: Metrics, order: seq<string>)
    requires SamplesInOrder(v, order) && v.faas.Some? && v.samples.Some?
    ensures
      var j := Erase(MetricsJson(v, order));
      && TimeIs(Member(j, "timestamp"), v.timestamp)
      && Member(j, "faas") == Some(Erase(ExtendedFAASJson(v.faas.value)))
      && Member(j, "samples") == Some(Obj(EraseMembers(SampleMembers(v.samples.value, order))))
  {
    var time := Add(Done, "timestamp", Int(Micros(v.timestamp)));
    var faas := Add(time, "faas", ExtendedFAASJson(v.faas.value));
    Lookup(Done, "timestamp", Int(Micros(v.timestamp)));
    Lookup(time, "faas", ExtendedFAASJson(v.faas.value));
    Lookup(faas, "samples", Obj(SampleMembers(v.samples.value, order)));
  }

  /** The container has just this one member. */
  lemma ContainerAt(c: Codec, k: string, v: Json)
    requires Lawful(c)
    ensures
      var parsed := Parse(c, Print(c, Obj(Add(Done, k, v))));
      parsed.Some? && parsed.value.1 == [] && Member(parsed.value.0, k) == Some(Erase(v))
  {
    var j := Obj(Add(Done, k, v));
    ParsePrint(c, j, []);
    AppendNothing(Print(c, j));
    Lookup(Done, k, v);
  }

  // ---------------------------------------------------------------- printers

  /** The writer that the printers append to. */
  class Writer {
    const codec: Codec
    var buf: Bytes

    constructor (codec: Codec)
      ensures this.codec == codec && buf == []
    {
      this.codec, buf := codec, [];
    }

    method RawByte(b: Byte)
      modifies this
      ensures buf == old(buf) + [b]
    {
      buf := buf + [b];
    }

    method RawString(s: Bytes)
      modifies this
      ensures buf == old(buf) + s
    {
      buf := buf + s;
    }

    method String(s: string)
      modifies this
      ensures buf == old(buf) + codec.writeString(s)
    {
      buf := buf + codec.writeString(s);
    }

    method Int64(n: int)
      modifies this
      ensures buf == old(buf) + codec.writeInt(n)
    {
      buf := buf + codec.writeInt(n);
    }

    method Float64(x: Float)
      modifies this
      ensures buf == old(buf) + codec.writeFloat(x)
    {
      buf := buf + codec.writeFloat(x);
    }

    method Bool(b: bool)
      modifies this
      ensures buf == old(buf) + if b then TRUE_TEXT else FALSE_TEXT
    {
      buf := buf + if b then TRUE_TEXT else FALSE_TEXT;
    }
  }

  /** A member's key as the printers have it: a constant piece of text. */
  function KeyText(k: string): Bytes
    requires Plain(k)
  {
    [QUOTE] + Ascii(k) + [QUOTE, COLON]
  }

  /** What an object has in the writer before its closing brace. */
  function Begun(c: Codec, before: Bytes, ms: Members): Bytes {
    before + [OPEN] + PrintMembers(c, ms)
  }

  /** Writing a constant key, after a comma unless it is the first, and then a value adds a member. */
  lemma AppendMember(c: Codec, before: Bytes, ms: Members, k: string, v: Json)
    requires Lawful(c) && Plain(k)
    ensures Begun(c, before, Add(ms, k, v))
         == Begun(c, before, ms) + (if ms.Done? then KeyText(k) else [COMMA] + KeyText(k)) + Print(c, v)
  {
    PrintAdd(c, ms, k, v);
    assert c.writeString(k) + [COLON] == KeyText(k) by { assert LawfulPlain(c, k); }
    var open, value := before + [OPEN], Print(c, v);
    if ms.Done? {
      assert [] + [] + (KeyText(k) + value) == KeyText(k) + value && open + [] == open;
      Reassociate(open, KeyText(k), value);
    } else {
      var text := PrintMembers(c, ms);
      Reassociate([COMMA], KeyText(k), value);
      Reassociate(text, [COMMA], KeyText(k) + value);
      Reassociate(open, text, [COMMA] + KeyText(k) + value);
      Reassociate(open + text, [COMMA] + KeyText(k), value);
    }
  }

  lemma OpenObject(c: Codec, before: Bytes)
    ensures before + [OPEN] == Begun(c, before, Done)
  {}

  lemma CloseObject(c: Codec, before: Bytes, ms: Members)
    ensures Begun(c, before, ms) + [CLOSE] == before + Print(c, Obj(ms))
  {}

  /** The key of an optional member: `first` says that no member has been written yet. */
  method RawKey(k: string, first: bool, w: Writer) returns (stillFirst: bool)
    requires Plain(k)
    modifies w
    ensures w.buf == old(w.buf) + (if first then KeyText(k) else [COMMA] + KeyText(k)) && !stillFirst
  {
    if first {
      w.RawString(KeyText(k));
    } else {
      w.RawString([COMMA] + KeyText(k));
    }
    stillFirst := false;
  }

  method MarshalFAAS(v: FAAS, w: Writer)
    requires Lawful(w.codec)
    modifies w
    ensures w.buf == old(w.buf) + Print(w.codec, FAASJson(v))
  {
    ghost var before, ms := w.buf, Done;
    w.RawByte(OPEN);
    OpenObject(w.codec, before);
    var first := true;
    if v.execution != "" {
      AppendMember(w.codec, before, ms, "execution", Str(v.execution));
      first := RawKey("execution", first, w);
      w.String(v.execution);
      ms := Add(ms, "execution", Str(v.execution));
    }
    assert w.buf == Begun(w.codec, before, ms);
    if v.id != "" {
      AppendMember(w.codec, before, ms, "id", Str(v.id));
      first := RawKey("id", first, w);
      w.String(v.id);
      ms := Add(ms, "id", Str(v.id));
    }
    assert w.buf == Begun(w.codec, before, ms);
    CloseObject(w.codec, before, ms);
    w.RawByte(CLOSE);
  }

  method MarshalLogLine(v: LogLine, w: Writer)
    requires Lawful(w.codec)
    modifies w
    ensures w.buf == old(w.buf) + Print(w.codec, LogLineJson(v))
  {
    ghost var before, ms := w.buf, Done;
    w.RawByte(OPEN);
    OpenObject(w.codec, before);
    AppendMember(w.codec, before, ms, "@timestamp", Int(Micros(v.timestamp)));
    w.RawString(KeyText("@timestamp"));
    w.Int64(Micros(v.timestamp));
    ms := Add(ms, "@timestamp", Int(Micros(v.timestamp)));
    assert w.buf == Begun(w.codec, before, ms);
    AppendMember(w.codec, before, ms, "message", Str(v.message));
    w.RawString([COMMA] + KeyText("message"));
    w.String(v.message);
    ms := Add(ms, "message", Str(v.message));
    assert w.buf == Begun(w.codec, before, ms);
    if v.faas.Some? {
      AppendMember(w.codec, before, ms, "faas", FAASJson(v.faas.value));
      w.RawString([COMMA] + KeyText("faas"));
      MarshalFAAS(v.faas.value, w);
      ms := Add(ms, "faas", FAASJson(v.faas.value));
    }
    assert w.buf == Begun(w.codec, before, ms);
    CloseObject(w.codec, before, ms);
    w.RawByte(CLOSE);
  }

  method MarshalLogContainer(v: LogContainer, w: Writer)
    requires Lawful(w.codec)
    modifies w
    ensures w.buf == old(w.buf) + Print(w.codec, LogContainerJson(v))
  {
    ghost var before, ms := w.buf, Done;
    w.RawByte(OPEN);
    OpenObject(w.codec, before);
    if v.log.Some? {
      AppendMember(w.codec, before, ms, "log", LogLineJson(v.log.value));
      w.RawString(KeyText("log"));
      MarshalLogLine(v.log.value, w);
      ms := Add(ms, "log", LogLineJson(v.log.value));
    }
    assert w.buf == Begun(w.codec, before, ms);
    CloseObject(w.codec, before, ms);
    w.RawByte(CLOSE);
  }

  method MarshalExtendedFAAS(v: ExtendedFAAS, w: Writer)
    requires Lawful(w.codec)
    modifies w
    ensures w.buf == old(w.buf) + Print(w.codec, ExtendedFAASJson(v))
  {
    ghost var before, ms := w.buf, Done;
    w.RawByte(OPEN);
    OpenObject(w.codec, before);
    AppendMember(w.codec, before, ms, "coldstart", Json.Bool(v.coldstart));
    w.RawString(KeyText("coldstart"));
    w.Bool(v.coldstart);
    ms := Add(ms, "coldstart", Json.Bool(v.coldstart));
    assert w.buf == Begun(w.codec, before, ms);
    if v.execution != "" {
      AppendMember(w.codec, before, ms, "execution", Str(v.execution));
      w.RawString([COMMA] + KeyText("execution"));
      w.String(v.execution);
      ms := Add(ms, "execution", Str(v.execution));
    }
    assert w.buf == Begun(w.codec, before, ms);
    if v.id != "" {
      AppendMember(w.codec, before, ms, "id", Str(v.id));
      w.RawString([COMMA] + KeyText("id"));
      w.String(v.id);
      ms := Add(ms, "id", Str(v.id));
    }
    assert w.buf == Begun(w.codec, before, ms);
    CloseObject(w.codec, before, ms);
    w.RawByte(CLOSE);
  }

  method MarshalMetric(x: Float, w: Writer)
    requires Lawful(w.codec)
    modifies w
    ensures w.buf == old(w.buf) + Print(w.codec, MetricJson(x))
  {
    ghost var before, ms := w.buf, Add(Done, "value", Num(x));
    AppendMember(w.codec, before, Done, "value", Num(x));
    w.RawByte(OPEN);
    OpenObject(w.codec, before);
    w.RawString(KeyText("value"));
    w.Float64(x);
    CloseObject(w.codec, before, ms);
    w.RawByte(CLOSE);
  }

  /** The samples object; the runtime picks the order of the keys. */
  method MarshalSamples(samples: map<string, Float>, w: Writer) returns (ghost order: seq<string>)
    requires Lawful(w.codec)
    modifies w
    ensures IsIterationOrder(order, samples.Keys)
    ensures w.buf == old(w.buf) + Print(w.codec, Obj(SampleMembers(samples, order)))
  {
    ghost var before, ms := w.buf, Done;
    order := [];
    w.RawByte(OPEN);
    OpenObject(w.codec, before);
    var first, todo := true, samples.Keys;
    while todo != {}
      invariant Visited(order, samples.Keys, todo)
      invariant ms == SampleMembers(samples, order) && w.buf == Begun(w.codec, before, ms)
      invariant first <==> ms.Done?
      decreases |todo|
    {
      var k :| k in todo;
      todo := todo - {k};
      SampleMembersSnoc(samples, order, k);
      VisitOne(order, samples.Keys, todo, k);
      AppendSample(w.codec, before, ms, k, samples[k]);
      if first {
        first := false;
      } else {
        w.RawByte(COMMA);
      }
      w.String(k);
      w.RawByte(COLON);
      MarshalMetric(samples[k], w);
      order, ms := order + [k], Add(ms, k, MetricJson(samples[k]));
    }
    VisitNone(order, samples.Keys);
    CloseObject(w.codec, before, ms);
    w.RawByte(CLOSE);
  }

  lemma SampleMembersSnoc(samples: map<string, Float>, order: seq<string>, k: string)
    requires k in samples && forall x | x in order :: x in samples
    ensures SampleMembers(samples, order + [k]) == Add(SampleMembers(samples, order), k, MetricJson(samples[k]))
  {
    assert (order + [k])[..|order|] == order;
  }

  lemma AppendSample(c: Codec, before: Bytes, ms: Members, k: string, x: Float)
    ensures Begun(c, before, Add(ms, k, MetricJson(x)))
         == (if ms.Done? then Begun(c, before, ms) else Begun(c, before, ms) + [COMMA])
            + c.writeString(k) + [COLON] + Print(c, MetricJson(x))
  {
    PrintAdd(c, ms, k, MetricJson(x));
  }

  method MarshalMetrics(v: Metrics, w: Writer) returns (ghost order: seq<string>)
    requires Lawful(w.codec)
    modifies w
    ensures SamplesInOrder(v, order) && w.buf == old(w.buf) + Print(w.codec, MetricsJson(v, order))
  {
    ghost var before, ms := w.buf, Done;
    order := [];
    w.RawByte(OPEN);
    OpenObject(w.codec, before);
    AppendMember(w.codec, before, ms, "timestamp", Int(Micros(v.timestamp)));
    w.RawString(KeyText("timestamp"));
    w.Int64(Micros(v.timestamp));
    ms := Add(ms, "timestamp", Int(Micros(v.timestamp)));
    assert w.buf == Begun(w.codec, before, ms);
    if v.faas.Some? {
      AppendMember(w.codec, before, ms, "faas", ExtendedFAASJson(v.faas.value));
      w.RawString([COMMA] + KeyText("faas"));
      MarshalExtendedFAAS(v.faas.value, w);
      ms := Add(ms, "faas", ExtendedFAASJson(v.faas.value));
    }
    assert w.buf == Begun(w.codec, before, ms);
    if v.samples.Some? {
      w.RawString([COMMA] + KeyText("samples"));
      order := MarshalSamples(v.samples.value, w);
      AppendMember(w.codec, before, ms, "samples", Obj(SampleMembers(v.samples.value, order)));
      ms := Add(ms, "samples", Obj(SampleMembers(v.samples.value, order)));
    }
    assert w.buf == Begun(w.codec, before, ms);
    CloseObject(w.codec, before, ms);
    w.RawByte(CLOSE);
  }

  method MarshalMetricsContainer(v: MetricsContainer, w: Writer) returns (ghost order: seq<string>)
    requires Lawful(w.codec)
    modifies w
    ensures v.metrics.Some? ==> SamplesInOrder(v.metrics.value, order)
    ensures w.buf == old(w.buf) + Print(w.codec, MetricsContainerJson(v, order))
  {
    ghost var before, ms := w.buf, Done;
    order := [];
    w.RawByte(OPEN);
    OpenObject(w.codec, before);
    if v.metrics.Some? {
      w.RawString(KeyText("metricset"));
      order := MarshalMetrics(v.metrics.value, w);
      AppendMember(w.codec, before, ms, "metricset", MetricsJson(v.metrics.value, order));
      ms := Add(ms, "metricset", MetricsJson(v.metrics.value, order));
    }
    assert w.buf == Begun(w.codec, before, ms);
    CloseObject(w.codec, before, ms);
    w.RawByte(CLOSE);
  }
}
