/**
  What a batch is, seen from outside: optional metadata, the entries accepted since the
  last reset, and the live invocations; and what each operation of accumulator/batch.go
  does to that state. Class `Batch` refines this.
 */
module BatchSpec {
  import opened ByteStrings
  import opened Invocations

  datatype Error =
    | NoData
    | InvalidEncoding
    | BatchFull
    | NoCurrentInvocation
    | UnknownInvocation
    | MetadataUnavailable
    | InvalidPayload
    | NoTransactionID
    | ProxyFailed

  datatype APMData = APMData(data: Bytes, contentEncoding: string)

  /** `metadata` is empty until it is known. */
  datatype State = State(
    metadata: Bytes,
    entries: seq<Entry>,
    age: Option<int>,
    invocations: map<string, Invocation>,
    current: string,
    platformStart: string)

  const NEW_BATCH := State([], [], None, map[], "", "")

  /** An accepted entry, with where it came from. */
  datatype Entry =
    | AgentLine(data: Bytes)
    | LambdaEntry(data: Bytes)
    | ProxyTxn(reqID: string, data: Bytes)

  datatype Outcome = Outcome(state: State, added: seq<Entry>, err: Option<Error>)

  datatype Config = Config(lib: Library, maxSize: int)

  /** The bytes of the entries, as the buffer holds them. */
  function Data(entries: seq<Entry>): (data: seq<Bytes>)
    ensures |data| == |entries|
  {
    if entries == [] then [] else Data(entries[..|entries| - 1]) + [entries[|entries| - 1].data]
  }

  /** The lines that become entries: those that are not empty. */
  function AgentEntries(lines: seq<Bytes>): seq<Entry> {
    if lines == [] then []
    else if lines[0] == [] then AgentEntries(lines[1..])
    else [AgentLine(lines[0])] + AgentEntries(lines[1..])
  }

  function Failed(s: State, e: Error): Outcome {
    Outcome(s, [], Some(e))
  }

  /** What every reachable batch satisfies. */
  ghost predicate WellFormed(lib: Library, s: State) {
    && NEWLINE !in s.metadata
    && (s.metadata == [] ==> s.entries == [])
    && (s.age.None? <==> s.entries == [])
    && (forall e | e in s.entries :: e.data != [] && (e.AgentLine? ==> NEWLINE !in e.data))
    && (forall k | k in s.invocations :: WellFormedInvocation(lib, k, s.invocations[k]))
  }

  /** An invocation that only the agent has announced has no request id yet. */
  ghost predicate WellFormedInvocation(lib: Library, k: string, inc: Invocation) {
    && (inc.requestID == k || inc.requestID == "")
    && (inc.transactionID == "" ==> !inc.transactionObserved)
    && (inc.transactionID != "" ==> lib.txnIDText(inc.agentPayload) == inc.transactionID)
  }

  // ---------------------------------------------------------------- event types

  datatype EventType = MetadataEvent | TransactionEvent | OtherEvent

  const DOUBLE_QUOTE: Byte := 34
  const SINGLE_QUOTE: Byte := 39
  const TRANSACTION_KEY := Ascii("transaction")
  const METADATA_KEY := Ascii("metadata")

  predicate IsQuote(b: Byte) {
    b == DOUBLE_QUOTE || b == SINGLE_QUOTE
  }

  /** The text from the first quote of `body` to the next quote of the same kind. */
  function FirstKey(body: Bytes): Option<Bytes> {
    if body == [] then None
    else if IsQuote(body[0]) then UpTo(body[1..], body[0])
    else FirstKey(body[1..])
  }

  function UpTo(s: Bytes, quote: Byte): Option<Bytes> {
    if s == [] then None
    else if s[0] == quote then Some([])
    else
      match UpTo(s[1..], quote)
      case None => None
      case Some(text) => Some([s[0]] + text)
  }

  function EventTypeOf(body: Bytes): EventType {
    match FirstKey(body)
    case None => OtherEvent
    case Some(key) =>
      if key == TRANSACTION_KEY then TransactionEvent
      else if key == METADATA_KEY then MetadataEvent
      else OtherEvent
  }

  /** `key` stands between the quotes at `i` and `j`, which are the first to match. */
  ghost predicate FirstKeyAt(body: Bytes, key: Bytes, i: int, j: int) {
    && 0 <= i < j < |body|
    && IsQuote(body[i]) && (forall m | 0 <= m < i :: !IsQuote(body[m]))
    && body[j] == body[i] && (forall m | i < m < j :: body[m] != body[i])
    && body[i + 1..j] == key
  }

  lemma {:induction false} UpToAt(s: Bytes, quote: Byte, j: int)
    requires 0 <= j < |s| && s[j] == quote && forall m | 0 <= m < j :: s[m] != quote
    ensures UpTo(s, quote) == Some(s[..j])
  {
    if j > 0 {
      UpToAt(s[1..], quote, j - 1);
      assert [s[0]] + s[1..][..j - 1] == s[..j];
    }
  }

  lemma {:induction false} UpToNone(s: Bytes, quote: Byte)
    requires quote !in s
    ensures UpTo(s, quote) == None
  {
    if s != [] {
      UpToNone(s[1..], quote);
    }
  }

  lemma {:induction false} FirstKeyFrom(body: Bytes, i: int)
    requires 0 <= i <= |body| && forall m | 0 <= m < i :: !IsQuote(body[m])
    ensures FirstKey(body) == FirstKey(body[i..])
  {
    if i == 0 {
      assert body[0..] == body;
    } else {
      FirstKeyFrom(body[1..], i - 1);
      assert body[1..][i - 1..] == body[i..];
    }
  }

  /** The recursive reading of the first key is the declarative one. */
  lemma {:induction false} FirstKeyIs(body: Bytes, key: Bytes)
    ensures FirstKey(body) == Some(key) <==> exists i, j :: FirstKeyAt(body, key, i, j)
  {
    if i, j :| FirstKeyAt(body, key, i, j) {
      FirstKeyFrom(body, i);
      assert body[i..][1..] == body[i + 1..];
      UpToAt(body[i + 1..], body[i], j - i - 1);
      assert body[i + 1..][..j - i - 1] == body[i + 1..j];
    }
    if FirstKey(body) == Some(key) {
      var i, j := FirstKeyWitness(body, key);
    }
  }

  lemma {:induction false} FirstKeyWitness(body: Bytes, key: Bytes) returns (i: int, j: int)
    requires FirstKey(body) == Some(key)
    ensures FirstKeyAt(body, key, i, j)
  {
    if IsQuote(body[0]) {
      i := 0;
      var m := UpToWitness(body[1..], body[0], key);
      j := m + 1;
      assert forall x | 0 < x < j :: body[x] == body[1..][x - 1];
      assert body[1..j] == body[1..][..m];
    } else {
      var i', j' := FirstKeyWitness(body[1..], key);
      i, j := i' + 1, j' + 1;
      assert forall x | 0 < x < |body| :: body[x] == body[1..][x - 1];
      assert body[i + 1..j] == body[1..][i' + 1..j'];
    }
  }

  lemma {:induction false} UpToWitness(s: Bytes, quote: Byte, text: Bytes) returns (j: int)
    requires UpTo(s, quote) == Some(text)
    ensures 0 <= j < |s| && s[j] == quote && s[..j] == text && forall m | 0 <= m < j :: s[m] != quote
  {
    if s[0] == quote {
      j := 0;
    } else {
      var m := UpToWitness(s[1..], quote, text[1..]);
      j := m + 1;
      assert s[..j] == [s[0]] + s[1..][..m];
    }
  }

  // ---------------------------------------------------------------- operations

  function RegisterInvocation(s: State, reqID: string, arn: string, deadlineMs: int, timestamp: int): Outcome {
    var known := if reqID in s.invocations then s.invocations[reqID] else EMPTY_INVOCATION;
    var inc := known.(requestID := reqID, functionARN := arn, deadlineMs := deadlineMs, timestamp := timestamp);
    Outcome(s.(invocations := s.invocations[reqID := inc], current := reqID), [], None)
  }

  /** What an agent's registration body announces: optional metadata and a partial transaction. */
  datatype Announcement = Announcement(metadata: Bytes, payload: Bytes, transactionID: string)

  datatype ParsedAnnouncement = Rejected(error: Error) | Accepted(registration: Announcement)

  function ParseRegistration(lib: Library, encoding: string, raw: Bytes): ParsedAnnouncement {
    match Uncompress(lib, raw, encoding)
    case None => Rejected(InvalidEncoding)
    case Some(payload) =>
      var kind := EventTypeOf(payload);
      if kind == OtherEvent then
        Rejected(InvalidPayload)
      else
        var (metadata, txn) := if kind == MetadataEvent then Cut(payload) else ([], payload);
        var id := lib.txnIDText(txn);
        if id == "" then Rejected(NoTransactionID) else Accepted(Announcement(metadata, txn, id))
  }

  /** `r` is what `payload` announces: a transaction, with metadata on a line before it if that is the first key. */
  ghost predicate IsRegistration(lib: Library, payload: Bytes, r: Announcement) {
    && r.transactionID != "" && r.transactionID == lib.txnIDText(r.payload)
    && if exists i, j :: FirstKeyAt(payload, METADATA_KEY, i, j) then
         && NEWLINE !in r.metadata
         && (payload == r.metadata + [NEWLINE] + r.payload || (payload == r.metadata && r.payload == []))
       else
         && (exists i, j :: FirstKeyAt(payload, TRANSACTION_KEY, i, j))
         && r.metadata == [] && r.payload == payload
  }

  lemma RegistrationIs(lib: Library, encoding: string, raw: Bytes, r: Announcement)
    ensures ParseRegistration(lib, encoding, raw) == Accepted(r) <==>
      var payload := Uncompress(lib, raw, encoding); payload.Some? && IsRegistration(lib, payload.value, r)
  {
    var payload := Uncompress(lib, raw, encoding);
    if payload.Some? {
      FirstKeyIs(payload.value, METADATA_KEY);
      FirstKeyIs(payload.value, TRANSACTION_KEY);
      assert |METADATA_KEY| != |TRANSACTION_KEY|;
      if NEWLINE !in r.metadata && payload.value == r.metadata + [NEWLINE] + r.payload {
        CutJoined(r.metadata, r.payload);
      }
    }
  }

  function OnAgentInit(lib: Library, s: State, reqID: string, encoding: string, raw: Bytes): Outcome {
    match ParseRegistration(lib, encoding, raw)
    case Rejected(e) => Failed(s, e)
    case Accepted(r) =>
      var known := if reqID in s.invocations then s.invocations[reqID] else EMPTY_INVOCATION;
      var inc := known.(transactionID := r.transactionID, agentPayload := r.payload);
      Outcome(
        s.(metadata := if s.metadata == [] then r.metadata else s.metadata,
           invocations := s.invocations[reqID := inc],
           current := reqID),
        [], None)
  }

  /** `line` is a transaction, and it is the one with this (non-empty) id. */
  predicate ReportsTransaction(lib: Library, line: Bytes, transactionID: string) {
    && EventTypeOf(line) == TransactionEvent
    && lib.txnIDString(line) != ""
    && lib.txnIDString(line) == transactionID
  }

  ghost predicate AnyLineReports(lib: Library, lines: seq<Entry>, transactionID: string) {
    exists e :: e in lines && ReportsTransaction(lib, e.data, transactionID)
  }

  function MetadataAfter(s: State, raw: Bytes): Bytes {
    if s.metadata == [] then Lines(raw)[0] else s.metadata
  }

  /** What a body adds to the batch: its non-empty lines after the first. */
  function BodyEntries(raw: Bytes): seq<Entry> {
    AgentEntries(Lines(raw)[1..])
  }

  /**
    The body of an agent request whose invocation is known. Without metadata the first
    line that would become an entry is refused, but not before it has been looked at.
   */
  ghost function AcceptBody(lib: Library, s: State, raw: Bytes, now: int): Outcome
    requires s.current in s.invocations
  {
    AddLines(lib, s.(metadata := MetadataAfter(s, raw)), BodyEntries(raw), now)
  }

  ghost function AddLines(lib: Library, s: State, lines: seq<Entry>, now: int): Outcome
    requires s.current in s.invocations
  {
    if s.metadata == [] && lines != [] then
      Outcome(Observe(lib, s, lines[..1]), [], Some(MetadataUnavailable))
    else
      Outcome(Append(Observe(lib, s, lines), lines, now), lines, None)
  }

  /** The current invocation's transaction is observed once a line reports it. */
  ghost function Observe(lib: Library, s: State, lines: seq<Entry>): State
    requires s.current in s.invocations
  {
    s.(invocations := Observed(lib, s.invocations, s.current, lines))
  }

  ghost function Observed(
    lib: Library, invocations: map<string, Invocation>, current: string, lines: seq<Entry>): map<string, Invocation>
    requires current in invocations
  {
    var inc := invocations[current];
    if inc.NeedProxyTransaction() && AnyLineReports(lib, lines, inc.transactionID) then
      invocations[current := inc.(transactionObserved := true)]
    else
      invocations
  }

  /** The lines of a body that are looked at, with this metadata: only the first, if it is going to be refused. */
  function LinesSeen(metadata: Bytes, raw: Bytes): seq<Entry> {
    var lines := BodyEntries(raw);
    if metadata == [] && lines != [] then lines[..1] else lines
  }

  function Append(s: State, entries: seq<Entry>, now: int): State {
    s.(entries := s.entries + entries, age := if s.entries == [] && entries != [] then Some(now) else s.age)
  }

  /** The body that AddAgentData goes on to read, or why it refuses to. */
  function AgentBody(cfg: Config, s: State, data: APMData): (r: (Option<Error>, Bytes))
    ensures r.0.None? ==> s.current in s.invocations && |s.entries| < cfg.maxSize
  {
    if data.data == [] then
      (Some(NoData), [])
    else
      match Uncompress(cfg.lib, data.data, data.contentEncoding)
      case None => (Some(InvalidEncoding), [])
      case Some(raw) =>
        if |s.entries| >= cfg.maxSize then (Some(BatchFull), [])
        else if s.current == "" then (Some(NoCurrentInvocation), [])
        else if s.current !in s.invocations then (Some(UnknownInvocation), [])
        else (None, raw)
  }

  ghost function AddAgentData(cfg: Config, s: State, data: APMData, now: int): Outcome {
    var (refused, raw) := AgentBody(cfg, s, data);
    if refused.Some? then Failed(s, refused.value) else AcceptBody(cfg.lib, s, raw, now)
  }

  /** addData: the empty entry is ignored. */
  function AddData(s: State, e: Entry, now: int): Outcome {
    if e.data == [] then Outcome(s, [], None)
    else if s.metadata == [] then Failed(s, MetadataUnavailable)
    else Outcome(Append(s, [e], now), [e], None)
  }

  function AddLambdaData(cfg: Config, s: State, d: Bytes, now: int): Outcome {
    if |s.entries| >= cfg.maxSize then Failed(s, BatchFull) else AddData(s, LambdaEntry(d), now)
  }

  /** finalizeInvocation: an invocation is final only once its proxy, if any, is in the batch. */
  function Finalize(lib: Library, s: State, reqID: string, status: string, endTime: int, now: int): Outcome {
    if reqID !in s.invocations then
      Failed(s, UnknownInvocation)
    else
      var inc := s.invocations[reqID];
      match inc.MaybeCreateProxyTxn(lib, status, endTime)
      case None => Failed(s, ProxyFailed)
      case Some(proxy) =>
        var o := AddData(s, ProxyTxn(reqID, proxy), now);
        if o.err.Some? then o
        else o.(state := o.state.(invocations := s.invocations[reqID := inc.(finalized := true)]))
  }

  function OnPlatformReport(s: State, reqID: string): Outcome {
    if reqID !in s.invocations then Failed(s, UnknownInvocation)
    else Outcome(s.(invocations := s.invocations - {reqID}), [], None)
  }

  /** One turn of the loop in OnShutdown, for the map key `k`; a key already deleted is not visited. */
  function ShutdownOne(lib: Library, s: State, status: string, k: string, now: int): Outcome {
    if k !in s.invocations then
      Outcome(s, [], None)
    else
      var inc := s.invocations[k];
      var o := Finalize(lib, s, inc.requestID, status, inc.deadlineMs * NANOS_PER_MILLI, now);
      if o.err.Some? then o
      else o.(state := o.state.(invocations := o.state.invocations - {inc.requestID}))
  }

  /** OnShutdown, when the map is iterated in this order. */
  function OnShutdown(lib: Library, s: State, status: string, order: seq<string>, now: int): Outcome {
    if order == [] then
      Outcome(s, [], None)
    else
      var before := OnShutdown(lib, s, status, order[..|order| - 1], now);
      if before.err.Some? then
        before
      else
        var last := ShutdownOne(lib, before.state, status, order[|order| - 1], now);
        last.(added := before.added + last.added)
  }

  /** An error ends the loop: the keys after it are not visited. */
  lemma {:induction false} ShutdownStops(
    lib: Library, s: State, status: string, order: seq<string>, rest: seq<string>, now: int)
    requires OnShutdown(lib, s, status, order, now).err.Some?
    ensures OnShutdown(lib, s, status, order + rest, now) == OnShutdown(lib, s, status, order, now)
  {
    if rest == [] {
      assert order + rest == order;
    } else {
      ShutdownStops(lib, s, status, order, rest[..|rest| - 1], now);
      assert (order + rest)[..|order + rest| - 1] == order + rest[..|rest| - 1];
    }
  }

  function Reset(s: State): State {
    s.(entries := [], age := None)
  }

  /** int(float64(maxSize) * 0.9), which truncates. */
  function Threshold(maxSize: int): (t: int)
    ensures maxSize >= 0 ==> 10 * t <= 9 * maxSize < 10 * (t + 1)
    ensures maxSize <= 0 ==> 10 * (t - 1) < 9 * maxSize <= 10 * t
    ensures maxSize >= 1 ==> 0 <= t < maxSize
  {
    if maxSize >= 0 then maxSize * 9 / 10 else -(-maxSize * 9 / 10)
  }

  predicate ShouldShip(maxSize: int, maxAge: int, s: State, now: int) {
    |s.entries| >= Threshold(maxSize) || (s.age.Some? && now - s.age.value > maxAge)
  }

  // ---------------------------------------------------------------- runs

  datatype Op =
    | Register(reqID: string, arn: string, deadlineMs: int, timestamp: int)
    | AgentInit(reqID: string, encoding: string, raw: Bytes)
    | AgentData(data: APMData, now: int)
    | LambdaData(d: Bytes, now: int)
    | RuntimeDone(reqID: string, status: string, endTime: int, now: int)
    | PlatformStart(reqID: string)
    | PlatformReport(reqID: string)
    | Shutdown(status: string, order: seq<string>, now: int)
    | ResetBatch

  ghost function Step(cfg: Config, s: State, op: Op): Outcome {
    match op
    case Register(reqID, arn, deadlineMs, timestamp) => RegisterInvocation(s, reqID, arn, deadlineMs, timestamp)
    case AgentInit(reqID, encoding, raw) => OnAgentInit(cfg.lib, s, reqID, encoding, raw)
    case AgentData(data, now) => AddAgentData(cfg, s, data, now)
    case LambdaData(d, now) => AddLambdaData(cfg, s, d, now)
    case RuntimeDone(reqID, status, endTime, now) => Finalize(cfg.lib, s, reqID, status, endTime, now)
    case PlatformStart(reqID) => Outcome(s.(platformStart := reqID), [], None)
    case PlatformReport(reqID) => OnPlatformReport(s, reqID)
    case Shutdown(status, order, now) => OnShutdown(cfg.lib, s, status, order, now)
    case ResetBatch => Outcome(Reset(s), [], None)
  }

  /** The state after a run of operations, and every entry accepted on the way. */
  datatype RunResult = RunResult(state: State, accepted: seq<Entry>)

  ghost function Run(cfg: Config, s: State, ops: seq<Op>): RunResult {
    if ops == [] then
      RunResult(s, [])
    else
      var before := Run(cfg, s, ops[..|ops| - 1]);
      var o := Step(cfg, before.state, ops[|ops| - 1]);
      RunResult(o.state, before.accepted + o.added)
  }

  // ---------------------------------------------------------------- what operations keep

  /**
    What every operation but a reset does to the buffer: it appends the entries it reports
    as accepted, and it never changes metadata that is already there.
   */
  ghost predicate OnlyAppends(s: State, o: Outcome) {
    && o.state.entries == s.entries + o.added
    && (s.metadata != [] ==> o.state.metadata == s.metadata)
  }

  lemma {:induction false} AgentEntriesMembers(lines: seq<Bytes>)
    ensures forall e :: e in AgentEntries(lines) <==> e.AgentLine? && e.data in lines && e.data != []
  {
    if lines != [] {
      AgentEntriesMembers(lines[1..]);
    }
  }

  lemma DataSnoc(entries: seq<Entry>, e: Entry)
    ensures Data(entries + [e]) == Data(entries) + [e.data]
  {
    assert (entries + [e])[..|entries|] == entries;
  }

  lemma {:induction false} DataConcat(a: seq<Entry>, b: seq<Entry>)
    ensures Data(a + b) == Data(a) + Data(b)
  {
    if b == [] {
      AppendNothing(a);
    } else {
      DataConcat(a, b[..|b| - 1]);
      assert (a + b)[..|a + b| - 1] == a + b[..|b| - 1];
    }
  }

  lemma AddDataKeeps(lib: Library, s: State, e: Entry, now: int)
    requires WellFormed(lib, s) && (e.AgentLine? ==> NEWLINE !in e.data)
    ensures var o := AddData(s, e, now); WellFormed(lib, o.state) && OnlyAppends(s, o)
  {
  }

  lemma FinalizeKeeps(lib: Library, s: State, reqID: string, status: string, endTime: int, now: int)
    requires WellFormed(lib, s)
    ensures var o := Finalize(lib, s, reqID, status, endTime, now);
      WellFormed(lib, o.state) && OnlyAppends(s, o) && o.state.metadata == s.metadata
  {
    if reqID in s.invocations {
      var proxy := s.invocations[reqID].MaybeCreateProxyTxn(lib, status, endTime);
      if proxy.Some? {
        AddDataKeeps(lib, s, ProxyTxn(reqID, proxy.value), now);
      }
    }
  }

  lemma ShutdownOneKeeps(lib: Library, s: State, status: string, k: string, now: int)
    requires WellFormed(lib, s)
    ensures var o := ShutdownOne(lib, s, status, k, now);
      WellFormed(lib, o.state) && OnlyAppends(s, o) && o.state.metadata == s.metadata
  {
    if k in s.invocations {
      var inc := s.invocations[k];
      FinalizeKeeps(lib, s, inc.requestID, status, inc.deadlineMs * NANOS_PER_MILLI, now);
    }
  }

  lemma {:induction false} ShutdownKeeps(lib: Library, s: State, status: string, order: seq<string>, now: int)
    requires WellFormed(lib, s)
    ensures var o := OnShutdown(lib, s, status, order, now);
      WellFormed(lib, o.state) && OnlyAppends(s, o) && o.state.metadata == s.metadata
  {
    if order == [] {
      AppendNothing(s.entries);
    } else {
      var init, k := order[..|order| - 1], order[|order| - 1];
      ShutdownKeeps(lib, s, status, init, now);
      var before := OnShutdown(lib, s, status, init, now);
      if before.err.None? {
        ShutdownOneKeeps(lib, before.state, status, k, now);
        Reassociate(s.entries, before.added, ShutdownOne(lib, before.state, status, k, now).added);
      }
    }
  }

  lemma AgentInitKeeps(lib: Library, s: State, reqID: string, encoding: string, raw: Bytes)
    requires WellFormed(lib, s)
    ensures var o := OnAgentInit(lib, s, reqID, encoding, raw); WellFormed(lib, o.state) && OnlyAppends(s, o)
  {
    var o := OnAgentInit(lib, s, reqID, encoding, raw);
  }

  lemma AcceptBodyKeeps(lib: Library, s: State, raw: Bytes, now: int)
    requires WellFormed(lib, s) && s.current in s.invocations
    ensures var o := AcceptBody(lib, s, raw, now); WellFormed(lib, o.state) && OnlyAppends(s, o)
  {
    var o := AcceptBody(lib, s, raw, now);
    var lines := BodyEntries(raw);
    AgentEntriesMembers(Lines(raw)[1..]);
    LinesNewlineFree(raw);
    var s' := s.(metadata := MetadataAfter(s, raw));
    ObserveKeeps(lib, s', lines);
    ObserveKeeps(lib, s', if lines == [] then [] else lines[..1]);
  }

  lemma ObserveKeeps(lib: Library, s: State, lines: seq<Entry>)
    requires s.current in s.invocations
    requires forall k | k in s.invocations :: WellFormedInvocation(lib, k, s.invocations[k])
    ensures var s' := Observe(lib, s, lines);
      && s'.(invocations := s.invocations) == s
      && forall k | k in s'.invocations :: WellFormedInvocation(lib, k, s'.invocations[k])
  {
  }

  lemma AgentDataKeeps(cfg: Config, s: State, data: APMData, now: int)
    requires WellFormed(cfg.lib, s)
    ensures var o := AddAgentData(cfg, s, data, now); WellFormed(cfg.lib, o.state) && OnlyAppends(s, o)
  {
    var (refused, raw) := AgentBody(cfg, s, data);
    if refused.None? {
      AcceptBodyKeeps(cfg.lib, s, raw, now);
    }
  }

  /** Every operation keeps the batch well-formed, and all but a reset only append. */
  lemma StepKeeps(cfg: Config, s: State, op: Op)
    requires WellFormed(cfg.lib, s)
    ensures WellFormed(cfg.lib, Step(cfg, s, op).state)
    ensures op != ResetBatch ==> OnlyAppends(s, Step(cfg, s, op))
    ensures op == ResetBatch ==> Step(cfg, s, op).state == s.(entries := [], age := None)
  {
    match op
    case AgentInit(reqID, encoding, raw) => AgentInitKeeps(cfg.lib, s, reqID, encoding, raw);
    case RuntimeDone(reqID, status, endTime, now) => FinalizeKeeps(cfg.lib, s, reqID, status, endTime, now);
    case Shutdown(status, order, now) => ShutdownKeeps(cfg.lib, s, status, order, now);
    case AgentData(data, now) => AgentDataKeeps(cfg, s, data, now);
    case LambdaData(d, now) => AddDataKeeps(cfg.lib, s, LambdaEntry(d), now);
    case _ =>
  }

  /** In every reachable state the batch is well-formed. */
  lemma {:induction false} RunKeeps(cfg: Config, s: State, ops: seq<Op>)
    requires WellFormed(cfg.lib, s)
    ensures WellFormed(cfg.lib, Run(cfg, s, ops).state)
    ensures s.metadata != [] ==> Run(cfg, s, ops).state.metadata == s.metadata
  {
    if ops != [] {
      var init := ops[..|ops| - 1];
      RunKeeps(cfg, s, init);
      StepKeeps(cfg, Run(cfg, s, init).state, ops[|ops| - 1]);
    }
  }

  lemma RunSnoc(cfg: Config, s: State, ops: seq<Op>, op: Op)
    ensures var before := Run(cfg, s, ops); var o := Step(cfg, before.state, op);
      Run(cfg, s, ops + [op]) == RunResult(o.state, before.accepted + o.added)
  {
    assert (ops + [op])[..|ops|] == ops;
  }

  /**
    What is shipped reads back: splitting the payload on newlines gives the metadata and
    then the entries in order. Lines that came from an agent never hold a newline; what
    is asked is that log records and proxies do not either.
   */
  lemma PayloadRoundTrip(lib: Library, s: State)
    requires WellFormed(lib, s)
    requires forall e | e in s.entries :: e.AgentLine? || NEWLINE !in e.data
    ensures Lines(Encode(s.metadata, Data(s.entries))) == [s.metadata] + Data(s.entries)
  {
    DataMembers(s.entries);
    LinesOfEncode(s.metadata, Data(s.entries));
  }

  lemma {:induction false} DataMembers(entries: seq<Entry>)
    ensures forall d | d in Data(entries) :: exists e :: e in entries && e.data == d
  {
    if entries != [] {
      DataMembers(entries[..|entries| - 1]);
      assert entries[|entries| - 1] in entries;
    }
  }

  lemma {:induction false} AgentEntriesData(lines: seq<Bytes>)
    requires [] !in lines
    ensures AgentEntries(lines) == seq(|lines|, i requires 0 <= i < |lines| => AgentLine(lines[i]))
  {
    if lines != [] {
      AgentEntriesData(lines[1..]);
    }
  }

  /** A body laid out as a payload is gives its entries back: reading a body is the inverse of writing one. */
  lemma BodyRoundTrip(head: Bytes, lines: seq<Bytes>)
    requires NEWLINE !in head && forall l | l in lines :: l != [] && NEWLINE !in l
    ensures BodyEntries(Encode(head, lines)) == seq(|lines|, i requires 0 <= i < |lines| => AgentLine(lines[i]))
    ensures MetadataAfter(NEW_BATCH, Encode(head, lines)) == head
  {
    LinesOfEncode(head, lines);
    assert ([head] + lines)[1..] == lines;
    AgentEntriesData(lines);
  }

  /**
    On any error AddAgentData appends nothing: the body is taken whole or not at all.
    It can still change two things, and only when the lines reach the batch without metadata.
   */
  lemma AgentDataAllOrNothing(cfg: Config, s: State, data: APMData, now: int)
    requires WellFormed(cfg.lib, s)
    ensures var o := AddAgentData(cfg, s, data, now); var (refused, raw) := AgentBody(cfg, s, data);
      && (o.err.Some? ==> o.added == [] && o.state.entries == s.entries && o.state.age == s.age)
      && (o.err.None? ==> o.state.entries == s.entries + BodyEntries(raw))
      && (o.err.None? <==> refused.None? && (MetadataAfter(s, raw) != [] || BodyEntries(raw) == []))
  {
  }
}
