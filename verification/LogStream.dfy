/**
  The consumer of the Lambda log stream (logsapi/event.go).
 */
module LogStream {
  import opened ByteStrings
  import opened Json
  import opened LogRecords
  import opened Invocations
  import opened Clients
  import opened Forwarding
  import opened ProxyDescription
  import Spec = BatchSpec

  // ---------------------------------------------------------------- streams of events

  /** An event that was consumed, the record made of it, the function it was attributed to, and the time. */
  datatype Effect = Effect(event: LogEvent, output: Option<Bytes>, arn: string, clock: int)

  function Events(effects: seq<Effect>): (events: seq<LogEvent>)
    ensures |events| == |effects|
  {
    seq(|effects|, i requires 0 <= i < |effects| => effects[i].event)
  }

  /** The request id of the last platform.start among these, or none. */
  function LatestStart(effects: seq<Effect>): string {
    if effects == [] then ""
    else if effects[|effects| - 1].event.kind == PlatformStart then effects[|effects| - 1].event.requestID
    else LatestStart(effects[..|effects| - 1])
  }

  function Reported(effects: seq<Effect>): set<string> {
    set i | 0 <= i < |effects| && effects[i].event.kind == PlatformReport :: effects[i].event.requestID
  }

  /** The records among these, in order. */
  function Records(effects: seq<Effect>): seq<Bytes> {
    if effects == [] then
      []
    else
      Records(effects[..|effects| - 1]) + Record(effects[|effects| - 1])
  }

  function Record(e: Effect): seq<Bytes> {
    if e.output.Some? then [e.output.value] else []
  }

  /** What ends the processing: for INVOKE its own runtimeDone, for SHUTDOWN the last report that was awaited. */
  predicate IsLast(effects: seq<Effect>, i: nat, requestID: string, isShutdown: bool, awaited: set<string>)
    requires i < |effects|
  {
    var e := effects[i].event;
    if isShutdown then e.kind == PlatformReport && awaited <= Reported(effects[..i + 1])
    else e.kind == PlatformRuntimeDone && e.requestID == requestID
  }

  /** The last of these has ended the processing if it has finished, and no other has. */
  ghost predicate EndedWith(
    awaited: set<string>, effects: seq<Effect>, requestID: string, isShutdown: bool, finished: bool)
  {
    && (forall i | 0 <= i < |effects| ::
          IsLast(effects, i, requestID, isShutdown, awaited) <==> finished && i == |effects| - 1)
    && (finished ==> effects != [])
  }

  lemma LatestStartSnoc(effects: seq<Effect>, e: Effect)
    ensures LatestStart(effects + [e])
         == if e.event.kind == PlatformStart then e.event.requestID else LatestStart(effects)
  {
    assert (effects + [e])[..|effects|] == effects;
  }

  lemma RecordsSnoc(effects: seq<Effect>, e: Effect)
    ensures Records(effects + [e]) == Records(effects) + Record(e)
  {
    assert (effects + [e])[..|effects|] == effects;
  }

  lemma ReportedSnoc(effects: seq<Effect>, e: Effect)
    ensures Reported(effects + [e])
         == Reported(effects) + if e.event.kind == PlatformReport then {e.event.requestID} else {}
  {
    var more := effects + [e];
    forall id | id in Reported(effects) ensures id in Reported(more) {
      var i :| 0 <= i < |effects| && effects[i].event.kind == PlatformReport && effects[i].event.requestID == id;
      assert more[i] == effects[i];
    }
    if e.event.kind == PlatformReport {
      assert more[|effects|] == e;
    }
  }

  /** Whether an event is the last one depends on the events up to it only. */
  lemma EndedWithNext(
    before: seq<Effect>, e: Effect, requestID: string, isShutdown: bool, awaited: set<string>, finished: bool)
    requires EndedWith(awaited, before, requestID, isShutdown, false)
    requires finished <==>
      if isShutdown then e.event.kind == PlatformReport && awaited - Reported(before + [e]) == {}
      else e.event.kind == PlatformRuntimeDone && e.event.requestID == requestID
    ensures EndedWith(awaited, before + [e], requestID, isShutdown, finished)
  {
    var taken := before + [e];
    assert taken[..|taken|] == taken;
    assert awaited - Reported(taken) == {} <==> awaited <= Reported(taken) by {
      assert forall id :: id in awaited - Reported(taken) <==> id in awaited && id !in Reported(taken);
    }
    forall i | 0 <= i < |before| ensures !IsLast(taken, i, requestID, isShutdown, awaited) {
      assert taken[..i + 1] == before[..i + 1];
      assert !IsLast(before, i, requestID, isShutdown, awaited);
    }
  }

  /**
    Each function log was forwarded under the request id of the latest platform.start that
    was consumed before it, in whatever call, and for the function of the call it was consumed by.
   */
  ghost predicate Attributed(codec: Codec, history: seq<Effect>) {
    forall i | 0 <= i < |history| && history[i].event.kind == FunctionLog ::
      AttributedTo(codec, history[i], LatestStart(history[..i]))
  }

  ghost predicate AttributedTo(codec: Codec, e: Effect, requestID: string) {
    e.output.Some? && LogSays(codec, e.output.value, requestID, e.arn, e.event)
  }

  /** The report of a known invocation makes a record with what was registered for it; another makes none. */
  ghost predicate ReportedAs(
    codec: Codec, invocations: map<string, Invocation>, event: LogEvent, record: Option<Bytes>)
  {
    if event.requestID in invocations then
      var inc := invocations[event.requestID];
      record.Some? && ReportSays(codec, record.value, inc.functionARN, inc.deadlineMs, inc.timestamp, event)
    else
      record.None?
  }

  lemma AttributedNext(codec: Codec, history: seq<Effect>, e: Effect)
    requires Attributed(codec, history)
    requires e.event.kind == FunctionLog ==> AttributedTo(codec, e, LatestStart(history))
    ensures Attributed(codec, history + [e])
  {
    var more := history + [e];
    forall i | 0 <= i < |more| && more[i].event.kind == FunctionLog
      ensures AttributedTo(codec, more[i], LatestStart(more[..i]))
    {
      if i < |history| {
        assert more[..i] == history[..i] && more[i] == history[i];
      } else {
        assert more[..i] == history;
      }
    }
  }

  // ---------------------------------------------------------------- what events do

  /** Where forwarded records go: the queue of the forwarder, or straight to the batch. */
  datatype Destination = Enqueue | Direct

  /** The batch, and all that it has ever accepted. */
  datatype Reached = Reached(state: Spec.State, accepted: seq<Spec.Entry>)

  /** The batch is notified that an invocation has started, is done, or is over. */
  function Notified(lib: Library, s: Spec.State, event: LogEvent, now: int): Spec.Outcome {
    match event.kind
    case PlatformStart => Spec.Outcome(s.(platformStart := event.requestID), [], None)
    case PlatformRuntimeDone => Spec.Finalize(lib, s, event.requestID, event.status, event.time, now)
    case PlatformReport => Spec.OnPlatformReport(s, event.requestID)
    case _ => Spec.Outcome(s, [], None)
  }

  predicate MakesRecord(s: Spec.State, event: LogEvent) {
    event.kind == FunctionLog || (event.kind == PlatformReport && event.requestID in s.invocations)
  }

  /** The batch after a record has been added and, if it is due, the batch shipped. */
  function Fed(cfg: Spec.Config, maxAge: int, before: Reached, record: Bytes, now: int): Reached {
    var o := Spec.AddLambdaData(cfg, before.state, record, now);
    Reached(Ship(cfg.maxSize, maxAge, o.state, now), before.accepted + o.added)
  }

  function Handled(cfg: Spec.Config, maxAge: int, forwardFn: Destination, before: Reached, e: Effect): Reached {
    var o := Notified(cfg.lib, before.state, e.event, e.clock);
    var notified := Reached(o.state, before.accepted + o.added);
    if forwardFn == Direct && e.output.Some? then Fed(cfg, maxAge, notified, e.output.value, e.clock) else notified
  }

  function HandledAll(
    cfg: Spec.Config, maxAge: int, forwardFn: Destination, before: Reached, effects: seq<Effect>): Reached
  {
    if effects == [] then
      before
    else
      var init := HandledAll(cfg, maxAge, forwardFn, before, effects[..|effects| - 1]);
      Handled(cfg, maxAge, forwardFn, init, effects[|effects| - 1])
  }

  lemma HandledAllSnoc(
    cfg: Spec.Config, maxAge: int, forwardFn: Destination, before: Reached, effects: seq<Effect>, e: Effect)
    ensures HandledAll(cfg, maxAge, forwardFn, before, effects + [e])
         == Handled(cfg, maxAge, forwardFn, HandledAll(cfg, maxAge, forwardFn, before, effects), e)
  {
    assert (effects + [e])[..|effects|] == effects;
  }

  /** A runtimeDone for which a proxy is due makes one that has the status and the time of the event. */
  lemma NotifiedDescribes(lib: Library, s: Spec.State, event: LogEvent, now: int)
    requires Laws(lib) && Spec.WellFormed(lib, s) && s.metadata != [] && event.kind == PlatformRuntimeDone
    requires event.requestID in s.invocations && s.invocations[event.requestID].NeedProxyTransaction()
    ensures
      var added := Notified(lib, s, event, now).added;
      && |added| == 1
      && Describes(lib, added[0], event.requestID, s.invocations[event.requestID], event.status, event.time)
  {
    ProxyDescribes(lib, event.requestID, s.invocations[event.requestID], event.status, event.time);
  }

  // ---------------------------------------------------------------- records that go straight to the batch

  function LambdaRecords(entries: seq<Spec.Entry>): seq<Bytes> {
    if entries == [] then
      []
    else
      var e := entries[|entries| - 1];
      LambdaRecords(entries[..|entries| - 1]) + if e.LambdaEntry? then [e.data] else []
  }

  lemma LambdaRecordsSnoc(entries: seq<Spec.Entry>, e: Spec.Entry)
    ensures LambdaRecords(entries + [e]) == LambdaRecords(entries) + if e.LambdaEntry? then [e.data] else []
  {
    assert (entries + [e])[..|entries|] == entries;
  }

  function Dones(effects: seq<Effect>): nat {
    if effects == [] then 0
    else Dones(effects[..|effects| - 1]) + if effects[|effects| - 1].event.kind == PlatformRuntimeDone then 1 else 0
  }

  /** The most entries that are in the batch after a record has been forwarded, or at first. */
  function Level(maxSize: int, entries: nat): nat {
    var t := Spec.Threshold(maxSize);
    if entries >= t then entries else t - 1
  }

  lemma NotifiedAdds(lib: Library, s: Spec.State, event: LogEvent, now: int)
    ensures
      var o := Notified(lib, s, event, now);
      && o.state.metadata == s.metadata
      && |o.state.entries| <= |s.entries| + (if event.kind == PlatformRuntimeDone then 1 else 0)
      && (o.added == [] || (|o.added| == 1 && o.added[0].ProxyTxn?))
  {
  }

  lemma AtMostAProxy(accepted: seq<Spec.Entry>, added: seq<Spec.Entry>)
    requires added == [] || (|added| == 1 && added[0].ProxyTxn?)
    ensures LambdaRecords(accepted + added) == LambdaRecords(accepted)
  {
    if added == [] {
      AppendNothing(accepted);
    } else {
      assert added == [added[0]];
      LambdaRecordsSnoc(accepted, added[0]);
    }
  }

  lemma FedTakes(cfg: Spec.Config, maxAge: int, before: Reached, record: Bytes, now: int)
    requires record != []
    ensures
      var after := Fed(cfg, maxAge, before, record, now);
      && after.accepted == before.accepted
         + (if |before.state.entries| < cfg.maxSize && before.state.metadata != []
            then [Spec.LambdaEntry(record)] else [])
      && after.state.metadata == before.state.metadata
      && (after.state.entries == [] || |after.state.entries| < Spec.Threshold(cfg.maxSize))
  {
  }

  lemma HandledTakes(cfg: Spec.Config, maxAge: int, before: Reached, e: Effect, level: nat)
    requires before.state.metadata != [] && |before.state.entries| <= level
    requires Level(cfg.maxSize, 0) <= level && cfg.maxSize >= 1
    requires level + (if e.event.kind == PlatformRuntimeDone then 1 else 0) < cfg.maxSize && e.output != Some([])
    ensures
      var after := Handled(cfg, maxAge, Direct, before, e);
      && after.state.metadata != []
      && |after.state.entries| <= level + (if e.event.kind == PlatformRuntimeDone then 1 else 0)
      && LambdaRecords(after.accepted) == LambdaRecords(before.accepted) + Record(e)
  {
    var o := Notified(cfg.lib, before.state, e.event, e.clock);
    var notified := Reached(o.state, before.accepted + o.added);
    NotifiedAdds(cfg.lib, before.state, e.event, e.clock);
    AtMostAProxy(before.accepted, o.added);
    if e.output.Some? {
      FedTakes(cfg, maxAge, notified, e.output.value, e.clock);
      LambdaRecordsSnoc(notified.accepted, Spec.LambdaEntry(e.output.value));
    }
  }

  /**
    What FlushData does with its records: with metadata, and room for the proxies of the
    invocations that end among the events, every record is accepted, in order.
   */
  lemma {:induction false} FlushedRecordsAccepted(cfg: Spec.Config, maxAge: int, before: Reached, effects: seq<Effect>)
    requires before.state.metadata != [] && cfg.maxSize >= 1
    requires Level(cfg.maxSize, |before.state.entries|) + Dones(effects) < cfg.maxSize
    requires forall e | e in effects :: e.output != Some([])
    ensures
      var after := HandledAll(cfg, maxAge, Direct, before, effects);
      && after.state.metadata != []
      && |after.state.entries| <= Level(cfg.maxSize, |before.state.entries|) + Dones(effects)
      && LambdaRecords(after.accepted) == LambdaRecords(before.accepted) + Records(effects)
  {
    if effects == [] {
      AppendNothing(LambdaRecords(before.accepted));
    } else {
      var init, e := effects[..|effects| - 1], effects[|effects| - 1];
      FlushedRecordsAccepted(cfg, maxAge, before, init);
      var mid := HandledAll(cfg, maxAge, Direct, before, init);
      HandledTakes(cfg, maxAge, mid, e, Level(cfg.maxSize, |before.state.entries|) + Dones(init));
      Reassociate(LambdaRecords(before.accepted), Records(init), Record(e));
    }
  }

  // ---------------------------------------------------------------- what has been consumed

  /** The call that consumes events. */
  datatype Call = Call(requestID: string, arn: string, forwardFn: Destination, isShutdown: bool)

  /** All that was ever consumed, the events to come, and what the consumer can change of the client. */
  datatype Stream = Stream(
    history: seq<Effect>, channel: seq<LogEvent>, reached: Reached,
    agentQueue: seq<Spec.APMData>, lambdaQueue: seq<Bytes>)
  {
    function Live(): set<string> {
      reached.state.invocations.Keys
    }
  }

  /** One event has been handled; `last` says that no further one is to be expected. */
  ghost predicate ConsumedOne(
    cfg: Spec.Config, maxAge: int, call: Call, before: Stream, e: Effect, last: bool, now: Stream)
  {
    && e.arn == call.arn && (e.output.Some? <==> MakesRecord(before.reached.state, e.event))
    && now.history == before.history + [e]
    && now.reached == Handled(cfg, maxAge, call.forwardFn, before.reached, e)
    && before.reached.accepted <= now.reached.accepted
    && now.Live() == before.Live() - (if e.event.kind == PlatformReport then {e.event.requestID} else {})
    && now.agentQueue == before.agentQueue
    && now.lambdaQueue == before.lambdaQueue + (if call.forwardFn == Enqueue then Record(e) else [])
    && (last <==> if call.isShutdown then e.event.kind == PlatformReport && now.Live() == {}
                  else e.event.kind == PlatformRuntimeDone && e.event.requestID == call.requestID)
  }

  /** What a call has consumed between `begun` and `now`, and all that this has done. */
  ghost predicate Consumed(
    cfg: Spec.Config, maxAge: int, call: Call, begun: Stream, effects: seq<Effect>, finished: bool, now: Stream)
  {
    && (forall e | e in effects :: e.arn == call.arn)
    && now.history == begun.history + effects
    && begun.channel == Events(effects) + now.channel
    && now.reached == HandledAll(cfg, maxAge, call.forwardFn, begun.reached, effects)
    && begun.reached.accepted <= now.reached.accepted
    && now.Live() == begun.Live() - Reported(effects)
    && now.agentQueue == begun.agentQueue
    && now.lambdaQueue == begun.lambdaQueue + (if call.forwardFn == Enqueue then Records(effects) else [])
    && EndedWith(begun.Live(), effects, call.requestID, call.isShutdown, finished)
  }

  lemma ConsumedNothing(cfg: Spec.Config, maxAge: int, call: Call, begun: Stream)
    ensures Consumed(cfg, maxAge, call, begun, [], false, begun)
  {
    AppendNothing(begun.history);
    AppendNothing(begun.lambdaQueue);
    assert Events([]) + begun.channel == begun.channel;
    assert begun.Live() - Reported([]) == begun.Live();
  }

  lemma ConsumedNext(
    cfg: Spec.Config, maxAge: int, call: Call, begun: Stream, effects: seq<Effect>, before: Stream, e: Effect,
    last: bool, now: Stream)
    requires Consumed(cfg, maxAge, call, begun, effects, false, before)
    requires ConsumedOne(cfg, maxAge, call, before, e, last, now) && before.channel == [e.event] + now.channel
    ensures Consumed(cfg, maxAge, call, begun, effects + [e], last, now)
  {
    Reassociate(begun.history, effects, [e]);
    EventsNext(effects, e, now.channel);
    HandledAllSnoc(cfg, maxAge, call.forwardFn, begun.reached, effects, e);
    ReportedSnoc(effects, e);
    if call.forwardFn == Enqueue {
      RecordsSnoc(effects, e);
      Reassociate(begun.lambdaQueue, Records(effects), Record(e));
    } else {
      AppendNothing(begun.lambdaQueue);
    }
    EndedWithNext(effects, e, call.requestID, call.isShutdown, begun.Live(), last);
  }

  lemma EventsNext(effects: seq<Effect>, e: Effect, rest: seq<LogEvent>)
    ensures Events(effects) + ([e.event] + rest) == Events(effects + [e]) + rest
  {
  }

  // ---------------------------------------------------------------- the consumer

  datatype Outcome = Finished | Cancelled | OutOfEvents

  class LogsClient {
    const codec: Codec
    const client: Client
    var logsChannel: seq<LogEvent>

    ghost var history: seq<Effect>

    ghost predicate Valid()
      reads this, client, client.batch
    {
      && Lawful(codec)
      && client.Valid()
      && client.batch.platformStartRequestID == LatestStart(history)
      && Attributed(codec, history)
    }

    ghost function Look(): Stream
      reads this, client, client.batch
    {
      Stream(history, logsChannel, Batch(), client.agentDataChannel, client.lambdaDataChannel)
    }

    ghost function Batch(): Reached
      reads client, client.batch
    {
      Reached(client.batch.Abstract(), client.batch.accepted)
    }

    constructor (codec: Codec, client: Client)
      requires Lawful(codec) && client.Valid() && client.batch.platformStartRequestID == ""
      ensures Valid() && this.codec == codec && this.client == client && history == [] && logsChannel == []
    {
      this.codec, this.client := codec, client;
      logsChannel, history := [], [];
    }

    /** A record goes to the end of the queue, or straight into the batch, which then is shipped if due. */
    method Forward(forwardFn: Destination, record: Bytes) returns (ghost clock: int)
      requires client.Valid()
      modifies client, client.batch
      ensures client.Valid() && client.SameInvocations(old(client.batch.Abstract()))
      ensures client.agentDataChannel == old(client.agentDataChannel)
      ensures old(client.batch.accepted) <= client.batch.accepted
      ensures forwardFn == Enqueue ==>
        client.lambdaDataChannel == old(client.lambdaDataChannel) + [record] && Batch() == old(Batch())
      ensures forwardFn == Direct ==>
        && client.lambdaDataChannel == old(client.lambdaDataChannel)
        && Batch() == Fed(client.batch.Config(), client.batch.maxAge, old(Batch()), record, clock)
    {
      clock := 0;
      match forwardFn {
        case Enqueue =>
          client.lambdaDataChannel := client.lambdaDataChannel + [record];
        case Direct =>
          var now: int := *;
          clock := now;
          var failed := client.ForwardLambdaData(record, now);
      }
    }

    /**
      Handles one event; `last` says that no further event is to be expected. The batch is
      notified of the event, and a function log or the report of a known invocation makes a
      record, which is forwarded.
     */
    method HandleEvent(event: LogEvent, call: Call) returns (last: bool, ghost e: Effect)
      requires Valid()
      modifies this`history, client, client.batch
      ensures Valid() && e.event == event
      ensures ConsumedOne(client.batch.Config(), client.batch.maxAge, call, old(Look()), e, last, Look())
      ensures event.kind == FunctionLog ==> AttributedTo(codec, e, old(LatestStart(history)))
      ensures event.kind == PlatformReport ==> ReportedAs(codec, old(client.batch.invocations), event, e.output)
      ensures event.kind != FunctionLog && event.kind != PlatformReport ==> e.output.None?
    {
      e := React(event, call);
      last := Ends(event, call);
      Remember(e);
    }

    ghost method Remember(e: Effect)
      requires Attributed(codec, history)
      requires e.event.kind == FunctionLog ==> AttributedTo(codec, e, LatestStart(history))
      modifies this`history
      ensures history == old(history) + [e] && Attributed(codec, history)
      ensures LatestStart(history)
           == if e.event.kind == PlatformStart then e.event.requestID else old(LatestStart(history))
    {
      LatestStartSnoc(history, e);
      AttributedNext(codec, history, e);
      history := history + [e];
    }

    /** What an event does outside the consumer. */
    method React(event: LogEvent, call: Call) returns (ghost e: Effect)
      requires Lawful(codec) && client.Valid()
      modifies client, client.batch
      ensures client.Valid() && e.event == event && e.arn == call.arn
      ensures e.output.Some? <==> MakesRecord(old(client.batch.Abstract()), event)
      ensures Batch() == Handled(client.batch.Config(), client.batch.maxAge, call.forwardFn, old(Batch()), e)
      ensures old(client.batch.accepted) <= client.batch.accepted
      ensures client.batch.platformStartRequestID
           == if event.kind == PlatformStart then event.requestID else old(client.batch.platformStartRequestID)
      ensures client.batch.invocations.Keys
           == old(client.batch.invocations.Keys) - if event.kind == PlatformReport then {event.requestID} else {}
      ensures client.agentDataChannel == old(client.agentDataChannel)
      ensures client.lambdaDataChannel
           == old(client.lambdaDataChannel) + if call.forwardFn == Enqueue then Record(e) else []
      ensures event.kind == FunctionLog ==> AttributedTo(codec, e, old(client.batch.platformStartRequestID))
      ensures event.kind == PlatformReport ==> ReportedAs(codec, old(client.batch.invocations), event, e.output)
      ensures event.kind != FunctionLog && event.kind != PlatformReport ==> e.output.None?
    {
      AppendNothing(client.lambdaDataChannel);
      var record, clock := Notify(event, call.arn);
      if record.Some? {
        clock := Forward(call.forwardFn, record.value);
      }
      e := Effect(event, record, call.arn, clock);
    }

    method Ends(event: LogEvent, call: Call) returns (last: bool)
      ensures last <==>
        if call.isShutdown then event.kind == PlatformReport && client.batch.invocations.Keys == {}
        else event.kind == PlatformRuntimeDone && event.requestID == call.requestID
    {
      last := false;
      if event.kind == PlatformRuntimeDone {
        last := !call.isShutdown && event.requestID == call.requestID;
      } else if event.kind == PlatformReport && call.isShutdown {
        var size := client.batch.Size();
        assert size == |client.batch.invocations.Keys|;
        last := size == 0;
      }
    }

    /** Tells the batch of an event, and makes the record for it. */
    method Notify(event: LogEvent, invokedFnArn: string) returns (record: Option<Bytes>, ghost clock: int)
      requires Lawful(codec) && client.Valid()
      modifies client.batch
      ensures client.Valid()
      ensures
        var o := Notified(client.batch.lib, old(client.batch.Abstract()), event, clock);
        Batch() == Reached(o.state, old(client.batch.accepted) + o.added)
      ensures client.batch.platformStartRequestID
           == if event.kind == PlatformStart then event.requestID else old(client.batch.platformStartRequestID)
      ensures client.batch.invocations.Keys
           == old(client.batch.invocations.Keys) - if event.kind == PlatformReport then {event.requestID} else {}
      ensures record.Some? <==> MakesRecord(old(client.batch.Abstract()), event)
      ensures event.kind == FunctionLog ==>
        LogSays(codec, record.value, old(client.batch.platformStartRequestID), invokedFnArn, event)
      ensures event.kind == PlatformReport ==> ReportedAs(codec, old(client.batch.invocations), event, record)
      ensures event.kind != FunctionLog && event.kind != PlatformReport ==> record.None?
    {
      record, clock := None, 0;
      AppendNothing(client.batch.accepted);
      match event.kind {
        case PlatformStart =>
          client.batch.OnPlatformStart(event.requestID);
        case PlatformRuntimeDone =>
          clock := Finish(event);
        case PlatformReport =>
          record := RecordReport(event);
        case FunctionLog =>
          var startID := client.batch.PlatformStartReqID();
          var b := ProcessFunctionLog(codec, startID, invokedFnArn, event);
          record := Some(b);
        case _ =>
      }
    }

    /** The invocation's proxy, if one is due, goes to the batch. */
    method Finish(event: LogEvent) returns (ghost clock: int)
      requires client.Valid()
      modifies client.batch
      ensures client.Valid() && client.SameInvocations(old(client.batch.Abstract()))
      ensures
        var o := Spec.Finalize(client.batch.lib, old(client.batch.Abstract()),
                               event.requestID, event.status, event.time, clock);
        Batch() == Reached(o.state, old(client.batch.accepted) + o.added)
    {
      ghost var s := client.batch.Abstract();
      var now: int := *;
      clock := now;
      FinalizeFeeds(client.batch.lib, s, event.requestID, event.status, event.time, now);
      ghost var added := Spec.Finalize(client.batch.lib, s, event.requestID, event.status, event.time, now).added;
      Reassociate(client.shipped, s.entries, added);
      var err := client.batch.OnLambdaLogRuntimeDone(event.requestID, event.status, event.time, now);
    }

    /** The invocation is over: what was registered for it goes into the metrics. */
    method RecordReport(event: LogEvent) returns (b: Option<Bytes>)
      requires Lawful(codec) && client.Valid()
      modifies client.batch
      ensures client.Valid()
      ensures Batch() == Reached(Spec.OnPlatformReport(old(client.batch.Abstract()), event.requestID).state,
                                 old(client.batch.accepted))
      ensures client.batch.invocations.Keys == old(client.batch.invocations.Keys) - {event.requestID}
      ensures ReportedAs(codec, old(client.batch.invocations), event, b)
    {
      AppendNothing(client.batch.accepted);
      var functionARN, deadlineMs, timestamp, err := client.batch.OnPlatformReport(event.requestID);
      if err.Some? {
        return None;
      }
      var metrics := ProcessPlatformReport(codec, functionARN, deadlineMs, timestamp, event);
      return Some(metrics);
    }

    method TakeEvent() returns (event: LogEvent)
      requires Valid() && logsChannel != []
      modifies this`logsChannel
      ensures Valid() && old(logsChannel) == [event] + logsChannel
      ensures Look() == old(Look()).(channel := logsChannel)
    {
      event := logsChannel[0];
      logsChannel := logsChannel[1..];
    }

    /** Takes the next event off the channel and handles it. */
    method HandleNext(call: Call, ghost begun: Stream, ghost before: seq<Effect>)
      returns (last: bool, ghost effects: seq<Effect>)
      requires Valid() && logsChannel != []
      requires Consumed(client.batch.Config(), client.batch.maxAge, call, begun, before, false, Look())
      modifies this, client, client.batch
      ensures Valid() && |logsChannel| == old(|logsChannel|) - 1
      ensures Consumed(client.batch.Config(), client.batch.maxAge, call, begun, effects, last, Look())
    {
      ghost var was := Look();
      var logEvent := TakeEvent();
      ghost var e;
      last, e := HandleEvent(logEvent, call);
      ConsumedNext(client.batch.Config(), client.batch.maxAge, call, begun, before, was, e, last, Look());
      effects := before + [e];
    }

    /**
      The loop of ProcessLogs and FlushData. It has finished exactly with the first event
      that is last in the sense of IsLast; otherwise it was cancelled, or is out of events,
      for which ProcessLogs goes on waiting.
     */
    method Consume(call: Call, mayCancel: bool) returns (outcome: Outcome, ghost effects: seq<Effect>)
      requires Valid()
      modifies this, client, client.batch
      ensures Valid()
      ensures Consumed(client.batch.Config(), client.batch.maxAge, call, old(Look()), effects,
                       outcome == Finished, Look())
      ensures outcome == Cancelled ==> mayCancel
      ensures outcome == OutOfEvents ==> logsChannel == []
    {
      ghost var begun := Look();
      outcome, effects := OutOfEvents, [];
      ConsumedNothing(client.batch.Config(), client.batch.maxAge, call, begun);
      while outcome == OutOfEvents
        invariant Valid()
        invariant Consumed(client.batch.Config(), client.batch.maxAge, call, begun, effects,
                           outcome == Finished, Look())
        invariant outcome == Cancelled ==> mayCancel
        decreases |logsChannel|, outcome == OutOfEvents
      {
        var done: bool := *;
        if mayCancel && done {
          outcome := Cancelled;
        } else if logsChannel == [] {
          return;
        } else {
          var last;
          last, effects := HandleNext(call, begun, effects);
          outcome := if last then Finished else OutOfEvents;
        }
      }
    }

    /** Consumes events until the last one that is to be expected; the records are queued, in order. */
    method ProcessLogs(requestID: string, invokedFnArn: string, isShutdown: bool, mayCancel: bool)
      returns (outcome: Outcome, ghost effects: seq<Effect>)
      requires Valid()
      modifies this, client, client.batch
      ensures Valid()
      ensures Consumed(client.batch.Config(), client.batch.maxAge, Call(requestID, invokedFnArn, Enqueue, isShutdown),
                       old(Look()), effects, outcome == Finished, Look())
      ensures outcome == Cancelled ==> mayCancel
      ensures outcome == OutOfEvents ==> logsChannel == []
    {
      outcome, effects := Consume(Call(requestID, invokedFnArn, Enqueue, isShutdown), mayCancel);
    }

    /** Consumes what is buffered already; the records go straight to the batch. */
    method FlushData(requestID: string, invokedFnArn: string, isShutdown: bool, mayCancel: bool)
      returns (outcome: Outcome, ghost effects: seq<Effect>)
      requires Valid()
      modifies this, client, client.batch
      ensures Valid()
      ensures Consumed(client.batch.Config(), client.batch.maxAge, Call(requestID, invokedFnArn, Direct, isShutdown),
                       old(Look()), effects, outcome == Finished, Look())
      ensures outcome == Cancelled ==> mayCancel
      ensures outcome == OutOfEvents ==> logsChannel == []
    {
      outcome, effects := Consume(Call(requestID, invokedFnArn, Direct, isShutdown), mayCancel);
    }
  }
}
