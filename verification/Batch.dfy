/**
  The batch of accumulator/batch.go: one byte buffer that holds the metadata and, after a
  newline each, the entries; how many entries there are; and the live invocations. Every
  method is one critical section of the batch's mutex. `now` is what the clock says.
 */
module Batches {
  import opened ByteStrings
  import opened Invocations
  import opened Iteration
  import Spec = BatchSpec

  class Batch {
    const lib: Library
    const maxSize: int
    const maxAge: int

    var metadataBytes: nat
    var buf: Bytes
    var invocations: map<string, Invocation>
    var count: nat
    var age: Option<int>
    var platformStartRequestID: string
    var currentlyExecutingRequestID: string

    // The metadata and entries that `buf` holds, and every entry ever accepted.
    ghost var metadata: Bytes
    ghost var entries: seq<Spec.Entry>
    ghost var accepted: seq<Spec.Entry>

    /** The buffer is exactly the encoding of metadata and entries, and the counters agree with it. */
    ghost predicate Valid()
      reads this
    {
      && buf == Encode(metadata, Spec.Data(entries))
      && metadataBytes == |metadata|
      && count == |entries|
      && Spec.WellFormed(lib, Abstract())
    }

    ghost function Abstract(): Spec.State
      reads this
    {
      Spec.State(metadata, entries, age, invocations, currentlyExecutingRequestID, platformStartRequestID)
    }

    ghost function Config(): Spec.Config {
      Spec.Config(lib, maxSize)
    }

    /** What a method did: it went from state `s` and history `h` to here with this outcome. */
    ghost predicate Did(s: Spec.State, h: seq<Spec.Entry>, o: Spec.Outcome, err: Option<Spec.Error>)
      reads this
    {
      Valid() && Abstract() == o.state && accepted == h + o.added && err == o.err
    }

    constructor (lib: Library, maxSize: int, maxAge: int)
      ensures this.lib == lib && this.maxSize == maxSize && this.maxAge == maxAge
      ensures Valid() && Abstract() == Spec.NEW_BATCH && accepted == []
    {
      this.lib, this.maxSize, this.maxAge := lib, maxSize, maxAge;
      metadataBytes, buf, count, age := 0, [], 0, None;
      invocations := map[];
      platformStartRequestID, currentlyExecutingRequestID := "", "";
      metadata, entries, accepted := [], [], [];
    }

    method Size() returns (n: nat)
      ensures n == |invocations|
    {
      n := |invocations|;
    }

    method Count() returns (n: nat)
      requires Valid()
      ensures n == |Abstract().entries|
    {
      n := count;
    }

    method RegisterInvocation(reqID: string, functionARN: string, deadlineMs: int, timestamp: int)
      requires Valid()
      modifies this
      ensures Did(old(Abstract()), old(accepted),
                  Spec.RegisterInvocation(old(Abstract()), reqID, functionARN, deadlineMs, timestamp), None)
    {
      var i := EMPTY_INVOCATION;
      if reqID in invocations {
        i := invocations[reqID];
      }
      i := i.(requestID := reqID, functionARN := functionARN, deadlineMs := deadlineMs, timestamp := timestamp);
      invocations := invocations[reqID := i];
      currentlyExecutingRequestID := reqID;
    }

    method OnAgentInit(reqID: string, contentEncoding: string, raw: Bytes) returns (err: Option<Spec.Error>)
      requires Valid()
      modifies this
      ensures Did(old(Abstract()), old(accepted),
                  Spec.OnAgentInit(lib, old(Abstract()), reqID, contentEncoding, raw), err)
    {
      var payload := Uncompress(lib, raw, contentEncoding);
      if payload.None? {
        return Some(Spec.InvalidEncoding);
      }
      var agentMetadata, txnData := [], payload.value;
      var eventType := FindEventType(payload.value);
      match eventType {
        case MetadataEvent =>
          var cut := Cut(payload.value);
          agentMetadata, txnData := cut.0, cut.1;
        case TransactionEvent =>
        case OtherEvent =>
          return Some(Spec.InvalidPayload);
      }
      var txnID := lib.txnIDText(txnData);
      if txnID == "" {
        return Some(Spec.NoTransactionID);
      }
      ghost var s := Abstract();
      Spec.AgentInitKeeps(lib, s, reqID, contentEncoding, raw);
      if metadataBytes == 0 && |agentMetadata| > 0 {
        WriteMetadata(agentMetadata);
      }
      var i := EMPTY_INVOCATION;
      if reqID in invocations {
        i := invocations[reqID];
      }
      invocations := invocations[reqID := i.(transactionID := txnID, agentPayload := txnData)];
      currentlyExecutingRequestID := reqID;
      err := None;
      assert Abstract() == Spec.OnAgentInit(lib, s, reqID, contentEncoding, raw).state;
    }

    /** Writes the metadata at the front of a buffer that has none. */
    method WriteMetadata(data: Bytes)
      requires Valid() && metadataBytes == 0 && NEWLINE !in data
      modifies this`buf, this`metadataBytes, this`metadata
      ensures Valid() && Abstract() == old(Abstract()).(metadata := data)
    {
      assert entries == [] && buf == [];
      buf := buf + data;
      metadataBytes := |data|;
      metadata := data;
    }

    method AddAgentData(apmData: Spec.APMData, now: int) returns (err: Option<Spec.Error>)
      requires Valid()
      modifies this
      ensures Did(old(Abstract()), old(accepted), Spec.AddAgentData(Config(), old(Abstract()), apmData, now), err)
    {
      var refused, raw := ReadAgentData(apmData);
      if refused.Some? {
        return refused;
      }
      ghost var s0 := Abstract();
      var cut := Cut(raw);
      var data, after := cut.0, cut.1;
      if metadataBytes == 0 {
        WriteMetadata(data);
      }
      assert Lines(raw)[0] == data;
      assert Abstract() == s0.(metadata := Spec.MetadataAfter(s0, raw));

      err := AddBodyLines(after, now);
      assert Lines(raw)[1..] == if NEWLINE in raw then Lines(after) else [];
      assert Spec.BodyEntries(raw) == Spec.AgentEntries(Lines(after));
    }

    /** The checks at the start of AddAgentData, in their order, and the body to read if they pass. */
    method ReadAgentData(apmData: Spec.APMData) returns (refused: Option<Spec.Error>, raw: Bytes)
      requires Valid()
      ensures (refused, raw) == Spec.AgentBody(Config(), Abstract(), apmData)
    {
      if |apmData.data| == 0 {
        return Some(Spec.NoData), [];
      }
      var uncompressed := Uncompress(lib, apmData.data, apmData.contentEncoding);
      if uncompressed.None? {
        return Some(Spec.InvalidEncoding), [];
      }
      if count >= maxSize {
        return Some(Spec.BatchFull), [];
      }
      if currentlyExecutingRequestID == "" {
        return Some(Spec.NoCurrentInvocation), [];
      }
      if currentlyExecutingRequestID !in invocations {
        return Some(Spec.UnknownInvocation), [];
      }
      return None, uncompressed.value;
    }

    /** The loop of AddAgentData over what follows the first line of a body. */
    method AddBodyLines(body: Bytes, now: int) returns (err: Option<Spec.Error>)
      requires Valid() && currentlyExecutingRequestID in invocations
      modifies this
      ensures Did(old(Abstract()), old(accepted),
                  Spec.AddLines(lib, old(Abstract()), Spec.AgentEntries(Lines(body)), now), err)
    {
      ghost var h, whole := accepted, Spec.AddLines(lib, Abstract(), Spec.AgentEntries(Lines(body)), now);
      // What has been added so far; the rest of the body has yet to do the rest.
      ghost var added := [];
      var after := body;
      ThenThen([], [], whole);
      while true
        invariant Valid() && currentlyExecutingRequestID in invocations
        invariant whole == Then(added, Spec.AddLines(lib, Abstract(), Spec.AgentEntries(Lines(after)), now))
        invariant accepted == h + added
        decreases |after|
      {
        AddLinesStep(lib, Abstract(), after, now);
        var cut := Cut(after);
        var data := cut.0;
        after := cut.1;
        ghost var e := Spec.AgentLine(data);
        ghost var o := Spec.AddData(Spec.Observe(lib, Abstract(), [e]), e, now);
        ThenThen(added, o.added, Spec.AddLines(lib, o.state, Spec.AgentEntries(Lines(after)), now));
        Reassociate(h, added, o.added);
        err := AddAgentLine(data, now);
        added := added + o.added;
        if err.Some? {
          assert whole == Spec.Outcome(Abstract(), added, err);
          return;
        }
        if |after| == 0 {
          break;
        }
      }
      AddNoLines(lib, Abstract(), now);
      assert added + [] == added;
      assert whole == Spec.Outcome(Abstract(), added, err);
    }

    /** One turn of that loop: the line is looked at first, and then added. */
    method AddAgentLine(data: Bytes, now: int) returns (err: Option<Spec.Error>)
      requires Valid() && currentlyExecutingRequestID in invocations && NEWLINE !in data
      modifies this
      ensures
        var e := Spec.AgentLine(data);
        var observed := Spec.Observe(lib, old(Abstract()), [e]);
        Did(observed, old(accepted), Spec.AddData(observed, e, now), err)
    {
      var inc := invocations[currentlyExecutingRequestID];
      ghost var s, e := Abstract(), Spec.AgentLine(data);
      assert e in [e];
      if inc.NeedProxyTransaction() {
        var eventType := FindEventType(data);
        if eventType == Spec.TransactionEvent {
          var res := lib.txnIDString(data);
          if res != "" && inc.transactionID == res {
            assert Spec.ReportsTransaction(lib, e.data, inc.transactionID);
            invocations := invocations[currentlyExecutingRequestID := inc.(transactionObserved := true)];
          }
        }
      }
      assert Abstract() == Spec.Observe(lib, s, [e]);
      Spec.ObserveKeeps(lib, s, [e]);
      err := AddData(data, now, e);
    }

    method OnLambdaLogRuntimeDone(reqID: string, status: string, endTime: int, now: int)
      returns (err: Option<Spec.Error>)
      requires Valid()
      modifies this
      ensures Did(old(Abstract()), old(accepted), Spec.Finalize(lib, old(Abstract()), reqID, status, endTime, now), err)
    {
      err := FinalizeInvocation(reqID, status, endTime, now);
    }

    method OnPlatformStart(reqID: string)
      requires Valid()
      modifies this`platformStartRequestID
      ensures Valid() && Abstract() == old(Abstract()).(platformStart := reqID)
    {
      platformStartRequestID := reqID;
    }

    method PlatformStartReqID() returns (reqID: string)
      requires Valid()
      ensures reqID == Abstract().platformStart
    {
      reqID := platformStartRequestID;
    }

    /** Forgets the invocation and gives back what was registered for it. */
    method OnPlatformReport(reqID: string)
      returns (functionARN: string, deadlineMs: int, timestamp: int, err: Option<Spec.Error>)
      requires Valid()
      modifies this`invocations
      ensures Did(old(Abstract()), old(accepted), Spec.OnPlatformReport(old(Abstract()), reqID), err)
      ensures err.None? ==>
        var inc := old(invocations)[reqID];
        functionARN == inc.functionARN && deadlineMs == inc.deadlineMs && timestamp == inc.timestamp
    {
      if reqID !in invocations {
        return "", 0, 0, Some(Spec.UnknownInvocation);
      }
      var inc := invocations[reqID];
      invocations := invocations - {reqID};
      return inc.functionARN, inc.deadlineMs, inc.timestamp, None;
    }

    /** The loop ranges over the map in an order that the runtime picks, here `order`. */
    method OnShutdown(status: string, now: int) returns (err: Option<Spec.Error>, ghost order: seq<string>)
      requires Valid()
      modifies this
      ensures IsIterationOrder(order, old(invocations).Keys)
      ensures Did(old(Abstract()), old(accepted), Spec.OnShutdown(lib, old(Abstract()), status, order, now), err)
    {
      order, err := [], None;
      ghost var s, h, keys := Abstract(), accepted, invocations.Keys;
      var todo := invocations.Keys;
      assert h + [] == h;
      while todo != {}
        invariant Visited(order, keys, todo)
        invariant Did(s, h, Spec.OnShutdown(lib, s, status, order, now), err) && err == None
        decreases |todo|
      {
        var k :| k in todo;
        todo := todo - {k};
        VisitOne(order, keys, todo, k);
        ShutdownMore(lib, s, h, status, order, k, now);
        err := ShutdownInvocation(k, status, now);
        order := order + [k];
        assert Did(s, h, Spec.OnShutdown(lib, s, status, order, now), err);
        if err.Some? {
          Spec.ShutdownStops(lib, s, status, order, OrderOf(todo), now);
          VisitRest(order, keys, todo);
          order := order + OrderOf(todo);
          return;
        }
      }
      VisitNone(order, keys);
    }

    /** One turn of the loop in OnShutdown. */
    method ShutdownInvocation(k: string, status: string, now: int) returns (err: Option<Spec.Error>)
      requires Valid()
      modifies this
      ensures Did(old(Abstract()), old(accepted), Spec.ShutdownOne(lib, old(Abstract()), status, k, now), err)
    {
      if k !in invocations {
        return None;
      }
      var inc := invocations[k];
      var endTime := inc.deadlineMs * NANOS_PER_MILLI;
      err := FinalizeInvocation(inc.requestID, status, endTime, now);
      if err.None? {
        invocations := invocations - {inc.requestID};
      }
    }

    method AddLambdaData(d: Bytes, now: int) returns (err: Option<Spec.Error>)
      requires Valid()
      modifies this
      ensures Did(old(Abstract()), old(accepted), Spec.AddLambdaData(Config(), old(Abstract()), d, now), err)
    {
      if count >= maxSize {
        return Some(Spec.BatchFull);
      }
      err := AddData(d, now, Spec.LambdaEntry(d));
    }

    method ShouldShip(now: int) returns (ship: bool)
      requires Valid()
      ensures ship == Spec.ShouldShip(maxSize, maxAge, Abstract(), now)
    {
      ship := count >= Spec.Threshold(maxSize) || (age.Some? && now - age.value > maxAge);
    }

    /** Truncates the buffer to the metadata. */
    method Reset()
      requires Valid()
      modifies this
      ensures Valid() && Abstract() == Spec.Reset(old(Abstract())) && accepted == old(accepted)
      ensures buf == metadata
    {
      count, age := 0, None;
      buf := buf[..metadataBytes];
      entries := [];
    }

    method ToAPMData() returns (data: Spec.APMData)
      requires Valid()
      ensures data.contentEncoding == ""
      ensures data.data == Encode(Abstract().metadata, Spec.Data(Abstract().entries))
    {
      data := Spec.APMData(buf, "");
    }

    method FinalizeInvocation(reqID: string, status: string, endTime: int, now: int)
      returns (err: Option<Spec.Error>)
      requires Valid()
      modifies this
      ensures Did(old(Abstract()), old(accepted), Spec.Finalize(lib, old(Abstract()), reqID, status, endTime, now), err)
    {
      ghost var s := Abstract();
      if reqID !in invocations {
        return Some(Spec.UnknownInvocation);
      }
      var inc := invocations[reqID];
      var proxyTxn := inc.MaybeCreateProxyTxn(lib, status, endTime);
      if proxyTxn.None? {
        return Some(Spec.ProxyFailed);
      }
      Spec.FinalizeKeeps(lib, s, reqID, status, endTime, now);
      err := AddData(proxyTxn.value, now, Spec.ProxyTxn(reqID, proxyTxn.value));
      if err.None? {
        invocations := invocations[reqID := inc.(finalized := true)];
        assert Abstract() == Spec.Finalize(lib, s, reqID, status, endTime, now).state;
      }
    }

    method AddData(data: Bytes, now: int, ghost e: Spec.Entry) returns (err: Option<Spec.Error>)
      requires Valid() && e.data == data && (e.AgentLine? ==> NEWLINE !in data)
      modifies this
      ensures Did(old(Abstract()), old(accepted), Spec.AddData(old(Abstract()), e, now), err)
    {
      assert accepted + [] == accepted;
      if |data| == 0 {
        return None;
      }
      if metadataBytes == 0 {
        return Some(Spec.MetadataUnavailable);
      }
      Spec.AddDataKeeps(lib, Abstract(), e, now);
      AppendEntry(data, now, e);
      return None;
    }

    /** The part of addData that changes the batch: the first entry sets the age. */
    method AppendEntry(data: Bytes, now: int, ghost e: Spec.Entry)
      requires e.data == data && buf == Encode(metadata, Spec.Data(entries)) && count == |entries|
      modifies this`buf, this`count, this`age, this`entries, this`accepted
      ensures buf == Encode(metadata, Spec.Data(entries)) && count == |entries|
      ensures Abstract() == Spec.Append(old(Abstract()), [e], now)
      ensures accepted == old(accepted) + [e]
    {
      WriteEntry(data, e);
      if count == 0 {
        age := Some(now);
      }
      count := count + 1;
    }

    /** The two writes to the buffer. */
    method WriteEntry(data: Bytes, ghost e: Spec.Entry)
      requires e.data == data && buf == Encode(metadata, Spec.Data(entries))
      modifies this`buf, this`entries, this`accepted
      ensures buf == Encode(metadata, Spec.Data(entries))
      ensures entries == old(entries) + [e] && accepted == old(accepted) + [e]
    {
      BufferSnoc(buf, metadata, entries, e);
      buf := buf + [NEWLINE];
      buf := buf + data;
      entries, accepted := entries + [e], accepted + [e];
    }
  }

  lemma BufferSnoc(buf: Bytes, metadata: Bytes, entries: seq<Spec.Entry>, e: Spec.Entry)
    requires buf == Encode(metadata, Spec.Data(entries))
    ensures buf + [NEWLINE] + e.data == Encode(metadata, Spec.Data(entries + [e]))
  {
    Spec.DataSnoc(entries, e);
    EncodeSnoc(metadata, Spec.Data(entries), e.data);
  }

  ghost function Then(added: seq<Spec.Entry>, o: Spec.Outcome): Spec.Outcome {
    o.(added := added + o.added)
  }

  lemma ThenThen(a: seq<Spec.Entry>, b: seq<Spec.Entry>, o: Spec.Outcome)
    ensures Then(a, Then(b, o)) == Then(a + b, o)
    ensures Then([], o) == o
  {
    assert a + (b + o.added) == a + b + o.added;
    assert [] + o.added == o.added;
  }

  /** Checking a line, and then more lines, gives what checking them together gives. */
  lemma ObserveMore(lib: Library, s: Spec.State, line: Spec.Entry, lines: seq<Spec.Entry>)
    requires s.current in s.invocations
    ensures Spec.Observe(lib, Spec.Observe(lib, s, [line]), lines) == Spec.Observe(lib, s, [line] + lines)
  {
    var inc := s.invocations[s.current];
    assert line in [line] && forall e :: e in [line] + lines <==> e == line || e in lines;
    assert Spec.AnyLineReports(lib, [line] + lines, inc.transactionID)
      <==> Spec.AnyLineReports(lib, [line], inc.transactionID) || Spec.AnyLineReports(lib, lines, inc.transactionID);
  }

  lemma AddNoLines(lib: Library, s: Spec.State, now: int)
    requires s.current in s.invocations
    ensures Spec.AgentEntries(Lines([])) == []
    ensures Spec.AddLines(lib, s, [], now) == Spec.Outcome(s, [], None)
  {
    assert Lines([]) == [[]];
    assert s.entries + [] == s.entries;
  }

  lemma EmptyNeverReports(lib: Library, s: Spec.State, e: Spec.Entry)
    requires s.current in s.invocations && e.data == []
    ensures Spec.Observe(lib, s, [e]) == s
  {
    assert Spec.EventTypeOf(e.data) == Spec.OtherEvent;
  }

  lemma AddLinesMore(lib: Library, s: Spec.State, e: Spec.Entry, rest: seq<Spec.Entry>, now: int)
    requires s.current in s.invocations && e.data != []
    ensures
      var o := Spec.AddData(Spec.Observe(lib, s, [e]), e, now);
      && o.state.current in o.state.invocations
      && Spec.AddLines(lib, s, [e] + rest, now)
      == if o.err.Some? then o else Then(o.added, Spec.AddLines(lib, o.state, rest, now))
  {
    assert ([e] + rest)[..1] == [e];
    ObserveMore(lib, s, e, rest);
    assert s.entries + ([e] + rest) == s.entries + [e] + rest;
  }

  /** Adding all lines of a text is adding its first line and then, without an error, the others. */
  lemma AddLinesStep(lib: Library, s: Spec.State, text: Bytes, now: int)
    requires s.current in s.invocations
    ensures
      var e := Spec.AgentLine(Cut(text).0);
      var o := Spec.AddData(Spec.Observe(lib, s, [e]), e, now);
      && o.state.current in o.state.invocations
      && Spec.AddLines(lib, s, Spec.AgentEntries(Lines(text)), now)
      == if o.err.Some? then o
         else Then(o.added, Spec.AddLines(lib, o.state, Spec.AgentEntries(Lines(Cut(text).1)), now))
  {
    var e, rest := Spec.AgentLine(Cut(text).0), Spec.AgentEntries(Lines(Cut(text).1));
    SplitEntries(text);
    if e.data == [] {
      EmptyNeverReports(lib, s, e);
      assert [] + rest == rest;
    } else {
      AddLinesMore(lib, s, e, rest, now);
    }
  }

  lemma EntriesCons(line: Bytes, rest: seq<Bytes>)
    ensures Spec.AgentEntries([line] + rest) == Spec.AgentEntries([line]) + Spec.AgentEntries(rest)
  {
    assert ([line] + rest)[1..] == rest && [line][1..] == [];
  }

  /** Taking one line off `s` takes it off its entries. */
  lemma SplitEntries(s: Bytes)
    ensures Spec.AgentEntries(Lines(s))
         == Spec.AgentEntries([Cut(s).0]) + Spec.AgentEntries(Lines(Cut(s).1))
  {
    var first, rest := Cut(s).0, Lines(Cut(s).1);
    if NEWLINE in s {
      EntriesCons(first, rest);
    } else {
      assert Spec.AgentEntries([[]]) == [];
    }
  }

  lemma ShutdownMore(
    lib: Library, s: Spec.State, h: seq<Spec.Entry>, status: string, order: seq<string>, k: string, now: int)
    requires Spec.OnShutdown(lib, s, status, order, now).err.None?
    ensures
      var before := Spec.OnShutdown(lib, s, status, order, now);
      var last := Spec.ShutdownOne(lib, before.state, status, k, now);
      && Spec.OnShutdown(lib, s, status, order + [k], now) == Then(before.added, last)
      && h + (before.added + last.added) == h + before.added + last.added
  {
    assert (order + [k])[..|order|] == order;
    var before := Spec.OnShutdown(lib, s, status, order, now);
    Reassociate(h, before.added, Spec.ShutdownOne(lib, before.state, status, k, now).added);
  }

  /** bytes.IndexByte */
  method IndexByte(s: Bytes, b: Byte) returns (index: int)
    ensures -1 <= index < |s|
    ensures index >= 0 ==> s[index] == b && forall m | 0 <= m < index :: s[m] != b
    ensures index == -1 ==> b !in s
  {
    index := 0;
    while index < |s|
      invariant 0 <= index <= |s|
      invariant forall m | 0 <= m < index :: s[m] != b
    {
      if s[index] == b {
        return;
      }
      index := index + 1;
    }
    index := -1;
  }

  /** findEventType reads the first quoted key of the body. */
  method FindEventType(body: Bytes) returns (eventType: Spec.EventType)
    ensures eventType == Spec.EventTypeOf(body)
  {
    var quote: Byte, key: Bytes := 0, [];
    var i := 0;
    while i < |body|
      invariant 0 <= i <= |body|
      invariant forall m | 0 <= m < i :: !Spec.IsQuote(body[m])
      invariant quote == 0 && key == []
    {
      var r := body[i];
      if r == Spec.DOUBLE_QUOTE || r == Spec.SINGLE_QUOTE {
        quote := r;
        key := body[i + 1..];
        break;
      }
      i := i + 1;
    }
    Spec.FirstKeyFrom(body, i);
    assert i < |body| ==> body[i..][1..] == key;
    var end := IndexByte(key, quote);
    if end == -1 {
      if i < |body| {
        Spec.UpToNone(key, quote);
      }
      return Spec.OtherEvent;
    }
    Spec.UpToAt(key, quote, end);
    assert Spec.FirstKey(body) == Some(key[..end]);
    if key[..end] == Spec.TRANSACTION_KEY {
      return Spec.TransactionEvent;
    } else if key[..end] == Spec.METADATA_KEY {
      return Spec.MetadataEvent;
    }
    return Spec.OtherEvent;
  }
}
