/**
  Which invocation agent data is taken for: the one that was registered last, by an INVOKE
  event or by its agent (currentlyExecutingRequestID in accumulator/batch.go).
 */
module CurrentInvocation {
  import opened ByteStrings
  import opened Invocations
  import opened BatchSpec
  import opened Coverage

  /** `op` makes `k` the current invocation. */
  ghost predicate MakesCurrent(cfg: Config, op: Op, k: string) {
    IsRegister(op, k) || IsInit(cfg, op, k)
  }

  ghost predicate MakesAnyCurrent(cfg: Config, op: Op) {
    exists k :: MakesCurrent(cfg, op, k)
  }

  /** The last operation that makes any invocation current is the one at `i`, and it is for `k`. */
  ghost predicate LastMadeCurrent(cfg: Config, ops: seq<Op>, i: int, k: string) {
    && 0 <= i < |ops| && MakesCurrent(cfg, ops[i], k)
    && forall j | i < j < |ops| :: !MakesAnyCurrent(cfg, ops[j])
  }

  lemma StepCurrent(cfg: Config, s: State, op: Op, k: string)
    ensures MakesCurrent(cfg, op, k) ==> Step(cfg, s, op).state.current == k && k in Step(cfg, s, op).state.invocations
    ensures !MakesAnyCurrent(cfg, op) ==> Step(cfg, s, op).state.current == s.current
  {
    match op
    case Register(reqID, _, _, _) => assert MakesCurrent(cfg, op, reqID);
    case AgentInit(reqID, encoding, raw) =>
      if ParseRegistration(cfg.lib, encoding, raw).Accepted? {
        assert MakesCurrent(cfg, op, reqID);
      }
    case Shutdown(status, order, now) => ShutdownCurrent(cfg.lib, s, status, order, now);
    case _ =>
  }

  lemma {:induction false} ShutdownCurrent(lib: Library, s: State, status: string, order: seq<string>, now: int)
    ensures OnShutdown(lib, s, status, order, now).state.current == s.current
  {
    if order != [] {
      ShutdownCurrent(lib, s, status, order[..|order| - 1], now);
    }
  }

  /** In every run the current invocation is the one that was last made so; before any, it stays as it was. */
  lemma {:induction false} CurrentIsLatest(cfg: Config, s: State, ops: seq<Op>, k: string)
    ensures Run(cfg, s, ops).state.current == k <==>
      || (exists i :: LastMadeCurrent(cfg, ops, i, k))
      || (s.current == k && forall op | op in ops :: !MakesAnyCurrent(cfg, op))
  {
    if ops != [] {
      var n := |ops| - 1;
      var init, op := ops[..n], ops[n];
      CurrentIsLatest(cfg, s, init, k);
      StepCurrent(cfg, Run(cfg, s, init).state, op, k);
      assert ops == init + [op];
      if MakesAnyCurrent(cfg, op) {
        var k' :| MakesCurrent(cfg, op, k');
        StepCurrent(cfg, Run(cfg, s, init).state, op, k');
        assert k == k' ==> LastMadeCurrent(cfg, ops, n, k);
      } else {
        forall i | LastMadeCurrent(cfg, init, i, k) ensures LastMadeCurrent(cfg, ops, i, k) {}
        forall i | LastMadeCurrent(cfg, ops, i, k) ensures LastMadeCurrent(cfg, init, i, k) {}
      }
    }
  }

  /** Operations that may take an invocation out of the map. */
  predicate MayEnd(op: Op, k: string) {
    IsReport(op, k) || op.Shutdown?
  }

  lemma {:induction false} StaysUntilItEnds(cfg: Config, s: State, ops: seq<Op>, i: int, k: string)
    requires 0 <= i < |ops| && MakesCurrent(cfg, ops[i], k)
    requires forall j | i < j < |ops| :: !MayEnd(ops[j], k)
    ensures k in Run(cfg, s, ops).state.invocations
  {
    var n := |ops| - 1;
    var before := Run(cfg, s, ops[..n]).state;
    if i == n {
      StepCurrent(cfg, before, ops[n], k);
    } else {
      StaysUntilItEnds(cfg, s, ops[..n], i, k);
      StepStays(cfg, before, ops[n], k);
    }
  }

  lemma StepStays(cfg: Config, s: State, op: Op, k: string)
    requires k in s.invocations && !MayEnd(op, k)
    ensures k in Step(cfg, s, op).state.invocations
  {
    if op.AgentData? {
      AgentDataFrame(cfg, s, op, k);
    }
  }

  /**
    So in every run a request of the agent is read exactly if it decodes and there is room,
    from the time its invocation is registered until that is reported or shut down; and
    what it is read for is that invocation, whatever invocations there have been before.
   */
  lemma ReadForLatest(cfg: Config, s: State, ops: seq<Op>, i: int, k: string, data: APMData)
    requires LastMadeCurrent(cfg, ops, i, k) && k != ""
    requires forall j | i < j < |ops| :: !MayEnd(ops[j], k)
    ensures
      var s', raw := Run(cfg, s, ops).state, Uncompress(cfg.lib, data.data, data.contentEncoding);
      && s'.current == k && k in s'.invocations
      && (AgentBody(cfg, s', data).0.None? <==> data.data != [] && raw.Some? && |s'.entries| < cfg.maxSize)
      && (AgentBody(cfg, s', data).0.None? ==> AgentBody(cfg, s', data).1 == raw.value)
  {
    CurrentIsLatest(cfg, s, ops, k);
    StaysUntilItEnds(cfg, s, ops, i, k);
  }

  /** Right after a registration, whoever was current before. */
  lemma RegisteredIsRead(
    cfg: Config, s: State, k: string, arn: string, deadlineMs: int, timestamp: int, raw: Bytes)
    requires k != "" && raw != [] && |s.entries| < cfg.maxSize
    ensures AgentBody(cfg, Step(cfg, s, Register(k, arn, deadlineMs, timestamp)).state, APMData(raw, "")) == (None, raw)
  {
  }

  /**
    Metadata that the agent announces serves from then on: the next record is accepted, if
    there is room. And announced without metadata, a batch that had none still refuses it.
   */
  lemma AnnouncedMetadataServes(cfg: Config, s: State, k: string, encoding: string, raw: Bytes, d: Bytes, now: int)
    requires IsInit(cfg, AgentInit(k, encoding, raw), k) && d != [] && |s.entries| < cfg.maxSize
    ensures
      var s' := Step(cfg, s, AgentInit(k, encoding, raw)).state;
      var announced := ParseRegistration(cfg.lib, encoding, raw).registration.metadata;
      && (Step(cfg, s', LambdaData(d, now)).err.None? <==> s.metadata != [] || announced != [])
      && (s.metadata == [] ==> s'.metadata == announced)
  {
  }

  /** The outcome of a request depends on what its body decodes to, not on how it was encoded. */
  lemma EncodingIsTransparent(cfg: Config, s: State, encoded: Bytes, raw: Bytes, now: int)
    requires encoded != [] && raw != []
    ensures cfg.lib.gunzip(encoded) == Some(raw) ==>
      AddAgentData(cfg, s, APMData(encoded, "gzip"), now) == AddAgentData(cfg, s, APMData(raw, ""), now)
    ensures cfg.lib.inflate(encoded) == Some(raw) ==>
      AddAgentData(cfg, s, APMData(encoded, "deflate"), now) == AddAgentData(cfg, s, APMData(raw, ""), now)
    ensures cfg.lib.gunzip(encoded) == None ==>
      AddAgentData(cfg, s, APMData(encoded, "gzip"), now) == Outcome(s, [], Some(InvalidEncoding))
    ensures cfg.lib.inflate(encoded) == None ==>
      AddAgentData(cfg, s, APMData(encoded, "deflate"), now) == Outcome(s, [], Some(InvalidEncoding))
  {
  }

  lemma InitEncodingIsTransparent(lib: Library, s: State, k: string, encoded: Bytes, raw: Bytes)
    ensures lib.gunzip(encoded) == Some(raw) ==>
      OnAgentInit(lib, s, k, "gzip", encoded) == OnAgentInit(lib, s, k, "", raw)
    ensures lib.inflate(encoded) == Some(raw) ==>
      OnAgentInit(lib, s, k, "deflate", encoded) == OnAgentInit(lib, s, k, "", raw)
    ensures lib.gunzip(encoded) == None ==> OnAgentInit(lib, s, k, "gzip", encoded).state == s
    ensures lib.inflate(encoded) == None ==> OnAgentInit(lib, s, k, "deflate", encoded).state == s
  {
  }
}
