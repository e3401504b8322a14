/**
  What a proxy transaction tells of its invocation: how it ended and how long it took.
  The end is the time of the runtimeDone event, or the deadline if the extension is shut
  down first (accumulator/batch.go, accumulator/invocation.go).
 */
module ProxyDescription {
  import opened ByteStrings
  import opened Invocations
  import opened BatchSpec
  import opened ShutdownDrain
  import opened ProxyExclusivity

  /** `e` is a proxy for `k`, which announced this transaction, started at `start` and ended so at `end`. */
  ghost predicate Describes(lib: Library, e: Entry, k: string, inc: Invocation, status: string, end: int) {
    && e.ProxyTxn? && e.reqID == k
    && inc.transactionID != "" && lib.txnIDText(e.data) == inc.transactionID
    && lib.result(e.data) == status
    && lib.duration(e.data) == Milliseconds(end - inc.timestamp)
    && (lib.isFailure(e.data) <==> status != "success" || lib.isFailure(inc.agentPayload))
  }

  ghost predicate Laws(lib: Library) {
    JsonLaws(lib) && FieldLaws(lib)
  }

  lemma ProxyDescribes(lib: Library, k: string, inc: Invocation, status: string, end: int)
    requires Laws(lib) && WellFormedInvocation(lib, k, inc) && inc.NeedProxyTransaction()
    ensures inc.MaybeCreateProxyTxn(lib, status, end).Some?
    ensures Describes(lib, ProxyTxn(k, inc.MaybeCreateProxyTxn(lib, status, end).value), k, inc, status, end)
  {
    ProxyKeepsTransaction(lib, inc, status, end);
    ProxyContents(lib, inc, status, end);
  }

  /** Whatever finalising an invocation adds is one proxy for it, which describes it up to this end. */
  lemma FinalizeDescribes(lib: Library, s: State, k: string, status: string, end: int, now: int)
    requires Laws(lib) && WellFormed(lib, s)
    ensures
      var added := Finalize(lib, s, k, status, end, now).added;
      added != [] ==> |added| == 1 && k in s.invocations && s.invocations[k].NeedProxyTransaction()
                      && Describes(lib, added[0], k, s.invocations[k], status, end)
  {
    if k in s.invocations && s.invocations[k].NeedProxyTransaction() {
      ProxyDescribes(lib, k, s.invocations[k], status, end);
    }
  }

  /** The event that tells of the end gives the end: a proxy that is due says what the event says. */
  lemma DoneIsDescribed(cfg: Config, s: State, k: string, status: string, endTime: int, now: int)
    requires Laws(cfg.lib) && WellFormed(cfg.lib, s) && s.metadata != []
    requires k in s.invocations && s.invocations[k].NeedProxyTransaction()
    ensures
      var o := Step(cfg, s, RuntimeDone(k, status, endTime, now));
      o.err.None? && |o.added| == 1 && Describes(cfg.lib, o.added[0], k, s.invocations[k], status, endTime)
  {
    ProxyDescribes(cfg.lib, k, s.invocations[k], status, endTime);
  }

  /**
    At shutdown the end is the deadline of the invocation that the loop is at, which is the
    proxy's own unless its id is empty.
   */
  ghost predicate DescribesByDeadline(lib: Library, s: State, status: string, e: Entry) {
    && e.ProxyTxn? && e.reqID in s.invocations
    && exists k :: k in s.invocations && s.invocations[k].requestID == e.reqID
         && (e.reqID != "" ==> k == e.reqID)
         && Describes(lib, e, e.reqID, s.invocations[e.reqID], status, s.invocations[k].deadlineMs * NANOS_PER_MILLI)
  }

  /** What is left in the map during a shutdown has not been changed by it. */
  ghost predicate OnlyLeave(s: State, s': State) {
    s'.invocations.Keys <= s.invocations.Keys
    && forall k | k in s'.invocations :: s'.invocations[k] == s.invocations[k]
  }

  lemma TurnLeaves(lib: Library, s: State, status: string, k: string, now: int)
    ensures ShutdownOne(lib, s, status, k, now).err.None? ==>
      OnlyLeave(s, ShutdownOne(lib, s, status, k, now).state)
  {
  }

  lemma TurnDescribes(lib: Library, s: State, status: string, k: string, now: int)
    requires Laws(lib) && WellFormed(lib, s)
    ensures forall e | e in ShutdownOne(lib, s, status, k, now).added :: DescribesByDeadline(lib, s, status, e)
  {
    if k in s.invocations {
      var inc := s.invocations[k];
      FinalizeDescribes(lib, s, inc.requestID, status, inc.deadlineMs * NANOS_PER_MILLI, now);
    }
  }

  lemma {:induction false} ShutdownDescribes(lib: Library, s: State, status: string, order: seq<string>, now: int)
    requires Laws(lib) && WellFormed(lib, s)
    ensures forall e | e in OnShutdown(lib, s, status, order, now).added :: DescribesByDeadline(lib, s, status, e)
    ensures OnShutdown(lib, s, status, order, now).err.None? ==>
      OnlyLeave(s, OnShutdown(lib, s, status, order, now).state)
  {
    if order != [] {
      var init, k := order[..|order| - 1], order[|order| - 1];
      ShutdownDescribes(lib, s, status, init, now);
      ShutdownKeeps(lib, s, status, init, now);
      var before := OnShutdown(lib, s, status, init, now);
      if before.err.None? {
        TurnDescribes(lib, before.state, status, k, now);
        TurnLeaves(lib, before.state, status, k, now);
      }
    }
  }

  /** An invocation that was finalised once has no proxy in the rest of its lifetime. */
  lemma NoneAfterDone(
    cfg: Config, s: State, k: string, status: string, endTime: int, now: int, ops: seq<Op>)
    requires k in s.invocations && Step(cfg, s, RuntimeDone(k, status, endTime, now)).err.None?
    requires Lives(cfg, Step(cfg, s, RuntimeDone(k, status, endTime, now)).state, ops, k)
    ensures Proxies(Run(cfg, Step(cfg, s, RuntimeDone(k, status, endTime, now)).state, ops).accepted, k) == 0
  {
    FinalizeProxies(cfg.lib, s, k, status, endTime, now, k);
    AtMostOneProxy(cfg, Step(cfg, s, RuntimeDone(k, status, endTime, now)).state, ops, k);
  }
}
