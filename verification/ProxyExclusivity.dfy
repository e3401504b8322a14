/**
  The proxy transaction protocol over whole runs: in one lifetime of an invocation in the
  map there is at most one proxy for it, and none once its transaction has been seen.
 */
module ProxyExclusivity {
  import opened ByteStrings
  import opened Invocations
  import opened BatchSpec

  /** How many of these entries are proxies for `k`. */
  function Proxies(entries: seq<Entry>, k: string): nat {
    if entries == [] then
      0
    else
      var e := entries[|entries| - 1];
      Proxies(entries[..|entries| - 1], k) + if e.ProxyTxn? && e.reqID == k then 1 else 0
  }

  lemma {:induction false} ProxiesConcat(a: seq<Entry>, b: seq<Entry>, k: string)
    ensures Proxies(a + b, k) == Proxies(a, k) + Proxies(b, k)
  {
    if b == [] {
      assert a + b == a;
    } else {
      ProxiesConcat(a, b[..|b| - 1], k);
      assert (a + b)[..|a + b| - 1] == a + b[..|b| - 1];
    }
  }

  lemma {:induction false} NoProxies(entries: seq<Entry>, k: string)
    requires forall e | e in entries :: !e.ProxyTxn?
    ensures Proxies(entries, k) == 0
  {
    if entries != [] {
      NoProxies(entries[..|entries| - 1], k);
    }
  }

  lemma {:induction false} ProxiesCountAll(entries: seq<Entry>, k: string)
    requires Proxies(entries, k) == 0
    ensures forall e | e in entries :: !(e.ProxyTxn? && e.reqID == k)
  {
    if entries != [] {
      ProxiesCountAll(entries[..|entries| - 1], k);
    }
  }

  /**
    `op` is an agent request, accepted for reading while `k` is current and not final, one
    of whose lines reports the transaction that was registered for `k`. A request read
    without metadata is looked at only up to its first line.
   */
  ghost predicate Sees(cfg: Config, s: State, op: Op, k: string) {
    && op.AgentData? && s.current == k && k in s.invocations
    && AgentBody(cfg, s, op.data).0.None?
    && s.invocations[k].transactionID != "" && !s.invocations[k].finalized
    && AnyLineReports(cfg.lib, LinesLookedAt(s, AgentBody(cfg, s, op.data).1), s.invocations[k].transactionID)
  }

  function LinesLookedAt(s: State, raw: Bytes): seq<Entry> {
    LinesSeen(MetadataAfter(s, raw), raw)
  }

  /** `line` is a transaction by its first quoted key, and it has this id. */
  ghost predicate NamesTransaction(lib: Library, line: Bytes, id: string) {
    lib.txnIDString(line) == id && exists i, j :: FirstKeyAt(line, TRANSACTION_KEY, i, j)
  }

  /**
    An agent request raises the observed flag of the current invocation, and of no other,
    exactly when a proxy was still due and one of the lines looked at tells of the transaction.
   */
  lemma ObservedExactlyWhen(cfg: Config, s: State, data: APMData, now: int, k: string)
    requires WellFormed(cfg.lib, s) && k in s.invocations
    requires AgentBody(cfg, s, data).0.None?
    ensures
      var inc, s' := s.invocations[k], AddAgentData(cfg, s, data, now).state;
      var lines := LinesLookedAt(s, AgentBody(cfg, s, data).1);
      && k in s'.invocations
      && (s'.invocations[k].transactionObserved <==>
            || inc.transactionObserved
            || (k == s.current && inc.NeedProxyTransaction()
                && exists e :: e in lines && NamesTransaction(cfg.lib, e.data, inc.transactionID)))
  {
    var inc := s.invocations[k];
    forall e: Entry | inc.transactionID != ""
      ensures ReportsTransaction(cfg.lib, e.data, inc.transactionID)
        <==> NamesTransaction(cfg.lib, e.data, inc.transactionID)
    {
      FirstKeyIs(e.data, TRANSACTION_KEY);
    }
  }

  /** What one operation may do to an invocation that is in the map before it. */
  ghost predicate KeepsProtocol(cfg: Config, s: State, op: Op, k: string)
    requires k in s.invocations
  {
    var inc, o := s.invocations[k], Step(cfg, s, op);
    && Proxies(o.added, k) <= 1
    && (inc.finalized || inc.transactionObserved ==> Proxies(o.added, k) == 0)
    && (k in o.state.invocations ==>
          var inc' := o.state.invocations[k];
          && (inc.finalized ==> inc'.finalized)
          && (inc.transactionObserved ==> inc'.transactionObserved)
          && (Proxies(o.added, k) == 1 ==> inc'.finalized))
    && (Sees(cfg, s, op, k) ==>
          Proxies(o.added, k) == 0 && k in o.state.invocations && o.state.invocations[k].transactionObserved)
  }

  lemma FinalizeProxies(lib: Library, s: State, reqID: string, status: string, endTime: int, now: int, k: string)
    ensures
      var o := Finalize(lib, s, reqID, status, endTime, now);
      && Proxies(o.added, k) <= 1
      && (Proxies(o.added, k) == 1 ==> k == reqID && k in s.invocations && s.invocations[k].NeedProxyTransaction())
      && o.state.invocations.Keys == s.invocations.Keys
      && (k in s.invocations && k != reqID ==> o.state.invocations[k] == s.invocations[k])
      && (k in s.invocations ==>
            o.state.invocations[k].(finalized := s.invocations[k].finalized) == s.invocations[k]
            && (s.invocations[k].finalized ==> o.state.invocations[k].finalized))
      && (k in s.invocations && o.err.Some? ==> o.state.invocations[k] == s.invocations[k])
      && (o.err.None? ==> reqID in s.invocations && o.state.invocations[reqID].finalized)
  {
    var o := Finalize(lib, s, reqID, status, endTime, now);
    if o.added != [] {
      assert o.added[..0] == [];
    }
  }

  lemma ShutdownOneProxies(lib: Library, s: State, status: string, x: string, now: int, k: string)
    ensures
      var o := ShutdownOne(lib, s, status, x, now);
      && o.state.invocations.Keys <= s.invocations.Keys
      && (k in o.state.invocations ==> Proxies(o.added, k) == 0 && o.state.invocations[k] == s.invocations[k])
      && Proxies(o.added, k) <= 1
      && (Proxies(o.added, k) == 1 ==> k in s.invocations && s.invocations[k].NeedProxyTransaction())
  {
    if x in s.invocations {
      var inc := s.invocations[x];
      FinalizeProxies(lib, s, inc.requestID, status, inc.deadlineMs * NANOS_PER_MILLI, now, k);
      if inc.requestID == k && k in s.invocations {
        FailedAddsNothing(lib, s, k, status, inc.deadlineMs * NANOS_PER_MILLI, now);
      }
    }
  }

  lemma FailedAddsNothing(lib: Library, s: State, k: string, status: string, endTime: int, now: int)
    ensures var o := Finalize(lib, s, k, status, endTime, now); o.err.Some? ==> o.added == []
  {
  }

  /** During shutdown an invocation is untouched until, with at most one proxy, it leaves. */
  lemma {:induction false} ShutdownProxies(
    lib: Library, s: State, status: string, order: seq<string>, now: int, k: string)
    ensures
      var o := OnShutdown(lib, s, status, order, now);
      && o.state.invocations.Keys <= s.invocations.Keys
      && (k in o.state.invocations ==> Proxies(o.added, k) == 0 && o.state.invocations[k] == s.invocations[k])
      && Proxies(o.added, k) <= 1
      && (Proxies(o.added, k) == 1 ==> k in s.invocations && s.invocations[k].NeedProxyTransaction())
  {
    if order != [] {
      var init, x := order[..|order| - 1], order[|order| - 1];
      ShutdownProxies(lib, s, status, init, now, k);
      var before := OnShutdown(lib, s, status, init, now);
      if before.err.None? {
        ProxiesConcat(before.added, ShutdownOne(lib, before.state, status, x, now).added, k);
        ShutdownOneProxies(lib, before.state, status, x, now, k);
      }
    }
  }

  lemma AgentDataAddsNoProxy(cfg: Config, s: State, data: APMData, now: int, k: string)
    ensures Proxies(AddAgentData(cfg, s, data, now).added, k) == 0
  {
    AgentEntriesMembers(Lines(AgentBody(cfg, s, data).1)[1..]);
    NoProxies(AddAgentData(cfg, s, data, now).added, k);
  }

  /** An agent request raises at most the observed flag, and does so if the transaction is seen. */
  lemma AgentDataRaises(cfg: Config, s: State, op: Op, k: string)
    requires k in s.invocations && op.AgentData?
    ensures
      var inc, s' := s.invocations[k], Step(cfg, s, op).state;
      && k in s'.invocations
      && (s'.invocations[k] == inc || s'.invocations[k] == inc.(transactionObserved := true))
      && (Sees(cfg, s, op, k) ==> s'.invocations[k].transactionObserved)
  {
  }

  lemma AgentDataProtocol(cfg: Config, s: State, op: Op, k: string)
    requires k in s.invocations && op.AgentData?
    ensures KeepsProtocol(cfg, s, op, k)
  {
    AgentDataAddsNoProxy(cfg, s, op.data, op.now, k);
    AgentDataRaises(cfg, s, op, k);
  }

  lemma StepProtocol(cfg: Config, s: State, op: Op, k: string)
    requires k in s.invocations
    ensures KeepsProtocol(cfg, s, op, k)
  {
    match op
    case AgentData(_, _) => AgentDataProtocol(cfg, s, op, k);
    case RuntimeDone(reqID, status, endTime, now) => FinalizeProxies(cfg.lib, s, reqID, status, endTime, now, k);
    case Shutdown(status, order, now) => ShutdownProxies(cfg.lib, s, status, order, now, k);
    case _ => NoProxies(Step(cfg, s, op).added, k);
  }

  /** `k` is in the map before every one of the operations: a lifetime, up to its end or not. */
  ghost predicate Lives(cfg: Config, s: State, ops: seq<Op>, k: string) {
    forall i | 0 <= i < |ops| :: k in Run(cfg, s, ops[..i]).state.invocations
  }

  ghost predicate SeenAt(cfg: Config, s: State, ops: seq<Op>, k: string, i: int) {
    0 <= i < |ops| && Sees(cfg, Run(cfg, s, ops[..i]).state, ops[i], k)
  }

  /**
    Over any run within one lifetime of an invocation: at most one proxy; none if it was
    already final or observed; none if its transaction is seen at any point of the run;
    and the flags that say so are never lowered while the invocation is in the map.
   */
  lemma {:induction false} AtMostOneProxy(cfg: Config, s: State, ops: seq<Op>, k: string)
    requires Lives(cfg, s, ops, k) && k in s.invocations
    ensures
      var inc, r := s.invocations[k], Run(cfg, s, ops);
      && Proxies(r.accepted, k) <= 1
      && (inc.finalized || inc.transactionObserved ==> Proxies(r.accepted, k) == 0)
      && ((exists i :: SeenAt(cfg, s, ops, k, i)) ==> Proxies(r.accepted, k) == 0)
      && (k in r.state.invocations ==>
            var inc' := r.state.invocations[k];
            && (inc.finalized ==> inc'.finalized)
            && (inc.transactionObserved ==> inc'.transactionObserved)
            && ((exists i :: SeenAt(cfg, s, ops, k, i)) ==> inc'.transactionObserved)
            && (Proxies(r.accepted, k) == 1 ==> inc'.finalized))
  {
    if ops != [] {
      var n := |ops| - 1;
      var init := ops[..n];
      forall i | 0 <= i <= n ensures init[..i] == ops[..i] {}
      AtMostOneProxy(cfg, s, init, k);
      var before := Run(cfg, s, init);
      assert k in before.state.invocations;
      StepProtocol(cfg, before.state, ops[n], k);
      ProxiesConcat(before.accepted, Step(cfg, before.state, ops[n]).added, k);
      forall i | SeenAt(cfg, s, ops, k, i) && i < n ensures SeenAt(cfg, s, init, k, i) {}
      if exists i :: SeenAt(cfg, s, init, k, i) {
        var i :| SeenAt(cfg, s, init, k, i);
      }
    }
  }

  /**
    A finalisation that fails leaves the invocation as it was, so that a later one can
    succeed: the first one after metadata has arrived adds the proxy that is due.
   */
  lemma FailedFinalizeRetryable(
    lib: Library, s: State, k: string, status: string, endTime: int, now: int)
    requires JsonLaws(lib) && WellFormed(lib, s) && k in s.invocations
    ensures
      var o := Finalize(lib, s, k, status, endTime, now);
      && (o.err.Some? <==> s.metadata == [] && s.invocations[k].NeedProxyTransaction())
      && (o.err.Some? ==> o.state == s && o.added == [])
      && (o.err.None? ==> !o.state.invocations[k].NeedProxyTransaction()
                          && Proxies(o.added, k) == if s.invocations[k].NeedProxyTransaction() then 1 else 0)
  {
    var o := Finalize(lib, s, k, status, endTime, now);
    if s.invocations[k].NeedProxyTransaction() {
      ProxyKeepsTransaction(lib, s.invocations[k], status, endTime);
    }
    if o.added != [] {
      assert o.added[..0] == [];
    }
  }
}
