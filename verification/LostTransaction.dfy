/**
  The one way in which an agent request loses a transaction: AddAgentData looks at a line
  before it adds it, and a line refused for want of metadata has been observed by then.
 */
module LostTransaction {
  import opened ByteStrings
  import opened Invocations
  import opened BatchSpec
  import opened Coverage
  import opened ProxyExclusivity

  /** Exactly then the transaction stops being owed although the request has added nothing. */
  lemma LostExactlyWhen(cfg: Config, s: State, data: APMData, now: int, k: string, id: string)
    requires WellFormed(cfg.lib, s) && Owed(s, k, id)
    ensures var o := Step(cfg, s, AgentData(data, now));
      (!Owed(o.state, k, id) && o.added == []) <==> LosesTransaction(cfg, s, data, k, id)
  {
    var (refused, raw) := AgentBody(cfg, s, data);
    if refused.None? && s.current == k {
      var lines := BodyEntries(raw);
      if lines != [] {
        assert AnyLineReports(cfg.lib, lines[..1], id) <==> ReportsTransaction(cfg.lib, lines[0].data, id) by {
          assert lines[..1] == [lines[0]];
        }
      } else {
        assert !AnyLineReports(cfg.lib, lines, id);
      }
    }
  }

  /** And then it stays lost: no run in that lifetime makes a proxy for it. */
  lemma LostForGood(cfg: Config, s: State, data: APMData, now: int, k: string, id: string, ops: seq<Op>)
    requires WellFormed(cfg.lib, s) && Owed(s, k, id) && LosesTransaction(cfg, s, data, k, id)
    requires Lives(cfg, Step(cfg, s, AgentData(data, now)).state, ops, k)
    ensures var s' := Step(cfg, s, AgentData(data, now)).state; Proxies(Run(cfg, s', ops).accepted, k) == 0
  {
    var s' := Step(cfg, s, AgentData(data, now)).state;
    LostExactlyWhen(cfg, s, data, now, k, id);
    assert k in s'.invocations && s'.invocations[k].transactionObserved;
    AtMostOneProxy(cfg, s', ops, k);
  }

  /** It happens: an empty first line, then the transaction, sent before any metadata. */
  lemma EmptyFirstLineLoses(cfg: Config, s: State, line: Bytes, k: string, id: string)
    requires Owed(s, k, id) && s.metadata == [] && s.current == k && k != "" && |s.entries| < cfg.maxSize
    requires ReportsTransaction(cfg.lib, line, id) && NEWLINE !in line
    ensures LosesTransaction(cfg, s, APMData([NEWLINE] + line, ""), k, id)
  {
    var raw := [NEWLINE] + line;
    assert [] + [NEWLINE] + line == raw;
    CutJoined([], line);
    assert Lines(raw) == [[]] + [line];
    assert Lines(raw)[1..] == [line];
    assert line != [];
  }

  // ---------------------------------------------------------------- over whole runs

  /** No proxy for `k` can come of this state. */
  ghost predicate Spent(s: State, k: string) {
    k in s.invocations ==> !s.invocations[k].NeedProxyTransaction()
  }

  lemma AgentDataSpares(cfg: Config, s: State, op: Op, k: string)
    requires Spent(s, k) && op.AgentData?
    ensures var o := Step(cfg, s, op); Spent(o.state, k) && Proxies(o.added, k) == 0
  {
    if k in s.invocations {
      AgentDataProtocol(cfg, s, op, k);
    } else {
      AgentDataAddsNoProxy(cfg, s, op.data, op.now, k);
    }
  }

  lemma SpentStays(cfg: Config, s: State, op: Op, k: string)
    requires Spent(s, k) && !IsInit(cfg, op, k)
    ensures var o := Step(cfg, s, op); Spent(o.state, k) && Proxies(o.added, k) == 0
  {
    match op
    case AgentData(_, _) => AgentDataSpares(cfg, s, op, k);
    case RuntimeDone(reqID, status, endTime, now) => FinalizeProxies(cfg.lib, s, reqID, status, endTime, now, k);
    case Shutdown(status, order, now) => ShutdownProxies(cfg.lib, s, status, order, now, k);
    case _ => NoProxies(Step(cfg, s, op).added, k);
  }

  /** A proxy for `k` is the last that can come. */
  lemma ProxySpends(cfg: Config, s: State, op: Op, k: string)
    requires !IsInit(cfg, op, k)
    ensures var o := Step(cfg, s, op); Proxies(o.added, k) == 0 || Spent(o.state, k)
  {
    if k in s.invocations {
      StepProtocol(cfg, s, op, k);
    } else {
      SpentStays(cfg, s, op, k);
    }
  }

  lemma ProxiesNext(cfg: Config, ops: seq<Op>, n: nat, k: string)
    requires n < |ops|
    ensures
      var before := At(cfg, ops, n);
      Proxies(At(cfg, ops, n + 1).accepted, k)
      == Proxies(before.accepted, k) + Proxies(Step(cfg, before.state, ops[n]).added, k)
  {
    AtNext(cfg, ops, n);
    ProxiesConcat(At(cfg, ops, n).accepted, Step(cfg, At(cfg, ops, n).state, ops[n]).added, k);
  }

  lemma SpentNext(cfg: Config, ops: seq<Op>, n: nat, k: string)
    requires n < |ops| && Spent(At(cfg, ops, n).state, k) && !IsInit(cfg, ops[n], k)
    ensures Spent(At(cfg, ops, n + 1).state, k)
    ensures Proxies(At(cfg, ops, n + 1).accepted, k) == Proxies(At(cfg, ops, n).accepted, k)
  {
    AtNext(cfg, ops, n);
    ProxiesNext(cfg, ops, n, k);
    SpentStays(cfg, At(cfg, ops, n).state, ops[n], k);
  }

  lemma SameOrSpentNext(cfg: Config, ops: seq<Op>, n: nat, k: string)
    requires n < |ops|
    ensures Proxies(At(cfg, ops, n + 1).accepted, k) == Proxies(At(cfg, ops, n).accepted, k)
         || (!IsInit(cfg, ops[n], k) && Spent(At(cfg, ops, n + 1).state, k))
  {
    AtNext(cfg, ops, n);
    ProxiesNext(cfg, ops, n, k);
    if IsInit(cfg, ops[n], k) {
      NoProxies(Step(cfg, At(cfg, ops, n).state, ops[n]).added, k);
    } else {
      ProxySpends(cfg, At(cfg, ops, n).state, ops[n], k);
    }
  }

  lemma InitsNoMore(cfg: Config, ops: seq<Op>, a: nat, n: nat, k: string)
    requires InitOnce(cfg, ops) && a < |ops| && n < |ops| && n != a && IsInit(cfg, ops[a], k)
    ensures !IsInit(cfg, ops[n], k)
  {
  }

  lemma {:induction false} NoneBeforeInit(cfg: Config, ops: seq<Op>, a: nat, n: nat, k: string)
    requires InitOnce(cfg, ops) && InitBeforeDone(cfg, ops) && ShutdownLast(ops)
    requires n <= a < |ops| && IsInit(cfg, ops[a], k)
    ensures Proxies(At(cfg, ops, n).accepted, k) == 0
  {
    if n > 0 {
      NoneBeforeInit(cfg, ops, a, n - 1, k);
      BlankBefore(cfg, ops, a, n - 1, k);
      InitsNoMore(cfg, ops, a, n - 1, k);
      SpentNext(cfg, ops, n - 1, k);
    }
  }

  ghost predicate NoneYetOrSpent(cfg: Config, ops: seq<Op>, n: nat, k: string)
    requires n <= |ops|
  {
    Proxies(At(cfg, ops, n).accepted, k) == 0 || Spent(At(cfg, ops, n).state, k)
  }

  lemma NoneYetOrSpentNext(cfg: Config, ops: seq<Op>, n: nat, k: string)
    requires n < |ops| && NoneYetOrSpent(cfg, ops, n, k) && !IsInit(cfg, ops[n], k)
    ensures NoneYetOrSpent(cfg, ops, n + 1, k)
  {
    if Spent(At(cfg, ops, n).state, k) {
      SpentNext(cfg, ops, n, k);
    } else {
      SameOrSpentNext(cfg, ops, n, k);
    }
  }

  lemma {:induction false} NoneOrSpent(cfg: Config, ops: seq<Op>, a: nat, n: nat, k: string)
    requires InitOnce(cfg, ops) && InitBeforeDone(cfg, ops) && ShutdownLast(ops)
    requires a < n <= |ops| && IsInit(cfg, ops[a], k)
    ensures NoneYetOrSpent(cfg, ops, n, k)
  {
    if n == a + 1 {
      NoneBeforeInit(cfg, ops, a, a, k);
      SameOrSpentNext(cfg, ops, a, k);
    } else {
      NoneOrSpent(cfg, ops, a, n - 1, k);
      InitsNoMore(cfg, ops, a, n - 1, k);
      NoneYetOrSpentNext(cfg, ops, n - 1, k);
    }
  }

  lemma OwedOnceAnnounced(cfg: Config, ops: seq<Op>, a: nat, n: nat, k: string, id: string)
    requires InitOnce(cfg, ops) && InitBeforeDone(cfg, ops) && ShutdownLast(ops)
    requires a < |ops| && IsInit(cfg, ops[a], k) && n < |ops| && Owed(At(cfg, ops, n).state, k, id)
    ensures a < n
  {
    if n <= a {
      BlankBefore(cfg, ops, a, n, k);
      assert false;
    }
  }

  lemma LosingSpends(cfg: Config, s: State, op: Op, k: string, id: string)
    requires WellFormed(cfg.lib, s) && LosesNow(cfg, s, op, k, id)
    ensures var o := Step(cfg, s, op); Spent(o.state, k) && Proxies(o.added, k) == 0
  {
    LostExactlyWhen(cfg, s, op.data, op.now, k, id);
  }

  /** There is no proxy for `k` after `n` operations, and none to come of the state. */
  ghost predicate NoneEver(cfg: Config, ops: seq<Op>, n: nat, k: string)
    requires n <= |ops|
  {
    Spent(At(cfg, ops, n).state, k) && Proxies(At(cfg, ops, n).accepted, k) == 0
  }

  lemma NoneEverNext(cfg: Config, ops: seq<Op>, n: nat, k: string)
    requires n < |ops| && NoneEver(cfg, ops, n, k) && !IsInit(cfg, ops[n], k)
    ensures NoneEver(cfg, ops, n + 1, k)
  {
    SpentNext(cfg, ops, n, k);
  }

  lemma {:induction false} SpentForGood(cfg: Config, ops: seq<Op>, m: nat, n: nat, k: string)
    requires m <= n <= |ops| && NoneEver(cfg, ops, m, k)
    requires forall i | m <= i < n :: !IsInit(cfg, ops[i], k)
    ensures NoneEver(cfg, ops, n, k)
  {
    if n > m {
      SpentForGood(cfg, ops, m, n - 1, k);
      NoneEverNext(cfg, ops, n - 1, k);
    }
  }

  /** A lost transaction has had no proxy by then, and gets none from then on. */
  lemma NoneOnceLost(cfg: Config, ops: seq<Op>, a: nat, lost: nat, k: string, id: string)
    requires InitOnce(cfg, ops) && InitBeforeDone(cfg, ops) && ShutdownLast(ops)
    requires a < |ops| && IsInit(cfg, ops[a], k)
    requires lost < |ops| && LosesNow(cfg, At(cfg, ops, lost).state, ops[lost], k, id)
    ensures Proxies(At(cfg, ops, |ops|).accepted, k) == 0
  {
    OwedOnceAnnounced(cfg, ops, a, lost, k, id);
    NoneOrSpent(cfg, ops, a, lost, k);
    AtNext(cfg, ops, lost);
    ProxiesNext(cfg, ops, lost, k);
    LosingSpends(cfg, At(cfg, ops, lost).state, ops[lost], k, id);
    forall i | lost + 1 <= i < |ops| ensures !IsInit(cfg, ops[i], k) {
      InitsNoMore(cfg, ops, a, i, k);
    }
    SpentForGood(cfg, ops, lost + 1, |ops|, k);
  }

  /** The agent's own line for the transaction is among these entries. */
  ghost predicate AgentReported(lib: Library, accepted: seq<Entry>, id: string) {
    exists e :: e in accepted && e.AgentLine? && ReportsTransaction(lib, e.data, id)
  }

  /** `op` is an agent request that is read, with metadata, and one of its lines reports the transaction. */
  ghost predicate Sends(cfg: Config, s: State, op: Op, id: string) {
    && op.AgentData?
    && var (refused, raw) := AgentBody(cfg, s, op.data);
       && refused.None? && MetadataAfter(s, raw) != []
       && exists l :: l in Lines(raw)[1..] && ReportsTransaction(cfg.lib, l, id)
  }

  ghost predicate SentBy(cfg: Config, ops: seq<Op>, n: nat, id: string)
    requires n <= |ops|
  {
    exists i :: 0 <= i < n && Sends(cfg, At(cfg, ops, i).state, ops[i], id)
  }

  /** No operation but such a request adds a line of the agent that reports the transaction. */
  lemma SendsExactlyWhen(cfg: Config, s: State, op: Op, id: string)
    requires WellFormed(cfg.lib, s)
    ensures AgentReported(cfg.lib, Step(cfg, s, op).added, id) <==> Sends(cfg, s, op, id)
  {
    match op
    case AgentData(data, now) => BodySends(cfg, s, data, now, id);
    case RuntimeDone(_, _, _, _) =>
    case Shutdown(status, order, now) => ShutdownAddsNoLine(cfg.lib, s, status, order, now);
    case _ =>
  }

  lemma BodySends(cfg: Config, s: State, data: APMData, now: int, id: string)
    ensures AgentReported(cfg.lib, AddAgentData(cfg, s, data, now).added, id)
      <==> Sends(cfg, s, AgentData(data, now), id)
  {
    var (refused, raw) := AgentBody(cfg, s, data);
    if refused.None? {
      var lines := Lines(raw)[1..];
      AgentEntriesMembers(lines);
      if MetadataAfter(s, raw) != [] {
        forall l | l in lines && ReportsTransaction(cfg.lib, l, id) ensures AgentLine(l) in BodyEntries(raw) {
          assert EventTypeOf([]) == OtherEvent;
        }
      }
    }
  }

  lemma {:induction false} ShutdownAddsNoLine(lib: Library, s: State, status: string, order: seq<string>, now: int)
    ensures forall e | e in OnShutdown(lib, s, status, order, now).added :: !e.AgentLine?
  {
    if order != [] {
      ShutdownAddsNoLine(lib, s, status, order[..|order| - 1], now);
    }
  }

  lemma ReportedMore(lib: Library, accepted: seq<Entry>, added: seq<Entry>, id: string)
    ensures AgentReported(lib, accepted + added, id)
      <==> AgentReported(lib, accepted, id) || AgentReported(lib, added, id)
  {
    assert forall e :: e in accepted + added <==> e in accepted || e in added;
  }

  /** So the agent's line has been accepted if and only if such a request was sent. */
  lemma {:induction false} ReportedExactlyWhen(cfg: Config, ops: seq<Op>, n: nat, id: string)
    requires n <= |ops|
    ensures AgentReported(cfg.lib, At(cfg, ops, n).accepted, id) <==> SentBy(cfg, ops, n, id)
  {
    if n > 0 {
      var before := At(cfg, ops, n - 1);
      ReportedExactlyWhen(cfg, ops, n - 1, id);
      AtNext(cfg, ops, n - 1);
      SendsExactlyWhen(cfg, before.state, ops[n - 1], id);
      ReportedMore(cfg.lib, before.accepted, Step(cfg, before.state, ops[n - 1]).added, id);
      SentByNext(cfg, ops, n, id);
    }
  }

  lemma SentByNext(cfg: Config, ops: seq<Op>, n: nat, id: string)
    requires 0 < n <= |ops|
    ensures SentBy(cfg, ops, n, id)
      <==> SentBy(cfg, ops, n - 1, id) || Sends(cfg, At(cfg, ops, n - 1).state, ops[n - 1], id)
  {
  }

  lemma LostIsNotCovered(cfg: Config, ops: seq<Op>, a: nat, k: string, id: string)
    requires InitOnce(cfg, ops) && InitBeforeDone(cfg, ops) && ShutdownLast(ops)
    requires a < |ops| && IsInit(cfg, ops[a], k) && !NeverLost(cfg, ops, k, id)
    ensures
      var accepted := Run(cfg, NEW_BATCH, ops).accepted;
      Covered(cfg.lib, accepted, k, id) ==> AgentReported(cfg.lib, accepted, id)
  {
    var lost :| 0 <= lost < |ops| && LosesNow(cfg, At(cfg, ops, lost).state, ops[lost], k, id);
    NoneOnceLost(cfg, ops, a, lost, k, id);
    assert ops[..|ops|] == ops;
    ProxiesCountAll(Run(cfg, NEW_BATCH, ops).accepted, k);
  }

  lemma ReportedIsCovered(lib: Library, accepted: seq<Entry>, k: string, id: string)
    requires AgentReported(lib, accepted, id)
    ensures Covered(lib, accepted, k, id)
  {
    var e :| e in accepted && e.AgentLine? && ReportsTransaction(lib, e.data, id);
    assert Covers(lib, e, k, id);
  }

  /**
    Over a whole run, up to the end of its shutdown: a registered transaction is covered if
    and only if no agent request loses it, or another agent request with the agent's own
    line for it is read while there is metadata. A lost one never gets a proxy.
   */
  lemma CoveredExactlyWhen(cfg: Config, ops: seq<Op>, a: nat, k: string, id: string)
    requires JsonLaws(cfg.lib) && WellOrdered(cfg, ops) && MetadataInTime(cfg, ops)
    requires a < |ops| && Announces(cfg, ops[a], k, id)
    ensures Covered(cfg.lib, Run(cfg, NEW_BATCH, ops).accepted, k, id)
      <==> NeverLost(cfg, ops, k, id) || SentBy(cfg, ops, |ops|, id)
  {
    var accepted := Run(cfg, NEW_BATCH, ops).accepted;
    assert ops[..|ops|] == ops;
    ReportedExactlyWhen(cfg, ops, |ops|, id);
    if AgentReported(cfg.lib, accepted, id) {
      ReportedIsCovered(cfg.lib, accepted, k, id);
    } else if NeverLost(cfg, ops, k, id) {
      EveryTransactionCovered(cfg, ops);
    } else {
      LostIsNotCovered(cfg, ops, a, k, id);
    }
  }
}
